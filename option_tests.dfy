/**
 * The store's unit scenarios, one method per scenario of
 * unittests/optiontests.py. Each drives a fresh `OptionStore` through the same
 * calls, collects what each of the scenario's assertions reads, in order, and
 * promises in its postcondition the values those assertions expect.
 */
module OptionTests {
  import opened Wrappers
  import opened KeyGrammar
  import opened StoreModel
  import opened StoreProperties
  import opened Options

  /** A string option as the scenarios create it; `yielding` defaults to false. */
  function StringOption(name: string, description: string, defaultValue: string, yielding: bool): UserOption
  {
    UserOption(name, description, defaultValue, yielding)
  }

  /** A combo option; the list of choices is not modelled, only the default. */
  function ComboOption(name: string, description: string, defaultValue: string): UserOption
  {
    UserOption(name, description, defaultValue, false)
  }

  method TestBasic() returns (observed: seq<Option<string>>)
    ensures observed == [Some("somevalue"), Some("new_value")]
  {
    var optstore := new OptionStore();
    var name := "someoption";
    var defaultValue := "somevalue";
    var newValue := "new_value";
    var vo := StringOption(name, "An option of some sort", defaultValue, false);
    optstore.AddSystemOption(name, vo);
    var v1 := optstore.GetValueFor(name, Absent);
    assert v1 == Some(defaultValue);
    var ok := optstore.SetOption(name, Root, newValue);
    var v2 := optstore.GetValueFor(name, Absent);
    assert v2 == Some(newValue);
    observed := [v1, v2];
  }

  lemma SplitsSubprojectKey()
    ensures SplitKeystring("sub:optname") == OptionParts("optname", Named("sub"), false)
  {
    SplitScoped("sub", "optname");
    assert "sub:optname" == "sub" + ":" + "optname";
  }

  lemma SplitsUnscopedKey()
    ensures SplitKeystring("optname") == OptionParts("optname", Absent, false)
  {
    assert forall i :: 0 <= i < |"optname"| ==> "optname"[i] != ':';
  }

  lemma SplitsRootKey()
    ensures SplitKeystring(":optname") == OptionParts("optname", Named(""), false)
  {
    SplitScoped("", "optname");
    assert ":optname" == "" + ":" + "optname";
  }

  method TestParsing() returns (parts: seq<OptionParts>, printed: seq<string>)
    ensures parts == [OptionParts("optname", Named("sub"), false),
                      OptionParts("optname", Absent, false),
                      OptionParts("optname", Named(""), false)]
    ensures printed == ["sub:optname", "optname", ":optname"]
  {
    SplitsSubprojectKey();
    SplitsUnscopedKey();
    SplitsRootKey();
    var s1 := SplitKeystring("sub:optname");
    var s2 := SplitKeystring("optname");
    var s3 := SplitKeystring(":optname");
    parts := [s1, s2, s3];
    printed := [PartsToCanonicalKeystring(s1), PartsToCanonicalKeystring(s2), PartsToCanonicalKeystring(s3)];
  }

  method TestSubprojectForSystem() returns (observed: seq<Option<string>>)
    ensures observed == [Some("somevalue")]
  {
    var optstore := new OptionStore();
    var name := "someoption";
    var defaultValue := "somevalue";
    var vo := StringOption(name, "An option of some sort", defaultValue, false);
    optstore.AddSystemOption(name, vo);
    observed := [optstore.GetValueFor(name, Named("somesubproject"))];
  }

  method TestReset() returns (observed: seq<Option<string>>, counts: seq<nat>)
    ensures observed == [Some("original"), Some("original")]
    ensures counts == [1, 1]
  {
    var optstore := new OptionStore();
    var name := "someoption";
    var originalValue := "original";
    var resetValue := "reset";
    var vo := StringOption(name, "An option set twice", originalValue, false);
    optstore.AddSystemOption(name, vo);
    var v1 := optstore.GetValueFor(name, Absent);
    var n1 := optstore.NumOptions();
    assert v1 == Some(originalValue) && n1 == 1;
    var vo2 := StringOption(name, "An option set twice", resetValue, false);
    optstore.AddSystemOption(name, vo2);
    var v2 := optstore.GetValueFor(name, Absent);
    var n2 := optstore.NumOptions();
    assert v2 == Some(originalValue) && n2 == 1;
    observed := [v1, v2];
    counts := [n1, n2];
  }

  method TestProjectNonyielding() returns (observed: seq<Option<string>>, counts: seq<nat>)
    ensures observed == [Some("top"), Some("top"), Some("sub")]
    ensures counts == [1, 2]
  {
    var optstore := new OptionStore();
    var name := "someoption";
    var topValue := "top";
    var subValue := "sub";
    var vo := StringOption(name, "A top level option", topValue, false);
    optstore.AddProjectOption(name, "", vo);
    var v1 := optstore.GetValueFor(name, Root);
    var n1 := optstore.NumOptions();
    assert v1 == Some(topValue) && n1 == 1;
    var vo2 := StringOption(name, "A subproject option", subValue, false);
    optstore.AddProjectOption(name, "sub", vo2);
    var v2 := optstore.GetValueFor(name, Root);
    var v3 := optstore.GetValueFor(name, Named("sub"));
    var n2 := optstore.NumOptions();
    assert v2 == Some(topValue) && v3 == Some(subValue) && n2 == 2;
    observed := [v1, v2, v3];
    counts := [n1, n2];
  }

  method TestProjectYielding() returns (observed: seq<Option<string>>, counts: seq<nat>)
    ensures observed == [Some("top"), Some("top"), Some("top")]
    ensures counts == [1, 2]
  {
    var optstore := new OptionStore();
    var name := "someoption";
    var topValue := "top";
    var subValue := "sub";
    var vo := StringOption(name, "A top level option", topValue, false);
    optstore.AddProjectOption(name, "", vo);
    var v1 := optstore.GetValueFor(name, Root);
    var n1 := optstore.NumOptions();
    assert v1 == Some(topValue) && n1 == 1;
    var vo2 := StringOption(name, "A subproject option", subValue, true);
    optstore.AddProjectOption(name, "sub", vo2);
    var v2 := optstore.GetValueFor(name, Root);
    var v3 := optstore.GetValueFor(name, Named("sub"));
    var n2 := optstore.NumOptions();
    assert v2 == Some(topValue) && v3 == Some(topValue) && n2 == 2;
    observed := [v1, v2, v3];
    counts := [n1, n2];
  }

  /** The scoped keys of the cpp_std scenarios, with the facts about them the scenarios use. */
  lemma SplitsKey(sub: string, name: string)
    requires ':' !in sub && '=' !in sub && '=' !in name
    ensures KeyOf(SplitKeystring(sub + ":" + name)) == OptionKey(name, Named(sub))
    ensures '=' !in sub + ":" + name
  {
    SplitScoped(sub, name);
  }

  method TestAugments() returns (observed: seq<Option<string>>)
    ensures observed == [Some("c++11"), Some("c++11"), Some("c++11"),
                         Some("c++11"), Some("c++23"), Some("c++11"),
                         Some("c++11"), Some("c++11"), Some("c++11"),
                         Some("c++11"), Some("c++23"), Some("c++11"), Some("c++11"),
                         Some("c++11"), Some("c++11"), Some("c++11")]
  {
    var optstore := new OptionStore();
    var name := "cpp_std";
    var subName := "sub";
    var sub2Name := "sub2";
    var topValue := "c++11";
    var augValue := "c++23";
    var co := ComboOption(name, "C++ language standard to use", topValue);
    optstore.AddSystemOption(name, co);
    ghost var registered := optstore.Snapshot();
    var v1 := optstore.GetValueFor(name, Absent);
    var v2 := optstore.GetValueFor(name, Named(subName));
    var v3 := optstore.GetValueFor(name, Named(sub2Name));

    // First augment a subproject
    var subKey := subName + ":" + name;
    SplitsKey(subName, name);
    ghost var key := OptionKey(name, Named(subName));
    ConfigureAugmentOne(registered, subKey, augValue);
    ConfigureAugmentThenUnaugment(registered, subKey, augValue);
    AugmentOnlyAtExactKey(registered, key, augValue, name, Absent);
    AugmentOnlyAtExactKey(registered, key, augValue, name, Named(sub2Name));
    var ok := optstore.SetFromConfigureCommand([], [subKey + "=" + augValue], []);
    var v4 := optstore.GetValueFor(name, Absent);
    var v5 := optstore.GetValueFor(name, Named(subName));
    var v6 := optstore.GetValueFor(name, Named(sub2Name));
    ok := optstore.SetFromConfigureCommand([], [], [subKey]);
    assert optstore.Snapshot() == registered;
    var v7 := optstore.GetValueFor(name, Absent);
    var v8 := optstore.GetValueFor(name, Named(subName));
    var v9 := optstore.GetValueFor(name, Named(sub2Name));

    // And now augment the top level option
    var rootKey := "" + ":" + name;
    SplitsKey("", name);
    key := OptionKey(name, Root);
    ConfigureAugmentOne(registered, rootKey, augValue);
    ConfigureAugmentThenUnaugment(registered, rootKey, augValue);
    AugmentOnlyAtExactKey(registered, key, augValue, name, Absent);
    AugmentOnlyAtExactKey(registered, key, augValue, name, Named(subName));
    AugmentOnlyAtExactKey(registered, key, augValue, name, Named(sub2Name));
    ok := optstore.SetFromConfigureCommand([], [rootKey + "=" + augValue], []);
    var v10 := optstore.GetValueFor(name, Absent);
    var v11 := optstore.GetValueFor(name, Root);
    var v12 := optstore.GetValueFor(name, Named(subName));
    var v13 := optstore.GetValueFor(name, Named(sub2Name));
    ok := optstore.SetFromConfigureCommand([], [], [rootKey]);
    assert optstore.Snapshot() == registered;
    var v14 := optstore.GetValueFor(name, Absent);
    var v15 := optstore.GetValueFor(name, Named(subName));
    var v16 := optstore.GetValueFor(name, Named(sub2Name));
    observed := [v1, v2, v3, v4, v5, v6, v7, v8, v9, v10, v11, v12, v13, v14, v15, v16];
  }

  method TestAugmentSetSub() returns (observed: seq<Option<string>>)
    ensures observed == [Some("c++11"), Some("c++20")]
  {
    var optstore := new OptionStore();
    var name := "cpp_std";
    var subName := "sub";
    var topValue := "c++11";
    var augValue := "c++23";
    var setValue := "c++20";
    var co := ComboOption(name, "C++ language standard to use", topValue);
    optstore.AddSystemOption(name, co);
    ghost var registered := optstore.Snapshot();
    assert registered.project == map[] && Resolve(registered, name, Absent) == Some(topValue);
    var subKey := subName + ":" + name;
    SplitsKey(subName, name);
    var key := OptionKey(name, Named(subName));
    assert !Owns(registered, key);
    ConfigureAugmentOne(registered, subKey, augValue);
    var ok := optstore.SetFromConfigureCommand([], [subKey + "=" + augValue], []);
    ghost var augmented := optstore.Snapshot();
    assert augmented == Augmented(registered, key, augValue);
    ConfigureSetOne(augmented, subKey, setValue);
    SetReplacesAugment(registered, key, augValue, setValue);
    AugmentOnlyAtExactKey(registered, key, setValue, name, Absent);
    ok := optstore.SetFromConfigureCommand([subKey + "=" + setValue], [], []);
    assert optstore.Snapshot() == Augmented(registered, key, setValue);
    var v1 := optstore.GetValueFor(name, Absent);
    assert v1 == Some(topValue);
    var v2 := optstore.GetValueFor(name, Named(subName));
    assert v2 == Some(setValue);
    observed := [v1, v2];
  }

  method TestSubprojectCallOptions() returns (observed: seq<Option<string>>)
    ensures observed == [Some("c++11"), Some("c++14"), Some("c++11"), Some("c++14")]
  {
    var optstore := new OptionStore();
    var name := "cpp_std";
    var defaultValue := "c++11";
    var overrideValue := "c++14";
    var unusedValue := "c++20";
    var subproject := "sub";
    var co := ComboOption(name, "C++ language standard to use", defaultValue);
    optstore.AddSystemOption(name, co);
    ghost var registered := optstore.Snapshot();
    ghost var key := OptionKey(name, Named(subproject));
    SubprojectOptionsOne(registered, subproject, "cpp_std", overrideValue, ["cpp_std=" + unusedValue]);
    AugmentOnlyAtExactKey(registered, key, overrideValue, name, Absent);
    var ok := optstore.SetSubprojectOptions(subproject, ["cpp_std" + "=" + overrideValue], ["cpp_std" + "=" + unusedValue]);
    assert optstore.Snapshot() == Augmented(registered, key, overrideValue);
    var v1 := optstore.GetValueFor(name, Absent);
    assert v1 == Some(defaultValue);
    var v2 := optstore.GetValueFor(name, Named(subproject));
    assert v2 == Some(overrideValue);

    // Trying again should change nothing
    SubprojectOptionsOne(optstore.Snapshot(), subproject, "cpp_std", unusedValue, ["cpp_std" + "=" + unusedValue]);
    ok := optstore.SetSubprojectOptions(subproject, ["cpp_std" + "=" + unusedValue], ["cpp_std" + "=" + unusedValue]);
    assert optstore.Snapshot() == Augmented(registered, key, overrideValue);
    var v3 := optstore.GetValueFor(name, Absent);
    assert v3 == Some(defaultValue);
    var v4 := optstore.GetValueFor(name, Named(subproject));
    assert v4 == Some(overrideValue);
    observed := [v1, v2, v3, v4];
  }
}
