/**
 * Properties of the option store that relate several operations: how the
 * resolver's precedence plays out, what augments and un-augments do to other
 * slots, and the first-write-wins rule of subproject options.
 */
module StoreProperties {
  import opened Wrappers
  import opened KeyGrammar
  import opened StoreModel

  // ---------------------------------------------------------------------------
  // Resolver precedence

  /** A system option with nothing declared or augmented at two scopes resolves
      to the same value at both. */
  lemma SystemOptionSameForEverySubproject(st: State, name: string, sub1: Sub, sub2: Sub)
    requires name in st.system
    requires OptionKey(name, sub1) !in st.augments && !HasProjectOption(st, name, sub1)
    requires OptionKey(name, sub2) !in st.augments && !HasProjectOption(st, name, sub2)
    ensures Resolve(st, name, sub1) == Resolve(st, name, sub2) == Some(st.system[name])
  {
  }

  /** A yielding subproject option without an augment of its own resolves to
      whatever the root project resolves to, whenever the root has a value. */
  lemma YieldingTracksRoot(st: State, name: string, sub: Sub)
    requires Yields(st, name, sub) && OptionKey(name, sub) !in st.augments
    requires Resolve(st, name, Root).Some?
    ensures Resolve(st, name, sub) == Resolve(st, name, Root)
  {
  }

  /** A non-yielding subproject option and the root option keep their own values. */
  lemma NonYieldingKeepsOwnValue(st: State, name: string, subproject: string)
    requires subproject != ""
    requires ProjectKey(name, subproject) in st.project && !st.project[ProjectKey(name, subproject)].yielding
    requires ProjectKey(name, "") in st.project
    requires OptionKey(name, Named(subproject)) !in st.augments && OptionKey(name, Root) !in st.augments
    ensures Resolve(st, name, Named(subproject)) == Some(st.project[ProjectKey(name, subproject)].value)
    ensures Resolve(st, name, Root) == Some(st.project[ProjectKey(name, "")].value)
  {
  }

  // ---------------------------------------------------------------------------
  // Augments

  /** An augment decides the value at its own slot and nowhere else, except
      that a root augment is also seen by subprojects whose option yields. */
  lemma AugmentOnlyAtExactKey(st: State, key: OptionKey, value: string, name: string, sub: Sub)
    requires OptionKey(name, sub) != key
    requires key.subproject != Root || !Yields(st, name, sub)
    ensures Resolve(Augmented(st, key, value), key.name, key.subproject) == Some(value)
    ensures Resolve(Augmented(st, key, value), name, sub) == Resolve(st, name, sub)
  {
  }

  /** Un-augmenting a slot that an augment just created gives back the store as
      it was before the augment. */
  lemma UnaugmentRestores(st: State, key: OptionKey, value: string)
    requires key !in st.augments
    ensures Unaugmented(Augmented(st, key, value), key) == st
  {
  }

  /** `set_option` on an augmented slot writes the registered option underneath
      the augment; removing the augment then exposes the value that was set. */
  lemma SetUnderAugmentSurfaces(st: State, name: string, sub: Sub, value: string)
    requires SetOption(st, name, sub, value).Some? && !Yields(st, name, sub)
    ensures Resolve(Unaugmented(SetOption(st, name, sub, value).value, OptionKey(name, sub)), name, sub) == Some(value)
  {
  }

  /** A set entry at a scope that owns no registered option overwrites the
      augment an earlier augment entry put there. */
  lemma SetReplacesAugment(st: State, key: OptionKey, augmentValue: string, setValue: string)
    requires !Owns(st, key)
    ensures ApplySet(Augmented(st, key, augmentValue), Assignment(key, setValue)) == Augmented(st, key, setValue)
  {
  }

  // ---------------------------------------------------------------------------
  // Configure commands with one entry

  /** `k=v` parses to `(k, v)` when the key part holds no `=`. */
  lemma ParseJoined(keystring: string, value: string)
    requires '=' !in keystring
    ensures ParseAssignment(keystring + "=" + value) == Some((keystring, value))
  {
    IndexOfAfterPrefix(keystring, '=', value);
    assert keystring + "=" + value == keystring + ['='] + value;
    var s := keystring + "=" + value;
    assert s[..|keystring|] == keystring && s[|keystring| + 1..] == value;
  }

  /** The empty list parses to no pairs. */
  lemma ParseNone()
    ensures ParseAssignments([]) == Some([])
  {
  }

  /** A list of one well-formed entry parses to that entry's pair. */
  lemma ParseOne(keystring: string, value: string)
    requires '=' !in keystring
    ensures ParseAssignments([keystring + "=" + value]) == Some([(keystring, value)])
  {
    ParseJoined(keystring, value);
    var entries := [keystring + "=" + value];
    assert entries[0] == keystring + "=" + value && entries[1..] == [];
    assert ParseAssignments(entries[1..]) == Some([]);
    assert ParseAssignment(entries[0]) == Some((keystring, value));
    assert [(keystring, value)] + [] == [(keystring, value)];
  }

  /** Each list step applied to a list of one entry is that entry's step. */
  lemma SetsOfOne(st: State, a: Assignment)
    ensures ApplySets(st, [a]) == ApplySet(st, a)
  {
    assert [a][..0] == [];
  }

  lemma AugmentsOfOne(st: State, a: Assignment)
    ensures ApplyAugments(st, [a]) == Augmented(st, a.key, a.value)
  {
    assert [a][..0] == [];
  }

  lemma UnaugmentsOfOne(st: State, key: OptionKey)
    ensures ApplyUnaugments(st, [key]) == Unaugmented(st, key)
  {
    assert [key][..0] == [];
  }

  /** Empty lists change nothing. */
  lemma EmptyLists(st: State)
    ensures ApplySets(st, []) == st
    ensures ApplyAugments(st, []) == st
    ensures ApplyUnaugments(st, []) == st
  {
  }

  /** One `k=v` entry scopes to the assignment of `v` at `k`'s key. */
  lemma ScopedOne(keystring: string, value: string)
    ensures ScopedAssignments([(keystring, value)]) == [Assignment(KeyOf(SplitKeystring(keystring)), value)]
    ensures ScopedAssignments([]) == [] && ScopedKeys([]) == []
    ensures ScopedKeys([keystring]) == [KeyOf(SplitKeystring(keystring))]
  {
  }

  /** A configure command whose two assignment lists parse. */
  lemma ConfigureParsed(st: State, sets: seq<string>, augs: seq<string>, unaugs: seq<string>,
                        setPairs: seq<(string, string)>, augPairs: seq<(string, string)>)
    requires ParseAssignments(sets) == Some(setPairs) && ParseAssignments(augs) == Some(augPairs)
    ensures AfterConfigureCommand(st, sets, augs, unaugs)
            == Some(ApplyUnaugments(ApplyAugments(ApplySets(st, ScopedAssignments(setPairs)),
                                                  ScopedAssignments(augPairs)),
                                    ScopedKeys(unaugs)))
  {
  }

  lemma ConfigureSetOne(st: State, keystring: string, value: string)
    requires '=' !in keystring
    ensures AfterConfigureCommand(st, [keystring + "=" + value], [], [])
            == Some(ApplySet(st, Assignment(KeyOf(SplitKeystring(keystring)), value)))
  {
    ParseOne(keystring, value);
    ParseNone();
    ConfigureParsed(st, [keystring + "=" + value], [], [], [(keystring, value)], []);
    ScopedOne(keystring, value);
    var a := Assignment(KeyOf(SplitKeystring(keystring)), value);
    SetsOfOne(st, a);
    EmptyLists(ApplySet(st, a));
  }

  lemma ConfigureAugmentOne(st: State, keystring: string, value: string)
    requires '=' !in keystring
    ensures AfterConfigureCommand(st, [], [keystring + "=" + value], [])
            == Some(Augmented(st, KeyOf(SplitKeystring(keystring)), value))
  {
    ParseOne(keystring, value);
    ParseNone();
    ConfigureParsed(st, [], [keystring + "=" + value], [], [], [(keystring, value)]);
    ScopedOne(keystring, value);
    var a := Assignment(KeyOf(SplitKeystring(keystring)), value);
    EmptyLists(st);
    AugmentsOfOne(st, a);
    EmptyLists(Augmented(st, a.key, a.value));
  }

  lemma ConfigureUnaugmentOne(st: State, keystring: string)
    ensures AfterConfigureCommand(st, [], [], [keystring])
            == Some(Unaugmented(st, KeyOf(SplitKeystring(keystring))))
  {
    ParseNone();
    ConfigureParsed(st, [], [], [keystring], [], []);
    ScopedOne(keystring, "");
    EmptyLists(st);
    UnaugmentsOfOne(st, KeyOf(SplitKeystring(keystring)));
  }

  /** An augment command followed by the un-augment command for the same key
      leaves the store exactly as it was, provided the slot had no augment. */
  lemma ConfigureAugmentThenUnaugment(st: State, keystring: string, value: string)
    requires '=' !in keystring
    requires KeyOf(SplitKeystring(keystring)) !in st.augments
    ensures AfterConfigureCommand(st, [], [keystring + "=" + value], []).Some?
    ensures AfterConfigureCommand(AfterConfigureCommand(st, [], [keystring + "=" + value], []).value,
                                  [], [], [keystring])
            == Some(st)
  {
    var key := KeyOf(SplitKeystring(keystring));
    ConfigureAugmentOne(st, keystring, value);
    ConfigureUnaugmentOne(Augmented(st, key, value), keystring);
    UnaugmentRestores(st, key, value);
  }

  // ---------------------------------------------------------------------------
  // Subproject options

  /** When every slot of a list already holds an augment, applying the list
      only where absent changes nothing. */
  lemma {:induction false} IfAbsentNoOp(st: State, entries: seq<Assignment>)
    requires forall i :: 0 <= i < |entries| ==> entries[i].key in st.augments
    ensures ApplyIfAbsent(st, entries) == st
    decreases |entries|
  {
    if entries != [] {
      IfAbsentNoOp(st, entries[..|entries| - 1]);
    }
  }

  /** A second `set_subproject_options` call for the same subproject that names
      only options the first call named changes nothing, whatever its values. */
  lemma SubprojectOptionsFirstWriteWins(st: State, subproject: string, first: seq<string>, second: seq<string>,
                                        other1: seq<string>, other2: seq<string>)
    requires ParseAssignments(first).Some? && ParseAssignments(second).Some?
    requires EntryNames(ParseAssignments(second).value) <= EntryNames(ParseAssignments(first).value)
    ensures AfterSubprojectOptions(st, subproject, first, other1).Some?
    ensures AfterSubprojectOptions(AfterSubprojectOptions(st, subproject, first, other1).value,
                                   subproject, second, other2)
            == AfterSubprojectOptions(st, subproject, first, other1)
  {
    var st1 := AfterSubprojectOptions(st, subproject, first, other1).value;
    var p1 := ParseAssignments(first).value;
    var p2 := ParseAssignments(second).value;
    var e1 := NativeAssignments(subproject, p1);
    var e2 := NativeAssignments(subproject, p2);
    forall j | 0 <= j < |e2|
      ensures e2[j].key in st1.augments
    {
      assert p2[j].0 in EntryNames(p2);
      var i :| 0 <= i < |p1| && p1[i].0 == p2[j].0;
      assert e1[i].key == e2[j].key;
    }
    IfAbsentNoOp(st1, e2);
  }

  /** The second list of `set_subproject_options` has no effect. */
  lemma SubprojectOptionsIgnoreOther(st: State, subproject: string, native: seq<string>,
                                     other1: seq<string>, other2: seq<string>)
    ensures AfterSubprojectOptions(st, subproject, native, other1)
            == AfterSubprojectOptions(st, subproject, native, other2)
  {
  }

  /** One `name=value` entry sets the subproject's augment when it has none,
      and leaves an existing one alone. */
  lemma SubprojectOptionsOne(st: State, subproject: string, name: string, value: string, other: seq<string>)
    requires '=' !in name
    ensures AfterSubprojectOptions(st, subproject, [name + "=" + value], other)
            == Some(AugmentedIfAbsent(st, OptionKey(name, Named(subproject)), value))
  {
    ParseOne(name, value);
    assert AfterSubprojectOptions(st, subproject, [name + "=" + value], other)
           == Some(ApplyIfAbsent(st, NativeAssignments(subproject, [(name, value)])));
    var entries := NativeAssignments(subproject, [(name, value)]);
    assert entries == [Assignment(OptionKey(name, Named(subproject)), value)];
    assert entries[..0] == [];
  }
}
