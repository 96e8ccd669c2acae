/**
 * `OptionStore`: the mutable store object. Its three layers are map fields
 * that the operations update in place; every operation is proved to move the
 * store from `Snapshot()` to the state the matching transition of StoreModel
 * gives, so every lemma about those transitions holds of the object.
 */
module Options {
  import opened Wrappers
  import opened KeyGrammar
  import opened StoreModel

  class OptionStore {
    var system: map<string, string>
    var project: map<ProjectKey, ProjectOption>
    var augments: map<OptionKey, string>

    /** The store's current contents as a value. */
    function Snapshot(): State
      reads this
    {
      State(system, project, augments)
    }

    constructor ()
      ensures Snapshot() == Empty
    {
      system, project, augments := map[], map[], map[];
    }

    /** `get_value_for(name, subproject)`; `None` for an unknown option. */
    function GetValueFor(name: string, subproject: Sub): (r: Option<string>)
      reads this
      ensures r.None? <==> (&& OptionKey(name, subproject) !in augments
                            && !(subproject.Named? && ProjectKey(name, subproject.id) in project)
                            && name !in system)
      ensures OptionKey(name, subproject) in augments ==> r == Some(augments[OptionKey(name, subproject)])
      ensures (&& OptionKey(name, subproject) !in augments
               && !(subproject.Named? && ProjectKey(name, subproject.id) in project)
               && name in system)
                ==> r == Some(system[name])
    {
      Resolve(Snapshot(), name, subproject)
    }

    /** `num_options()`. */
    function NumOptions(): (r: nat)
      reads this
      ensures r == 0 <==> system == map[] && project == map[]
    {
      StoreModel.NumOptions(Snapshot())
    }

    /** `add_system_option`: ignored when the name is already registered. */
    method AddSystemOption(name: string, opt: UserOption)
      modifies this
      ensures Snapshot() == WithSystemOption(old(Snapshot()), name, opt)
    {
      if name !in system {
        system := system[name := opt.defaultValue];
      }
    }

    /** `add_project_option`: ignored when the (name, subproject) pair is already registered. */
    method AddProjectOption(name: string, subproject: string, opt: UserOption)
      modifies this
      ensures Snapshot() == WithProjectOption(old(Snapshot()), name, subproject, opt)
    {
      var key := ProjectKey(name, subproject);
      if key !in project {
        project := project[key := ProjectOption(opt.defaultValue, opt.yielding)];
      }
    }

    /** `set_option`: `ok` is false for an unknown option, which leaves the store unchanged. */
    method SetOption(name: string, subproject: Sub, value: string) returns (ok: bool)
      modifies this
      ensures ok == StoreModel.SetOption(old(Snapshot()), name, subproject, value).Some?
      ensures ok ==> Snapshot() == StoreModel.SetOption(old(Snapshot()), name, subproject, value).value
      ensures !ok ==> Snapshot() == old(Snapshot())
    {
      if subproject.Named? && ProjectKey(name, subproject.id) in project {
        var key := ProjectKey(name, subproject.id);
        project := project[key := project[key].(value := value)];
        ok := true;
      } else if name in system {
        system := system[name := value];
        ok := true;
      } else {
        ok := false;
      }
    }

    /** `set_from_configure_command(set, augment, unaugment)`: `ok` is false, and
        nothing is applied, when a set or augment entry has no `=`. */
    method SetFromConfigureCommand(sets: seq<string>, augs: seq<string>, unaugs: seq<string>)
      returns (ok: bool)
      modifies this
      ensures ok == AfterConfigureCommand(old(Snapshot()), sets, augs, unaugs).Some?
      ensures ok ==> Snapshot() == AfterConfigureCommand(old(Snapshot()), sets, augs, unaugs).value
      ensures !ok ==> Snapshot() == old(Snapshot())
    {
      var parsedSets := ParseAssignments(sets);
      var parsedAugs := ParseAssignments(augs);
      if parsedSets.None? || parsedAugs.None? {
        return false;
      }
      ApplySetList(ScopedAssignments(parsedSets.value));
      ApplyAugmentList(ScopedAssignments(parsedAugs.value));
      ApplyUnaugmentList(ScopedKeys(unaugs));
      ok := true;
    }

    /** The set list of a configure command, entry by entry. */
    method ApplySetList(entries: seq<Assignment>)
      modifies this
      ensures Snapshot() == ApplySets(old(Snapshot()), entries)
    {
      var i := 0;
      while i < |entries|
        invariant 0 <= i <= |entries|
        invariant Snapshot() == ApplySets(old(Snapshot()), entries[..i])
      {
        var a := entries[i];
        assert entries[..i + 1][..i] == entries[..i];
        if Owns(Snapshot(), a.key) {
          var _ := SetOption(a.key.name, a.key.subproject, a.value);
        } else {
          augments := augments[a.key := a.value];
        }
        i := i + 1;
      }
      assert entries[..|entries|] == entries;
    }

    /** The augment list of a configure command, entry by entry. */
    method ApplyAugmentList(entries: seq<Assignment>)
      modifies this
      ensures Snapshot() == ApplyAugments(old(Snapshot()), entries)
    {
      var i := 0;
      while i < |entries|
        invariant 0 <= i <= |entries|
        invariant Snapshot() == ApplyAugments(old(Snapshot()), entries[..i])
      {
        assert entries[..i + 1][..i] == entries[..i];
        augments := augments[entries[i].key := entries[i].value];
        i := i + 1;
      }
      assert entries[..|entries|] == entries;
    }

    /** The un-augment list of a configure command, key by key. */
    method ApplyUnaugmentList(keys: seq<OptionKey>)
      modifies this
      ensures Snapshot() == ApplyUnaugments(old(Snapshot()), keys)
    {
      var i := 0;
      while i < |keys|
        invariant 0 <= i <= |keys|
        invariant Snapshot() == ApplyUnaugments(old(Snapshot()), keys[..i])
      {
        assert keys[..i + 1][..i] == keys[..i];
        augments := augments - {keys[i]};
        i := i + 1;
      }
      assert keys[..|keys|] == keys;
    }

    /** `set_subproject_options(subproject, native, other)`: `ok` is false, and
        nothing is applied, when a native entry has no `=`. */
    method SetSubprojectOptions(subproject: string, native: seq<string>, other: seq<string>)
      returns (ok: bool)
      modifies this
      ensures ok == AfterSubprojectOptions(old(Snapshot()), subproject, native, other).Some?
      ensures ok ==> Snapshot() == AfterSubprojectOptions(old(Snapshot()), subproject, native, other).value
      ensures !ok ==> Snapshot() == old(Snapshot())
    {
      var parsed := ParseAssignments(native);
      if parsed.None? {
        return false;
      }
      ApplyIfAbsentList(NativeAssignments(subproject, parsed.value));
      ok := true;
    }

    /** The native list of `set_subproject_options`: each entry is written only
        where its slot has no augment yet. */
    method ApplyIfAbsentList(entries: seq<Assignment>)
      modifies this
      ensures Snapshot() == ApplyIfAbsent(old(Snapshot()), entries)
    {
      var i := 0;
      while i < |entries|
        invariant 0 <= i <= |entries|
        invariant Snapshot() == ApplyIfAbsent(old(Snapshot()), entries[..i])
      {
        assert entries[..i + 1][..i] == entries[..i];
        if entries[i].key !in augments {
          augments := augments[entries[i].key := entries[i].value];
        }
        i := i + 1;
      }
      assert entries[..|entries|] == entries;
    }
  }
}
