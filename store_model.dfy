/**
 * The option store as a value: its three layers (system options, project
 * options, augments), the resolver that reads them, and one transition
 * function per store operation. The class in option_store.dfy is proved to
 * follow these transitions.
 */
module StoreModel {
  import opened Wrappers
  import opened KeyGrammar

  /** An option definition as handed to the store. Values are opaque strings;
      the kind-specific checks of string and combo options are not modelled. */
  datatype UserOption = UserOption(name: string, description: string, defaultValue: string, yielding: bool)

  /** A project option is declared for one (name, subproject) pair; `""` is the root project. */
  datatype ProjectKey = ProjectKey(name: string, subproject: string)

  /** A registered project option: its current value and whether it yields to the root project. */
  datatype ProjectOption = ProjectOption(value: string, yielding: bool)

  /** A registered system option has one current value per name; augments are
      keyed by the exact (name, subproject) slot. */
  datatype State = State(
    system: map<string, string>,
    project: map<ProjectKey, ProjectOption>,
    augments: map<OptionKey, string>)

  const Empty: State := State(map[], map[], map[])

  /** `num_options`: registered options of both scopes; augments are not counted. */
  function NumOptions(st: State): (r: nat)
    ensures r == 0 <==> st.system == map[] && st.project == map[]
  {
    |st.system| + |st.project|
  }

  /** Both states declare the same options, and each project option yields in
      one exactly when it yields in the other (their values may differ). */
  predicate SameRegistrations(a: State, b: State)
  {
    && a.system.Keys == b.system.Keys && a.project.Keys == b.project.Keys
    && forall pk :: pk in a.project && pk in b.project ==> a.project[pk].yielding == b.project[pk].yielding
  }

  predicate HasProjectOption(st: State, name: string, sub: Sub)
  {
    sub.Named? && ProjectKey(name, sub.id) in st.project
  }

  /** A project option declared for a named subproject other than the root, which yields. */
  predicate Yields(st: State, name: string, sub: Sub)
  {
    HasProjectOption(st, name, sub) && sub != Root && st.project[ProjectKey(name, sub.id)].yielding
  }

  // ---------------------------------------------------------------------------
  // Resolver

  /** The value held at exactly this scope, without yielding: its augment, else
      the own value of the project option declared for it, else the system option. */
  function ScopeValue(st: State, name: string, sub: Sub): Option<string>
  {
    var key := OptionKey(name, sub);
    if key in st.augments then Some(st.augments[key])
    else if HasProjectOption(st, name, sub) then Some(st.project[ProjectKey(name, sub.id)].value)
    else if name in st.system then Some(st.system[name])
    else None
  }

  /** `get_value_for(name, subproject)`; `None` stands for an unknown option. */
  function Resolve(st: State, name: string, sub: Sub): (r: Option<string>)
    ensures r.None? <==>
              OptionKey(name, sub) !in st.augments && !HasProjectOption(st, name, sub) && name !in st.system
    ensures OptionKey(name, sub) in st.augments ==> r == Some(st.augments[OptionKey(name, sub)])
    ensures (OptionKey(name, sub) !in st.augments && !Yields(st, name, sub) && HasProjectOption(st, name, sub))
              ==> r == Some(st.project[ProjectKey(name, sub.id)].value)
    ensures (OptionKey(name, sub) !in st.augments && !HasProjectOption(st, name, sub) && name in st.system)
              ==> r == Some(st.system[name])
  {
    if OptionKey(name, sub) !in st.augments && Yields(st, name, sub) && ScopeValue(st, name, Root).Some?
    then ScopeValue(st, name, Root)
    else ScopeValue(st, name, sub)
  }

  // ---------------------------------------------------------------------------
  // Registration layer

  /** `add_system_option`: first registration of a name wins. */
  function WithSystemOption(st: State, name: string, opt: UserOption): (r: State)
    ensures name in st.system ==> r == st
    ensures NumOptions(r) == NumOptions(st) + (if name in st.system then 0 else 1)
    ensures name !in st.system ==>
              forall sub :: OptionKey(name, sub) !in st.augments && !HasProjectOption(st, name, sub)
                ==> Resolve(r, name, sub) == Some(opt.defaultValue)
    ensures forall n, sub :: n != name ==> Resolve(r, n, sub) == Resolve(st, n, sub)
    ensures r.project == st.project && r.augments == st.augments
  {
    if name in st.system then st
    else st.(system := st.system[name := opt.defaultValue])
  }

  /** `add_project_option`: first registration of a (name, subproject) pair wins. */
  function WithProjectOption(st: State, name: string, subproject: string, opt: UserOption): (r: State)
    ensures ProjectKey(name, subproject) in st.project ==> r == st
    ensures NumOptions(r) == NumOptions(st) + (if ProjectKey(name, subproject) in st.project then 0 else 1)
    ensures (&& ProjectKey(name, subproject) !in st.project
             && OptionKey(name, Named(subproject)) !in st.augments
             && (!opt.yielding || subproject == ""))
              ==> Resolve(r, name, Named(subproject)) == Some(opt.defaultValue)
    ensures (&& ProjectKey(name, subproject) !in st.project
             && opt.yielding && subproject != ""
             && OptionKey(name, Named(subproject)) !in st.augments
             && Resolve(st, name, Root).Some?)
              ==> Resolve(r, name, Named(subproject)) == Resolve(st, name, Root)
    ensures forall n, sub :: n != name ==> Resolve(r, n, sub) == Resolve(st, n, sub)
    ensures forall sub :: sub != Named(subproject) && (subproject != "" || !Yields(st, name, sub))
              ==> Resolve(r, name, sub) == Resolve(st, name, sub)
    ensures r.system == st.system && r.augments == st.augments
    ensures ProjectKey(name, subproject) !in st.project ==>
              r.project == st.project[ProjectKey(name, subproject) := ProjectOption(opt.defaultValue, opt.yielding)]
  {
    var key := ProjectKey(name, subproject);
    if key in st.project then st
    else
      DeclarationFrame(st, name, subproject, ProjectOption(opt.defaultValue, opt.yielding));
      st.(project := st.project[key := ProjectOption(opt.defaultValue, opt.yielding)])
  }

  /** Putting a project option at `(name, subproject)` changes no resolution of
      another name, and of its own name none except at its own scope and, for
      the root project, at the scopes that yield to it. */
  lemma DeclarationFrame(st: State, name: string, subproject: string, po: ProjectOption)
    ensures var r := st.(project := st.project[ProjectKey(name, subproject) := po]);
              forall n, sub :: n != name ==> Resolve(r, n, sub) == Resolve(st, n, sub)
    ensures var r := st.(project := st.project[ProjectKey(name, subproject) := po]);
              forall sub :: sub != Named(subproject) && (subproject != "" || !Yields(st, name, sub))
                ==> Resolve(r, name, sub) == Resolve(st, name, sub)
  {
  }

  /** `set_option`: overwrite the value of the governing registered option, the
      project option declared for exactly this scope if there is one, else the
      system option; `None` when neither exists (an unknown option). */
  function SetOption(st: State, name: string, sub: Sub, value: string): (r: Option<State>)
    ensures r.None? <==> !HasProjectOption(st, name, sub) && name !in st.system
    ensures r.Some? ==> SameRegistrations(r.value, st) && r.value.augments == st.augments
    ensures (r.Some? && OptionKey(name, sub) !in st.augments && !Yields(st, name, sub))
              ==> Resolve(r.value, name, sub) == Some(value)
    ensures (r.Some? && HasProjectOption(st, name, sub)) ==>
              && r.value.system == st.system
              && forall s :: s != sub && (sub != Root || !Yields(st, name, s))
                   ==> Resolve(r.value, name, s) == Resolve(st, name, s)
    ensures (r.Some? && !HasProjectOption(st, name, sub)) ==>
              && r.value.project == st.project
              && forall s :: OptionKey(name, s) !in st.augments && !HasProjectOption(st, name, s)
                   ==> Resolve(r.value, name, s) == Some(value)
    ensures r.Some? ==> forall n, s :: n != name ==> Resolve(r.value, n, s) == Resolve(st, n, s)
    ensures (r.Some? && HasProjectOption(st, name, sub)) ==>
              r.value.project == st.project[ProjectKey(name, sub.id) := st.project[ProjectKey(name, sub.id)].(value := value)]
    ensures (r.Some? && !HasProjectOption(st, name, sub)) ==> r.value.system == st.system[name := value]
  {
    if HasProjectOption(st, name, sub) then
      var key := ProjectKey(name, sub.id);
      var updated := st.project[key].(value := value);
      assert st.project[key := updated].Keys == st.project.Keys;
      DeclarationFrame(st, name, sub.id, updated);
      Some(st.(project := st.project[key := updated]))
    else if name in st.system then
      assert st.system[name := value].Keys == st.system.Keys;
      Some(st.(system := st.system[name := value]))
    else None
  }

  // ---------------------------------------------------------------------------
  // Augmentation layer

  /** Create or overwrite the augment at one slot. */
  function Augmented(st: State, key: OptionKey, value: string): (r: State)
    ensures r.system == st.system && r.project == st.project
    ensures r.augments.Keys == st.augments.Keys + {key} && r.augments[key] == value
    ensures forall k :: k in st.augments && k != key ==> r.augments[k] == st.augments[k]
  {
    st.(augments := st.augments[key := value])
  }

  /** Remove the augment at one slot, if any. */
  function Unaugmented(st: State, key: OptionKey): (r: State)
    ensures r.system == st.system && r.project == st.project
    ensures r.augments.Keys == st.augments.Keys - {key}
    ensures forall k :: k in r.augments ==> r.augments[k] == st.augments[k]
  {
    st.(augments := st.augments - {key})
  }

  /** Create the augment at one slot only if the slot has none yet. */
  function AugmentedIfAbsent(st: State, key: OptionKey, value: string): (r: State)
    ensures r.system == st.system && r.project == st.project
    ensures r.augments.Keys == st.augments.Keys + {key}
    ensures forall k :: k in st.augments ==> r.augments[k] == st.augments[k]
    ensures key !in st.augments ==> r.augments[key] == value
  {
    if key in st.augments then st else Augmented(st, key, value)
  }

  // ---------------------------------------------------------------------------
  // Batch commands

  /** One `key=value` entry after parsing. */
  datatype Assignment = Assignment(key: OptionKey, value: string)

  /** Split an entry at its first `=`; `None` when it has none. */
  function ParseAssignment(s: string): (r: Option<(string, string)>)
    ensures r.None? <==> '=' !in s
    ensures r.Some? ==> '=' !in r.value.0 && s == r.value.0 + "=" + r.value.1
  {
    match IndexOf(s, '=')
    case None => None
    case Some(i) =>
      assert s == s[..i] + "=" + s[i + 1..];
      Some((s[..i], s[i + 1..]))
  }

  /** Split every entry of a list; `None` when any of them is malformed. */
  function ParseAssignments(entries: seq<string>): (r: Option<seq<(string, string)>>)
    ensures r.None? <==> exists i :: 0 <= i < |entries| && '=' !in entries[i]
    ensures r.Some? ==> |r.value| == |entries|
    ensures r.Some? ==> forall i :: 0 <= i < |entries| ==> ParseAssignment(entries[i]) == Some(r.value[i])
    decreases |entries|
  {
    if entries == [] then Some([])
    else
      match (ParseAssignment(entries[0]), ParseAssignments(entries[1..]))
      case (Some(p), Some(ps)) =>
        assert forall i :: 1 <= i < |entries| ==> entries[i] == entries[1..][i - 1];
        Some([p] + ps)
      case _ =>
        assert forall i :: 1 <= i < |entries| ==> entries[i] == entries[1..][i - 1];
        None
  }

  /** The option names a list of `name=value` pairs mentions. */
  function EntryNames(pairs: seq<(string, string)>): set<string>
  {
    set i | 0 <= i < |pairs| :: pairs[i].0
  }

  /** Entries of the configure command: the key part is a full key string. */
  function ScopedAssignments(pairs: seq<(string, string)>): (r: seq<Assignment>)
    ensures |r| == |pairs|
  {
    seq(|pairs|, i requires 0 <= i < |pairs| => Assignment(KeyOf(SplitKeystring(pairs[i].0)), pairs[i].1))
  }

  /** Entries of a subproject call: the key part is an option name of that subproject. */
  function NativeAssignments(subproject: string, pairs: seq<(string, string)>): (r: seq<Assignment>)
    ensures |r| == |pairs|
  {
    seq(|pairs|, i requires 0 <= i < |pairs| => Assignment(OptionKey(pairs[i].0, Named(subproject)), pairs[i].1))
  }

  /** The slots named by the un-augment list. */
  function ScopedKeys(entries: seq<string>): (r: seq<OptionKey>)
    ensures |r| == |entries|
  {
    seq(|entries|, i requires 0 <= i < |entries| => KeyOf(SplitKeystring(entries[i])))
  }

  /** The slots a list of entries writes. */
  function AssignedKeys(entries: seq<Assignment>): set<OptionKey>
  {
    set i | 0 <= i < |entries| :: entries[i].key
  }

  /** The slots a list of keys names. */
  function KeySet(keys: seq<OptionKey>): set<OptionKey>
  {
    set i | 0 <= i < |keys| :: keys[i]
  }

  /** Entry `i` is the last entry of the list for its slot. */
  predicate LastFor(entries: seq<Assignment>, i: int)
  {
    0 <= i < |entries| && forall j :: i < j < |entries| ==> entries[j].key != entries[i].key
  }

  /** Entry `i` is the first entry of the list for its slot. */
  predicate FirstFor(entries: seq<Assignment>, i: int)
  {
    0 <= i < |entries| && forall j :: 0 <= j < i ==> entries[j].key != entries[i].key
  }

  lemma AssignedKeysSnoc(entries: seq<Assignment>)
    requires entries != []
    ensures AssignedKeys(entries) == AssignedKeys(entries[..|entries| - 1]) + {entries[|entries| - 1].key}
  {
    var init := entries[..|entries| - 1];
    forall k | k in AssignedKeys(entries)
      ensures k in AssignedKeys(init) + {entries[|entries| - 1].key}
    {
      var i :| 0 <= i < |entries| && entries[i].key == k;
      if i < |entries| - 1 {
        assert init[i] == entries[i];
      }
    }
    forall k | k in AssignedKeys(init)
      ensures k in AssignedKeys(entries)
    {
      var i :| 0 <= i < |init| && init[i].key == k;
      assert entries[i] == init[i];
    }
  }

  lemma KeySetSnoc(keys: seq<OptionKey>)
    requires keys != []
    ensures KeySet(keys) == KeySet(keys[..|keys| - 1]) + {keys[|keys| - 1]}
  {
    var init := keys[..|keys| - 1];
    forall k | k in KeySet(keys)
      ensures k in KeySet(init) + {keys[|keys| - 1]}
    {
      var i :| 0 <= i < |keys| && keys[i] == k;
      if i < |keys| - 1 {
        assert init[i] == keys[i];
      }
    }
    forall k | k in KeySet(init)
      ensures k in KeySet(keys)
    {
      var i :| 0 <= i < |init| && init[i] == k;
      assert keys[i] == init[i];
    }
  }

  /** A scope owns a registered option when it is unscoped and a system option
      has the name, or when a project option is declared for exactly that scope. */
  predicate Owns(st: State, key: OptionKey)
  {
    match key.subproject
    case Absent => key.name in st.system
    case Named(id) => ProjectKey(key.name, id) in st.project
  }

  /** The value of the registered option a scope owns; `None` when it owns none. */
  function OwnValue(st: State, key: OptionKey): (r: Option<string>)
    ensures r.Some? <==> Owns(st, key)
  {
    match key.subproject
    case Absent => if key.name in st.system then Some(st.system[key.name]) else None
    case Named(id) =>
      if ProjectKey(key.name, id) in st.project then Some(st.project[ProjectKey(key.name, id)].value) else None
  }

  /** The slots of a set list that own no registered option: those entries become augments. */
  function UnownedKeys(st: State, entries: seq<Assignment>): set<OptionKey>
  {
    set i | 0 <= i < |entries| && !Owns(st, entries[i].key) :: entries[i].key
  }

  lemma UnownedKeysSnoc(st: State, entries: seq<Assignment>)
    requires entries != []
    ensures UnownedKeys(st, entries)
            == UnownedKeys(st, entries[..|entries| - 1])
               + (if Owns(st, entries[|entries| - 1].key) then {} else {entries[|entries| - 1].key})
  {
    var init := entries[..|entries| - 1];
    forall k | k in UnownedKeys(st, entries)
      ensures k in UnownedKeys(st, init) + (if Owns(st, entries[|entries| - 1].key) then {} else {entries[|entries| - 1].key})
    {
      var i :| 0 <= i < |entries| && !Owns(st, entries[i].key) && entries[i].key == k;
      if i < |entries| - 1 {
        assert init[i] == entries[i];
      }
    }
    forall k | k in UnownedKeys(st, init)
      ensures k in UnownedKeys(st, entries)
    {
      var i :| 0 <= i < |init| && !Owns(st, init[i].key) && init[i].key == k;
      assert entries[i] == init[i];
    }
  }

  /** One entry of the set list: a direct set where the scope owns a registered
      option, otherwise an augment write at that scope. */
  function ApplySet(st: State, a: Assignment): (r: State)
    ensures SameRegistrations(r, st)
    ensures !Owns(st, a.key) ==> r == Augmented(st, a.key, a.value)
    ensures Owns(st, a.key) ==> r.augments == st.augments && OwnValue(r, a.key) == Some(a.value)
    ensures forall k :: k != a.key ==> OwnValue(r, k) == OwnValue(st, k)
    ensures (!Owns(st, a.key) || (a.key !in st.augments && !Yields(st, a.key.name, a.key.subproject)))
              ==> Resolve(r, a.key.name, a.key.subproject) == Some(a.value)
    ensures forall n, s :: n != a.key.name ==> Resolve(r, n, s) == Resolve(st, n, s)
  {
    if Owns(st, a.key) then SetOption(st, a.key.name, a.key.subproject, a.value).value
    else Augmented(st, a.key, a.value)
  }

  /** What a set list leaves behind, slot by slot: registrations are kept; the
      last entry for a slot decides it, the registered option's value where the
      slot owns one and the slot's augment otherwise; nothing else changes. */
  ghost predicate SetListEffect(st: State, entries: seq<Assignment>, r: State)
  {
    && SameRegistrations(r, st)
    && r.augments.Keys == st.augments.Keys + UnownedKeys(st, entries)
    && (forall k :: k in st.augments && k !in UnownedKeys(st, entries) ==> r.augments[k] == st.augments[k])
    && (forall i :: LastFor(entries, i) && !Owns(st, entries[i].key)
          ==> r.augments[entries[i].key] == entries[i].value)
    && (forall i :: LastFor(entries, i) && Owns(st, entries[i].key)
          ==> OwnValue(r, entries[i].key) == Some(entries[i].value))
    && (forall k :: k !in AssignedKeys(entries) ==> OwnValue(r, k) == OwnValue(st, k))
  }

  lemma SetListStepKeys(st: State, entries: seq<Assignment>, prev: State)
    requires entries != [] && SetListEffect(st, entries[..|entries| - 1], prev)
    ensures SameRegistrations(ApplySet(prev, entries[|entries| - 1]), st)
    ensures ApplySet(prev, entries[|entries| - 1]).augments.Keys == st.augments.Keys + UnownedKeys(st, entries)
  {
    var last := entries[|entries| - 1];
    UnownedKeysSnoc(st, entries);
    assert Owns(prev, last.key) == Owns(st, last.key);
  }

  lemma SetListStepFrame(st: State, entries: seq<Assignment>, prev: State)
    requires entries != [] && SetListEffect(st, entries[..|entries| - 1], prev)
    ensures var r := ApplySet(prev, entries[|entries| - 1]);
            && (forall k :: k in st.augments && k !in UnownedKeys(st, entries) ==> r.augments[k] == st.augments[k])
            && (forall k :: k !in AssignedKeys(entries) ==> OwnValue(r, k) == OwnValue(st, k))
  {
    var init := entries[..|entries| - 1];
    var last := entries[|entries| - 1];
    var r := ApplySet(prev, last);
    SetListStepKeys(st, entries, prev);
    UnownedKeysSnoc(st, entries);
    AssignedKeysSnoc(entries);
    assert Owns(prev, last.key) == Owns(st, last.key);
    forall k | k in st.augments && k !in UnownedKeys(st, entries)
      ensures r.augments[k] == st.augments[k]
    {
      assert k !in UnownedKeys(st, init);
    }
  }

  lemma SetListStepValues(st: State, entries: seq<Assignment>, prev: State)
    requires entries != [] && SetListEffect(st, entries[..|entries| - 1], prev)
    ensures var r := ApplySet(prev, entries[|entries| - 1]);
            && (forall i :: LastFor(entries, i) && !Owns(st, entries[i].key)
                  ==> entries[i].key in r.augments && r.augments[entries[i].key] == entries[i].value)
            && (forall i :: LastFor(entries, i) && Owns(st, entries[i].key)
                  ==> OwnValue(r, entries[i].key) == Some(entries[i].value))
  {
    var init := entries[..|entries| - 1];
    var last := entries[|entries| - 1];
    var r := ApplySet(prev, last);
    assert Owns(prev, last.key) == Owns(st, last.key);
    forall i | LastFor(entries, i) && !Owns(st, entries[i].key)
      ensures entries[i].key in r.augments && r.augments[entries[i].key] == entries[i].value
    {
      if i < |entries| - 1 {
        assert LastFor(init, i) && entries[i] == init[i];
        assert entries[i].key in UnownedKeys(st, init);
      }
    }
    forall i | LastFor(entries, i) && Owns(st, entries[i].key)
      ensures OwnValue(r, entries[i].key) == Some(entries[i].value)
    {
      if i < |entries| - 1 {
        assert LastFor(init, i) && entries[i] == init[i];
      }
    }
  }

  /** The set list, entry by entry. */
  function ApplySets(st: State, entries: seq<Assignment>): (r: State)
    ensures SameRegistrations(r, st)
    decreases |entries|
  {
    if entries == [] then st
    else ApplySet(ApplySets(st, entries[..|entries| - 1]), entries[|entries| - 1])
  }

  /** The set list has the effect `SetListEffect` describes. */
  lemma {:induction false} SetListSlots(st: State, entries: seq<Assignment>)
    ensures SetListEffect(st, entries, ApplySets(st, entries))
    decreases |entries|
  {
    if entries == [] {
      assert UnownedKeys(st, entries) == {};
    } else {
      var prev := ApplySets(st, entries[..|entries| - 1]);
      SetListSlots(st, entries[..|entries| - 1]);
      SetListStepKeys(st, entries, prev);
      SetListStepFrame(st, entries, prev);
      SetListStepValues(st, entries, prev);
    }
  }

  /** What an augment list leaves behind: registrations untouched, the last
      entry for a slot decides its augment, and no other augment changes. */
  ghost predicate AugmentListEffect(st: State, entries: seq<Assignment>, r: State)
  {
    && r.system == st.system && r.project == st.project
    && r.augments.Keys == st.augments.Keys + AssignedKeys(entries)
    && (forall k :: k in st.augments && k !in AssignedKeys(entries) ==> r.augments[k] == st.augments[k])
    && (forall i :: LastFor(entries, i)
          ==> entries[i].key in r.augments && r.augments[entries[i].key] == entries[i].value)
  }

  lemma AugmentListStep(st: State, entries: seq<Assignment>, prev: State)
    requires entries != [] && AugmentListEffect(st, entries[..|entries| - 1], prev)
    ensures AugmentListEffect(st, entries, Augmented(prev, entries[|entries| - 1].key, entries[|entries| - 1].value))
  {
    var init := entries[..|entries| - 1];
    var last := entries[|entries| - 1];
    var r := Augmented(prev, last.key, last.value);
    AssignedKeysSnoc(entries);
    forall i | LastFor(entries, i)
      ensures entries[i].key in r.augments && r.augments[entries[i].key] == entries[i].value
    {
      if i < |entries| - 1 {
        assert LastFor(init, i) && entries[i] == init[i];
      }
    }
  }

  /** The augment list, entry by entry. */
  function ApplyAugments(st: State, entries: seq<Assignment>): (r: State)
    ensures r.system == st.system && r.project == st.project
    ensures forall i :: 0 <= i < |entries| ==> entries[i].key in r.augments
    decreases |entries|
  {
    if entries == [] then st
    else
      var last := entries[|entries| - 1];
      Augmented(ApplyAugments(st, entries[..|entries| - 1]), last.key, last.value)
  }

  /** The augment list has the effect `AugmentListEffect` describes. */
  lemma {:induction false} AugmentListSlots(st: State, entries: seq<Assignment>)
    ensures AugmentListEffect(st, entries, ApplyAugments(st, entries))
    decreases |entries|
  {
    if entries == [] {
      assert AssignedKeys(entries) == {};
    } else {
      AugmentListSlots(st, entries[..|entries| - 1]);
      AugmentListStep(st, entries, ApplyAugments(st, entries[..|entries| - 1]));
    }
  }

  /** The un-augment list: exactly the listed augments are removed. */
  function ApplyUnaugments(st: State, keys: seq<OptionKey>): (r: State)
    ensures r.system == st.system && r.project == st.project
    ensures r.augments == st.augments - KeySet(keys)
    decreases |keys|
  {
    if keys == [] then
      assert st.augments - KeySet(keys) == st.augments;
      st
    else
      KeySetSnoc(keys);
      Unaugmented(ApplyUnaugments(st, keys[..|keys| - 1]), keys[|keys| - 1])
  }

  /** What a configure command with the given parsed lists leaves behind, slot
      by slot: an un-augmented slot has no augment; otherwise the last augment
      entry for it decides; otherwise the last set entry for it (an augment
      where the slot owns no registered option); otherwise it keeps its
      augment. Registered options keep their value unless a set entry names
      the slot that owns them, and then the last such entry decides. */
  ghost predicate ConfigureCommandEffect(st: State, setList: seq<Assignment>, augList: seq<Assignment>,
                                         removed: set<OptionKey>, r: State)
  {
    && SameRegistrations(r, st)
    && (forall k :: k in removed ==> k !in r.augments)
    && (forall i :: LastFor(augList, i) && augList[i].key !in removed
          ==> augList[i].key in r.augments && r.augments[augList[i].key] == augList[i].value)
    && (forall i :: (&& LastFor(setList, i) && !Owns(st, setList[i].key)
                     && setList[i].key !in AssignedKeys(augList) && setList[i].key !in removed)
          ==> setList[i].key in r.augments && r.augments[setList[i].key] == setList[i].value)
    && (forall i :: LastFor(setList, i) && Owns(st, setList[i].key)
          ==> OwnValue(r, setList[i].key) == Some(setList[i].value))
    && (forall k :: k !in AssignedKeys(setList) ==> OwnValue(r, k) == OwnValue(st, k))
    && (forall k :: (&& k in st.augments && k !in UnownedKeys(st, setList)
                     && k !in AssignedKeys(augList) && k !in removed)
          ==> k in r.augments && r.augments[k] == st.augments[k])
    && (forall k :: k in r.augments
          ==> k in st.augments || k in UnownedKeys(st, setList) || k in AssignedKeys(augList))
  }

  lemma ConfigureCommandOwned(st: State, setList: seq<Assignment>, augList: seq<Assignment>, keys: seq<OptionKey>)
    ensures var r := ApplyUnaugments(ApplyAugments(ApplySets(st, setList), augList), keys);
            && SameRegistrations(r, st)
            && (forall i :: LastFor(setList, i) && Owns(st, setList[i].key)
                  ==> OwnValue(r, setList[i].key) == Some(setList[i].value))
            && (forall k :: k !in AssignedKeys(setList) ==> OwnValue(r, k) == OwnValue(st, k))
  {
    var afterSets := ApplySets(st, setList);
    var r := ApplyUnaugments(ApplyAugments(afterSets, augList), keys);
    SetListSlots(st, setList);
    assert forall k :: OwnValue(r, k) == OwnValue(afterSets, k);
  }

  /** The augment side of a configure command, from the effects of its three lists. */
  lemma ConfigureAugmentsFrom(st: State, setList: seq<Assignment>, augList: seq<Assignment>, removed: set<OptionKey>,
                              afterSets: State, afterAugs: State, r: State)
    requires SetListEffect(st, setList, afterSets)
    requires AugmentListEffect(afterSets, augList, afterAugs)
    requires r.augments == afterAugs.augments - removed
    ensures forall k :: k in removed ==> k !in r.augments
    ensures forall i :: LastFor(augList, i) && augList[i].key !in removed
              ==> augList[i].key in r.augments && r.augments[augList[i].key] == augList[i].value
    ensures forall i :: (&& LastFor(setList, i) && !Owns(st, setList[i].key)
                         && setList[i].key !in AssignedKeys(augList) && setList[i].key !in removed)
              ==> setList[i].key in r.augments && r.augments[setList[i].key] == setList[i].value
    ensures forall k :: (&& k in st.augments && k !in UnownedKeys(st, setList)
                         && k !in AssignedKeys(augList) && k !in removed)
              ==> k in r.augments && r.augments[k] == st.augments[k]
    ensures forall k :: k in r.augments
              ==> k in st.augments || k in UnownedKeys(st, setList) || k in AssignedKeys(augList)
  {
  }

  lemma ConfigureCommandAugments(st: State, setList: seq<Assignment>, augList: seq<Assignment>, keys: seq<OptionKey>)
    ensures var r := ApplyUnaugments(ApplyAugments(ApplySets(st, setList), augList), keys);
            var removed := KeySet(keys);
            && (forall k :: k in removed ==> k !in r.augments)
            && (forall i :: LastFor(augList, i) && augList[i].key !in removed
                  ==> augList[i].key in r.augments && r.augments[augList[i].key] == augList[i].value)
            && (forall i :: (&& LastFor(setList, i) && !Owns(st, setList[i].key)
                             && setList[i].key !in AssignedKeys(augList) && setList[i].key !in removed)
                  ==> setList[i].key in r.augments && r.augments[setList[i].key] == setList[i].value)
            && (forall k :: (&& k in st.augments && k !in UnownedKeys(st, setList)
                             && k !in AssignedKeys(augList) && k !in removed)
                  ==> k in r.augments && r.augments[k] == st.augments[k])
            && (forall k :: k in r.augments
                  ==> k in st.augments || k in UnownedKeys(st, setList) || k in AssignedKeys(augList))
  {
    var afterSets := ApplySets(st, setList);
    var afterAugs := ApplyAugments(afterSets, augList);
    SetListSlots(st, setList);
    AugmentListSlots(afterSets, augList);
    ConfigureAugmentsFrom(st, setList, augList, KeySet(keys), afterSets, afterAugs, ApplyUnaugments(afterAugs, keys));
  }

  lemma ConfigureCommandComposition(st: State, setList: seq<Assignment>, augList: seq<Assignment>, keys: seq<OptionKey>)
    ensures ConfigureCommandEffect(st, setList, augList, KeySet(keys),
                                   ApplyUnaugments(ApplyAugments(ApplySets(st, setList), augList), keys))
  {
    ConfigureCommandOwned(st, setList, augList, keys);
    ConfigureCommandAugments(st, setList, augList, keys);
  }

  /** `set_from_configure_command(set, augment, unaugment)`: the three lists
      applied in that order; `None` (nothing applied) when a set or augment
      entry has no `=`. It never registers nor removes an option. */
  function AfterConfigureCommand(st: State, sets: seq<string>, augs: seq<string>, unaugs: seq<string>)
    : (r: Option<State>)
    ensures r.None? <==> (exists i :: 0 <= i < |sets| && '=' !in sets[i])
                         || (exists i :: 0 <= i < |augs| && '=' !in augs[i])
    ensures r.Some? ==> SameRegistrations(r.value, st) && NumOptions(r.value) == NumOptions(st)
  {
    match (ParseAssignments(sets), ParseAssignments(augs))
    case (Some(s), Some(a)) =>
      var afterSets := ApplySets(st, ScopedAssignments(s));
      var afterAugs := ApplyAugments(afterSets, ScopedAssignments(a));
      Some(ApplyUnaugments(afterAugs, ScopedKeys(unaugs)))
    case _ => None
  }

  /** An accepted configure command has the effect `ConfigureCommandEffect`
      describes, for the parsed set and augment lists and the un-augmented slots. */
  lemma ConfigureCommandSlots(st: State, sets: seq<string>, augs: seq<string>, unaugs: seq<string>)
    ensures AfterConfigureCommand(st, sets, augs, unaugs).Some? ==>
              ConfigureCommandEffect(st, ScopedAssignments(ParseAssignments(sets).value),
                                     ScopedAssignments(ParseAssignments(augs).value),
                                     KeySet(ScopedKeys(unaugs)), AfterConfigureCommand(st, sets, augs, unaugs).value)
  {
    if AfterConfigureCommand(st, sets, augs, unaugs).Some? {
      ConfigureCommandComposition(st, ScopedAssignments(ParseAssignments(sets).value),
                                  ScopedAssignments(ParseAssignments(augs).value), ScopedKeys(unaugs));
    }
  }

  /** What a write-if-absent list leaves behind: registrations and existing
      augments untouched, every listed slot holds an augment, an empty slot
      takes the first entry's value for it, and no other slot gains one. */
  ghost predicate IfAbsentEffect(st: State, entries: seq<Assignment>, r: State)
  {
    && r.system == st.system && r.project == st.project
    && r.augments.Keys == st.augments.Keys + AssignedKeys(entries)
    && (forall k :: k in st.augments ==> r.augments[k] == st.augments[k])
    && (forall i :: FirstFor(entries, i) && entries[i].key !in st.augments
          ==> entries[i].key in r.augments && r.augments[entries[i].key] == entries[i].value)
  }

  lemma IfAbsentStep(st: State, entries: seq<Assignment>, prev: State)
    requires entries != [] && IfAbsentEffect(st, entries[..|entries| - 1], prev)
    ensures IfAbsentEffect(st, entries, AugmentedIfAbsent(prev, entries[|entries| - 1].key, entries[|entries| - 1].value))
  {
    var init := entries[..|entries| - 1];
    var last := entries[|entries| - 1];
    var r := AugmentedIfAbsent(prev, last.key, last.value);
    AssignedKeysSnoc(entries);
    forall i | FirstFor(entries, i) && entries[i].key !in st.augments
      ensures entries[i].key in r.augments && r.augments[entries[i].key] == entries[i].value
    {
      if i < |entries| - 1 {
        assert FirstFor(init, i) && entries[i] == init[i];
      } else {
        assert forall j :: 0 <= j < |init| ==> init[j] == entries[j];
        assert last.key !in AssignedKeys(init);
      }
    }
  }

  /** The native list of a subproject call, entry by entry. */
  function ApplyIfAbsent(st: State, entries: seq<Assignment>): (r: State)
    ensures r.system == st.system && r.project == st.project
    ensures forall k :: k in st.augments ==> k in r.augments && r.augments[k] == st.augments[k]
    ensures forall i :: 0 <= i < |entries| ==> entries[i].key in r.augments
    decreases |entries|
  {
    if entries == [] then st
    else
      var last := entries[|entries| - 1];
      AugmentedIfAbsent(ApplyIfAbsent(st, entries[..|entries| - 1]), last.key, last.value)
  }

  /** The write-if-absent list has the effect `IfAbsentEffect` describes. */
  lemma {:induction false} IfAbsentSlots(st: State, entries: seq<Assignment>)
    ensures IfAbsentEffect(st, entries, ApplyIfAbsent(st, entries))
    decreases |entries|
  {
    if entries == [] {
      assert AssignedKeys(entries) == {};
    } else {
      IfAbsentSlots(st, entries[..|entries| - 1]);
      IfAbsentStep(st, entries, ApplyIfAbsent(st, entries[..|entries| - 1]));
    }
  }

  /** What a subproject call with the parsed native pairs leaves behind: every
      named option of the subproject holds an augment, an empty slot takes the
      first pair's value for it, existing augments stay as they were, and no
      other slot gains one. */
  ghost predicate SubprojectCallEffect(st: State, subproject: string, pairs: seq<(string, string)>, r: State)
  {
    && r.system == st.system && r.project == st.project
    && (forall k :: k in st.augments ==> k in r.augments && r.augments[k] == st.augments[k])
    && (forall i :: 0 <= i < |pairs| ==> OptionKey(pairs[i].0, Named(subproject)) in r.augments)
    && (forall i :: (&& 0 <= i < |pairs|
                     && (forall j :: 0 <= j < i ==> pairs[j].0 != pairs[i].0)
                     && OptionKey(pairs[i].0, Named(subproject)) !in st.augments)
          ==> r.augments[OptionKey(pairs[i].0, Named(subproject))] == pairs[i].1)
    && (forall k :: k in r.augments
          ==> k in st.augments || (k.subproject == Named(subproject) && k.name in EntryNames(pairs)))
  }

  lemma NativeListEffect(st: State, subproject: string, pairs: seq<(string, string)>)
    ensures SubprojectCallEffect(st, subproject, pairs, ApplyIfAbsent(st, NativeAssignments(subproject, pairs)))
  {
    var entries := NativeAssignments(subproject, pairs);
    var r := ApplyIfAbsent(st, entries);
    IfAbsentSlots(st, entries);
    assert forall i :: 0 <= i < |pairs| ==> entries[i] == Assignment(OptionKey(pairs[i].0, Named(subproject)), pairs[i].1);
    forall i | 0 <= i < |pairs|
      ensures OptionKey(pairs[i].0, Named(subproject)) in r.augments
    {
      assert entries[i].key in AssignedKeys(entries);
    }
    forall i | (&& 0 <= i < |pairs|
                && (forall j :: 0 <= j < i ==> pairs[j].0 != pairs[i].0)
                && OptionKey(pairs[i].0, Named(subproject)) !in st.augments)
      ensures r.augments[OptionKey(pairs[i].0, Named(subproject))] == pairs[i].1
    {
      assert FirstFor(entries, i);
    }
    forall k | k in r.augments && k !in st.augments
      ensures k.subproject == Named(subproject) && k.name in EntryNames(pairs)
    {
      var i :| 0 <= i < |entries| && entries[i].key == k;
      assert k.name == pairs[i].0;
    }
  }

  /** `set_subproject_options(subproject, native, other)`: each `name=value` of
      the native list becomes the augment of that subproject's option unless one
      is already there; the second list is not applied. `None` (nothing
      applied) when a native entry has no `=`. */
  function AfterSubprojectOptions(st: State, subproject: string, native: seq<string>, other: seq<string>)
    : (r: Option<State>)
    ensures r.None? <==> exists i :: 0 <= i < |native| && '=' !in native[i]
    ensures r.Some? ==> r.value.system == st.system && r.value.project == st.project
    ensures r.Some? ==> forall k :: k in st.augments ==> k in r.value.augments && r.value.augments[k] == st.augments[k]
  {
    match ParseAssignments(native)
    case Some(ps) => Some(ApplyIfAbsent(st, NativeAssignments(subproject, ps)))
    case None => None
  }

  /** An accepted subproject call has the effect `SubprojectCallEffect`
      describes for the parsed native pairs. */
  lemma SubprojectCallSlots(st: State, subproject: string, native: seq<string>, other: seq<string>)
    ensures AfterSubprojectOptions(st, subproject, native, other).Some? ==>
              SubprojectCallEffect(st, subproject, ParseAssignments(native).value,
                                   AfterSubprojectOptions(st, subproject, native, other).value)
  {
    if AfterSubprojectOptions(st, subproject, native, other).Some? {
      NativeListEffect(st, subproject, ParseAssignments(native).value);
    }
  }
}
