# Meson option store (`OptionStore`) in Dafny

This project models the build-option store of Meson, `OptionStore` from
`mesonbuild.options`. The store holds build options and answers, for an option
name and a subproject, which value applies. It has three layers:

- **System options**: one per name, added with `add_system_option`.
- **Project options**: one per (name, subproject), added with
  `add_project_option`. The root project is the subproject `''`. Each project
  option carries a *yielding* flag: a yielding subproject option follows the
  root project's value.
- **Augments**: per-slot overrides keyed by the exact (name, subproject) pair.
  They are written and removed by `set_from_configure_command`, and written
  only-if-absent by `set_subproject_options`.

Keys are written `name` (no subproject; Python `None`), `:name` (the root
project) or `sub:name`. `split_keystring` and `parts_to_canonical_keystring`
convert between that text and the parsed parts.

The implementation module `mesonbuild/options.py` is not part of this model.
The model is a reference model of the behaviour that
`unittests/optiontests.py` pins down. Where those tests leave a case open, the
model makes a choice, and "## Left out" lists each such choice.

Files:

- `wrappers.dfy`: the `Option` datatype.
- `key_grammar.dfy` (module `KeyGrammar`): the key grammar, as pure functions with lemmas.
- `store_model.dfy` (module `StoreModel`): the store as a value `State` with its
  three maps. It has the resolver `Resolve` (`get_value_for`), `NumOptions`
  (`num_options`) and one transition function per operation.
- `option_store.dfy` (module `Options`): the `OptionStore` class with the three
  maps as fields. Its methods update the fields in place, the two batch
  operations with loops. Each method is proved to move `Snapshot()` exactly as
  the matching transition of `StoreModel` says.
- `store_properties.dfy` (module `StoreProperties`): lemmas that relate several
  operations, such as precedence, restore-on-unaugment and first-write-wins.
- `option_tests.dfy` (module `OptionTests`): one method per test function. Each
  drives a fresh `OptionStore` through the same calls and returns what each
  assertion reads. Its postcondition states the values the test expects.

Resolution order for `get_value_for(name, sub)`:

1. The augment at exactly `(name, sub)`.
2. Otherwise, if the subproject is a named non-root one whose project option
   yields, the root project's value (its augment, else its own project value,
   else the system value), when the root has one.
3. Otherwise, the own value of the project option declared for exactly `sub`.
4. Otherwise, the system option's value.
5. Otherwise `None`, which stands for an unknown option.

`Absent` and `Named("")` are different slots.

## Model

| member | source | states |
|---|---|---|
| KeyGrammar.SplitKeystring | unittests/optiontests.py:22-38 | A key with no colon is unscoped, with the whole text as the name. Otherwise the subproject is the colon-free text before the first colon and the name is the rest. The third field is always false. Printing the result gives back the input string, for every string. |
| KeyGrammar.PartsToCanonicalKeystring | unittests/optiontests.py:27-38 | The printed key ends with the name. Without a subproject it is the name alone. With one it is the subproject, a colon and the name. |
| KeyGrammar.CanonicalRoundTrip | unittests/optiontests.py:22-38 | Parsing the printed form of some parts gives those parts back exactly when the parts are canonical: the third field is unset, a subproject name has no colon, and an unscoped name has no colon. |
| KeyGrammar.SplitScoped | unittests/optiontests.py:24-26 | `sub:name` with a colon-free `sub` parses to name `name`, subproject `sub`, third field false. |
| StoreModel.Resolve | unittests/optiontests.py:105-124 | The result is None exactly when the slot has no augment, no project option and no system option. An augment at the exact slot wins. A non-yielding project option at the slot gives its own value. Otherwise the system value applies, whatever subproject is asked. |
| StoreModel.NumOptions | unittests/optiontests.py:56 | The count is zero exactly when no system option and no project option is registered. |
| StoreModel.WithSystemOption | unittests/optiontests.py:48-60 | Re-adding a registered name changes nothing. A new name adds one to the option count and resolves to its default at every slot with no augment and no project option. No other name's value changes. |
| StoreModel.WithProjectOption | unittests/optiontests.py:62-90 | Re-adding a registered (name, subproject) changes nothing. A new one adds one to the count. Without an augment at its slot, it resolves to its default when it does not yield or is the root's. A new yielding subproject option resolves to the root's value when the root has one. No other name's value changes. Of its own name, no other slot changes, except that a root declaration is seen by yielding subprojects. System options and augments are unchanged. A new declaration stores exactly its default and its yielding flag under its (name, subproject). |
| StoreModel.SetOption | unittests/optiontests.py:11-20 | None (unknown option) exactly when neither a project option at that slot nor a system option exists. Otherwise no option is added or removed and augments are untouched. The slot then resolves to the new value when it has no augment and does not yield. With a project option at the slot, system options are unchanged and no other slot of that name changes, except the subprojects that yield to a root option. Without one, project options are unchanged, the system option is updated, and every slot without a project option or augment resolves to the new value. No other name's value changes. The stored change is exact: the governing project option gets the new value and keeps its yielding flag, or the system map gets the new value at that name. No option's yielding flag changes. |
| StoreModel.ParseAssignment | unittests/optiontests.py:110 | Fails exactly when the entry has no `=`. Otherwise it returns the `=`-free text before the first `=` and the rest, and they rejoin to the entry. |
| StoreModel.ParseAssignments | unittests/optiontests.py:110 | Fails exactly when some entry has no `=`. Otherwise each entry's pair is at the same position. |
| StoreModel.Augmented | unittests/optiontests.py:110 | The slot's augment is created or overwritten with the value. Registrations and every other augment are unchanged. |
| StoreModel.Unaugmented | unittests/optiontests.py:114 | The slot's augment is removed, if there was one. Registrations and every other augment are unchanged. |
| StoreModel.AugmentedIfAbsent | unittests/optiontests.py:162 | The slot ends with an augment. An existing augment is kept as it was, and an empty slot takes the value. Registrations are unchanged. |
| StoreModel.ApplySet | unittests/optiontests.py:144-147 | A set entry never registers or removes an option, and never changes a yielding flag. At a scope without a registered option of its own, the result is exactly the augment write of the value at that slot. At an owning scope, augments are unchanged and the owned option's value becomes the set value. No other registered value changes and no other name's value changes. The slot resolves to the set value unless an augment or yielding hides it. |
| StoreModel.ApplySets | unittests/optiontests.py:145 | Applying the set list keeps the registered options and every project option's yielding flag. |
| StoreModel.SetListSlots | unittests/optiontests.py:145 | Registrations and yielding flags are kept. After the set list, the augments are the old ones plus the slots of entries at scopes without an option of their own. For each slot, the last entry for it decides: its augment, or its registered option's value where it owns one. Unlisted augments and unlisted registered values are unchanged. |
| StoreModel.ApplyAugments | unittests/optiontests.py:110 | Applying the augment list leaves both registration maps unchanged and leaves an augment at every listed slot. |
| StoreModel.AugmentListSlots | unittests/optiontests.py:110 | After the augment list, the augment slots are the old ones plus the listed ones. Each listed slot holds the value of the last entry for it. Unlisted augments are unchanged, and registrations are unchanged. |
| StoreModel.ApplyUnaugments | unittests/optiontests.py:114 | The augments afterwards are exactly the old augments minus the listed slots. Registrations are unchanged. |
| StoreModel.AfterConfigureCommand | unittests/optiontests.py:110-125 | Refused exactly when a set or augment entry has no `=`. When accepted, the registered options, their yielding flags and `num_options` are unchanged. |
| StoreModel.ConfigureCommandComposition | unittests/optiontests.py:110-147 | The set, augment and un-augment lists applied in that order give, slot by slot: no augment at an un-augmented slot; otherwise the last augment entry's value; otherwise the last set entry's value at a slot without its own option; otherwise the old augment. An owned option takes its last set entry's value and is otherwise unchanged. No other slot gains an augment. No option is registered or removed, and no yielding flag changes. |
| StoreModel.ConfigureCommandSlots | unittests/optiontests.py:110-147 | An accepted configure command has that slot-by-slot effect for its parsed set list, augment list and un-augmented slots. |
| StoreModel.ApplyIfAbsent | unittests/optiontests.py:162-169 | Every listed slot ends with an augment. No augment that was already there is changed. |
| StoreModel.IfAbsentSlots | unittests/optiontests.py:162-169 | After the write-if-absent list, the augment slots are the old ones plus the listed ones. Existing augments are kept, and an empty listed slot takes the value of the first entry for it. Registrations are unchanged. |
| StoreModel.NativeListEffect | unittests/optiontests.py:162-169 | For the native pairs of a subproject: each named option of the subproject holds an augment. An empty slot takes the first pair's value for that name. Existing augments are kept, and no slot outside the subproject's named options gains an augment. |
| StoreModel.AfterSubprojectOptions | unittests/optiontests.py:149-169 | Refused exactly when a native entry has no `=`. When accepted, registrations are unchanged and existing augments are never overwritten. |
| StoreModel.SubprojectCallSlots | unittests/optiontests.py:149-169 | An accepted `set_subproject_options` call has that effect for its parsed native pairs. |
| Options.OptionStore.GetValueFor | unittests/optiontests.py:18 | Unknown (None) exactly when the slot has no augment, no project option and no system option. An augment at the slot wins. With neither an augment nor a project option at the slot, the system value applies. |
| Options.OptionStore.NumOptions | unittests/optiontests.py:56 | Zero exactly when no system option and no project option is registered. |
| Options.OptionStore.constructor | unittests/optiontests.py:12 | A new store is empty. |
| Options.OptionStore.AddSystemOption | unittests/optiontests.py:17 | The new state is the first-write-wins system registration. |
| Options.OptionStore.AddProjectOption | unittests/optiontests.py:68 | The new state is the first-write-wins project registration. |
| Options.OptionStore.SetOption | unittests/optiontests.py:19 | Returns whether the option is known. If so, the new state is the governing option overwritten; if not, the store is unchanged. |
| Options.OptionStore.SetFromConfigureCommand | unittests/optiontests.py:110 | Returns whether all entries are well formed. If so, the store becomes the result of the set, augment and un-augment lists in that order; if not, it is unchanged. |
| Options.OptionStore.ApplySetList | unittests/optiontests.py:145 | The loop over the set list ends in the state the set-list fold gives. |
| Options.OptionStore.ApplyAugmentList | unittests/optiontests.py:110 | The loop over the augment list ends in the state the augment fold gives. |
| Options.OptionStore.ApplyUnaugmentList | unittests/optiontests.py:114 | The loop over the un-augment list ends in the state the removal fold gives. |
| Options.OptionStore.SetSubprojectOptions | unittests/optiontests.py:162 | Returns whether all native entries are well formed. If so, the store becomes the write-if-absent fold of those entries; if not, it is unchanged. |
| Options.OptionStore.ApplyIfAbsentList | unittests/optiontests.py:162 | The loop over the native entries ends in the state the write-if-absent fold gives. |
| StoreProperties.SystemOptionSameForEverySubproject | unittests/optiontests.py:40-46 | A system option with no augment and no project option at two slots resolves to its value at both. |
| StoreProperties.YieldingTracksRoot | unittests/optiontests.py:77-90 | A yielding subproject option without its own augment resolves to whatever the root resolves to, when the root has a value. |
| StoreProperties.NonYieldingKeepsOwnValue | unittests/optiontests.py:62-75 | A non-yielding subproject option and the root option, neither augmented, each resolve to their own value. |
| StoreProperties.AugmentOnlyAtExactKey | unittests/optiontests.py:109-124 | An augment makes its own slot resolve to its value and leaves every other slot as it was. The one exception is a root augment seen through a yielding subproject option. |
| StoreProperties.UnaugmentRestores | unittests/optiontests.py:114-117 | Removing an augment that was just created gives back the exact previous store. |
| StoreProperties.SetUnderAugmentSurfaces | unittests/optiontests.py:19 | `set_option` at an augmented slot that does not yield writes the registered option under the augment. Removing the augment afterwards makes the slot read the value that was set. |
| StoreProperties.SetReplacesAugment | unittests/optiontests.py:144-147 | A set entry at a scope with no registered option of its own replaces the augment an earlier augment entry left there. |
| StoreProperties.ParseJoined | unittests/optiontests.py:110 | `k=v` with an `=`-free `k` parses to `(k, v)`. |
| StoreProperties.ParseOne | unittests/optiontests.py:110 | A one-entry list `[k=v]` parses to `[(k, v)]`. |
| StoreProperties.ConfigureSetOne | unittests/optiontests.py:145 | A configure command with one set entry applies exactly that set entry. |
| StoreProperties.ConfigureAugmentOne | unittests/optiontests.py:110 | A configure command with one augment entry writes exactly that augment. |
| StoreProperties.ConfigureUnaugmentOne | unittests/optiontests.py:114 | A configure command with one un-augment entry removes exactly that slot's augment. |
| StoreProperties.ConfigureAugmentThenUnaugment | unittests/optiontests.py:109-128 | Augmenting an un-augmented slot and then un-augmenting it restores the store exactly. |
| StoreProperties.IfAbsentNoOp | unittests/optiontests.py:166-169 | Write-if-absent over slots that all hold augments changes nothing. |
| StoreProperties.SubprojectOptionsFirstWriteWins | unittests/optiontests.py:149-169 | A second `set_subproject_options` call for the same subproject, naming only options the first call named, leaves the store as the first call left it, whatever values it carries. |
| StoreProperties.SubprojectOptionsIgnoreOther | unittests/optiontests.py:162 | The second list of `set_subproject_options` has no effect on the result. |
| StoreProperties.SubprojectOptionsOne | unittests/optiontests.py:162-164 | One `name=value` entry writes the subproject's augment only if that slot has none. |
| OptionTests.SplitsSubprojectKey | unittests/optiontests.py:24-26 | `sub:optname` splits to (`optname`, `sub`, false). |
| OptionTests.SplitsUnscopedKey | unittests/optiontests.py:29-31 | `optname` splits to (`optname`, None, false). |
| OptionTests.SplitsRootKey | unittests/optiontests.py:35-37 | `:optname` splits to (`optname`, `''`, false). |
| OptionTests.SplitsKey | unittests/optiontests.py:110 | A key `sub:name` whose subproject has no colon and no `=`, and whose name has no `=`, names the slot (`name`, `sub`) and contains no `=`. |
| OptionTests.TestBasic | unittests/optiontests.py:11-20 | The default is read, then the value set at `''` is read. |
| OptionTests.TestParsing | unittests/optiontests.py:22-38 | The three parsed forms and their printed forms are as expected. |
| OptionTests.TestSubprojectForSystem | unittests/optiontests.py:40-46 | A system option reads its default under a subproject name. |
| OptionTests.TestReset | unittests/optiontests.py:48-60 | Re-adding keeps the original value, and the count stays 1. |
| OptionTests.TestProjectNonyielding | unittests/optiontests.py:62-75 | The root reads `top` and the subproject reads `sub`; the counts are 1 then 2. |
| OptionTests.TestProjectYielding | unittests/optiontests.py:77-90 | The yielding subproject reads `top`; the counts are 1 then 2. |
| OptionTests.TestAugments | unittests/optiontests.py:92-128 | All sixteen reads of the augment and un-augment sequence give the expected values. |
| OptionTests.TestAugmentSetSub | unittests/optiontests.py:130-147 | After an augment and then a set at `sub:cpp_std`, the top level reads `c++11` and `sub` reads `c++20`. |
| OptionTests.TestSubprojectCallOptions | unittests/optiontests.py:149-169 | The subproject reads `c++14` after the first call and after the second; the top level reads `c++11` throughout. |

## Left out

- Option kinds (`UserStringOption`, `UserComboOption`), their description handling, value validation and combo choices are not modelled. Values are opaque strings, and a combo option is modelled by its default alone.
- The third field of the parsed key is carried through parsing but has no meaning in the model. Parsing always sets it to false.
- StoreModel.Resolve: yielding redirects only from a named, non-root subproject, and only when the root scope has a value. Otherwise the option's own value is used. A yielding root option is treated as non-yielding. The tests exercise only a yielding subproject over a root option.
- StoreModel.Resolve: an augment resolves even when no option of that name is registered. `get_value_for` reports an unknown option when nothing is registered for the name, while the model returns the augment. No test exercises it.
- Unknown options are modelled as `None` from `Resolve` and as `ok == false` from `SetOption`, not as exceptions.
- StoreModel.ApplySet: a set entry at a scope that owns a registered option overwrites that option's value and leaves an augment already at that slot in place. The tests only exercise a set at a scope without its own registration.
- A key that appears in more than one list of a single configure command is handled by applying the lists in order: set, then augment, then un-augment. No test exercises it.
- An entry without `=` in the set, augment or native list refuses the whole call. Values are split at the first `=`, and there is no escaping of `=`.
- In `set_subproject_options`, the key part of each native entry is used as the option name as it is. The second list is accepted and ignored.
- Persistence of options, command-line parsing and build-file evaluation are not part of this model.
