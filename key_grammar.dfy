/**
 * The compact key-string form of an option, `[subproject:]name`, and the
 * structured parts it parses into.
 */
module KeyGrammar {
  import opened Wrappers

  /** Which project a key addresses: `Absent` is the unscoped identity (Python
      `None`), `Named("")` the root project, `Named(id)` the subproject `id`. */
  datatype Sub = Absent | Named(id: string)

  /** The root (top-level) project. */
  const Root: Sub := Named("")

  /** The parsed form of a key string. The third field is carried along but has
      no effect anywhere in this model. */
  datatype OptionParts = OptionParts(name: string, subproject: Sub, flag: bool)

  /** An option slot: an option name within one scope. */
  datatype OptionKey = OptionKey(name: string, subproject: Sub)

  function KeyOf(p: OptionParts): OptionKey
  {
    OptionKey(p.name, p.subproject)
  }

  /** Position of the first occurrence of `c` in `s`, if there is one. */
  function IndexOf(s: string, c: char): (r: Option<nat>)
    ensures r.None? <==> c !in s
    ensures r.Some? ==> r.value < |s| && s[r.value] == c && c !in s[..r.value]
  {
    if |s| == 0 then None
    else if s[0] == c then Some(0)
    else
      match IndexOf(s[1..], c)
      case None => None
      case Some(i) =>
        assert s[..i + 1] == [s[0]] + s[1..][..i];
        Some(i + 1)
  }

  /** The first `c` of `prefix + [c] + rest` is the one right after `prefix`
      when `prefix` holds no `c`. */
  lemma IndexOfAfterPrefix(prefix: string, c: char, rest: string)
    requires c !in prefix
    ensures IndexOf(prefix + [c] + rest, c) == Some(|prefix|)
  {
    var s := prefix + [c] + rest;
    assert s[|prefix|] == c;
    assert s[..|prefix|] == prefix;
  }

  /** `split_keystring`: everything before the first colon is the subproject, the
      rest the name; without a colon the key is unscoped. */
  function SplitKeystring(s: string): (p: OptionParts)
    ensures !p.flag
    ensures ':' !in s ==> p == OptionParts(s, Absent, false)
    ensures ':' in s ==> p.subproject.Named? && ':' !in p.subproject.id
                         && s == p.subproject.id + ":" + p.name
    ensures PartsToCanonicalKeystring(p) == s
  {
    match IndexOf(s, ':')
    case None => OptionParts(s, Absent, false)
    case Some(i) =>
      assert s == s[..i] + ":" + s[i + 1..];
      OptionParts(s[i + 1..], Named(s[..i]), false)
  }

  /** `parts_to_canonical_keystring`: `name`, `:name` or `sub:name`. */
  function PartsToCanonicalKeystring(p: OptionParts): (r: string)
    ensures |p.name| <= |r| && r[|r| - |p.name|..] == p.name
    ensures p.subproject.Absent? ==> r == p.name
    ensures p.subproject.Named? ==>
              |r| == |p.subproject.id| + 1 + |p.name| && r[..|p.subproject.id|] == p.subproject.id
              && r[|p.subproject.id|] == ':'
  {
    match p.subproject
    case Absent => p.name
    case Named(id) => id + ":" + p.name
  }

  /** The parts that the canonical form writes out unambiguously: no colon in a
      subproject name, none in an unscoped name, and the third field unset. */
  predicate IsCanonical(p: OptionParts)
  {
    && !p.flag
    && match p.subproject
       case Absent => ':' !in p.name
       case Named(id) => ':' !in id
  }

  /** Printing then parsing gives back exactly the canonical parts, and no others. */
  lemma CanonicalRoundTrip(p: OptionParts)
    ensures SplitKeystring(PartsToCanonicalKeystring(p)) == p <==> IsCanonical(p)
  {
    match p.subproject
    case Absent =>
    case Named(id) =>
      if ':' !in id {
        IndexOfAfterPrefix(id, ':', p.name);
        assert id + ":" + p.name == id + [':'] + p.name;
      }
  }

  /** A scoped key string splits at the colon after its subproject name. */
  lemma SplitScoped(id: string, name: string)
    requires ':' !in id
    ensures SplitKeystring(id + ":" + name) == OptionParts(name, Named(id), false)
  {
    CanonicalRoundTrip(OptionParts(name, Named(id), false));
  }
}
