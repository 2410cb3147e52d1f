/** Entries of a recorder's buffer: the tuples `['group', label]`,
    `['groupEnd']` and `[method, ...params]`. */
module Entries {
  import opened Values
  import opened Console

  datatype Entry =
    | Group(groupLabel: string)
    | GroupEnd
    | Call(kind: Method, params: seq<Value>)

  /** The parameter shape each recording method gives its entry: the five
      message methods always record the message slot (undefined when
      omitted), `assert` always records condition and message, `table` and
      `dir` always record both of their slots, and `time`/`timeEnd` always
      record their one label slot. */
  predicate WellShaped(e: Entry)
  {
    match e
    case Call(m, p) =>
      (match m
       case Log | Warn | Error | Debug | Info => |p| >= 1
       case Assert => |p| >= 2
       case Table | Dir => |p| == 2
       case Time | TimeEnd => |p| == 1
       case Trace => true)
    case _ => true
  }

  /** Number of `['group', label]` entries. */
  function Groups(s: seq<Entry>): (n: nat)
    ensures n <= |s|
  {
    if s == [] then 0 else Groups(s[..|s| - 1]) + (if s[|s| - 1].Group? then 1 else 0)
  }

  /** Number of `['groupEnd']` entries. */
  function Ends(s: seq<Entry>): (n: nat)
    ensures n <= |s|
  {
    if s == [] then 0 else Ends(s[..|s| - 1]) + (if s[|s| - 1].GroupEnd? then 1 else 0)
  }

  /** As many group openings as closings, and no prefix closes a group it
      has not opened. */
  ghost predicate WellBracketed(s: seq<Entry>)
  {
    && Groups(s) == Ends(s)
    && forall k :: 0 <= k <= |s| ==> Ends(s[..k]) <= Groups(s[..k])
  }

  lemma {:induction false} GroupsAppend(a: seq<Entry>, b: seq<Entry>)
    ensures Groups(a + b) == Groups(a) + Groups(b)
    ensures Ends(a + b) == Ends(a) + Ends(b)
    decreases |b|
  {
    if b == [] {
      assert a + b == a;
    } else {
      var b' := b[..|b| - 1];
      assert (a + b)[..|a + b| - 1] == a + b';
      GroupsAppend(a, b');
    }
  }

  /** Appending a well-bracketed run to a well-bracketed buffer keeps it
      well-bracketed. */
  lemma {:induction false} WellBracketedAppend(a: seq<Entry>, b: seq<Entry>)
    requires WellBracketed(a) && WellBracketed(b)
    ensures WellBracketed(a + b)
  {
    GroupsAppend(a, b);
    forall k | 0 <= k <= |a + b|
      ensures Ends((a + b)[..k]) <= Groups((a + b)[..k])
    {
      if k <= |a| {
        assert (a + b)[..k] == a[..k];
      } else {
        assert (a + b)[..k] == a + b[..k - |a|];
        GroupsAppend(a, b[..k - |a|]);
      }
    }
  }

  /** `['group', label]`, then a well-bracketed run, then `['groupEnd']` is
      well-bracketed: the shape of a nested group's splice. */
  lemma {:induction false} WellBracketedWrap(groupLabel: string, child: seq<Entry>)
    requires WellBracketed(child)
    ensures WellBracketed([Group(groupLabel)] + child + [GroupEnd])
  {
    var w := [Group(groupLabel)] + child + [GroupEnd];
    GroupsAppend([Group(groupLabel)], child);
    GroupsAppend([Group(groupLabel)] + child, [GroupEnd]);
    assert [Group(groupLabel)][..0] == [];
    assert [GroupEnd][..0] == [];
    forall k | 0 <= k <= |w|
      ensures Ends(w[..k]) <= Groups(w[..k])
    {
      if k == 0 {
        assert w[..k] == [];
      } else if k <= |child| + 1 {
        assert w[..k] == [Group(groupLabel)] + child[..k - 1];
        GroupsAppend([Group(groupLabel)], child[..k - 1]);
      } else {
        assert w[..k] == w;
      }
    }
  }

  /** A well-bracketed buffer with a well-bracketed nested group spliced
      onto its end stays well-bracketed. */
  lemma WellBracketedSplice(a: seq<Entry>, groupLabel: string, child: seq<Entry>)
    requires WellBracketed(a) && WellBracketed(child)
    ensures WellBracketed(a + [Group(groupLabel)] + child + [GroupEnd])
  {
    var w := [Group(groupLabel)] + child + [GroupEnd];
    WellBracketedWrap(groupLabel, child);
    WellBracketedAppend(a, w);
    assert a + [Group(groupLabel)] + child + [GroupEnd] == a + w;
  }
}
