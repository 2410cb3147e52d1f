/** The exported `asyncGroup`: run the callback against a fresh recorder,
    then, whether it returned or threw, seal the recorder and replay its
    buffer onto the console inside one `group`/`groupEnd` pair. */
module Runner {
  import opened Wrappers
  import opened Values
  import opened Console
  import opened Entries
  import opened ConsoleGroup

  /** The replay `switch`: each buffer entry becomes the console call of the
      same name with the same arguments in the same order. */
  function Translate(e: Entry): (ev: Event)
    ensures Parse(ev) == Some(e)
  {
    match e
    case Group(l) => GroupCall(l)
    case GroupEnd => GroupEndCall
    case Call(m, p) => MethodCall(m, p)
  }

  /** Reads a console call back as the buffer entry it replays, if any. */
  function Parse(ev: Event): (e: Option<Entry>)
  {
    if ev.name == "group" then
      if |ev.args| == 1 && ev.args[0].Str? then Some(Group(ev.args[0].s)) else None
    else if ev.name == "groupEnd" then
      if ev.args == [] then Some(GroupEnd) else None
    else
      match MethodOf(ev.name)
      case Some(m) => Some(Call(m, ev.args))
      case None => None
  }

  /** `Parse` accepts only what `Translate` produces, so the two are
      inverse bijections between entries and replayable console calls. */
  lemma TranslateInvertsParse(ev: Event)
    ensures Parse(ev).Some? ==> Translate(Parse(ev).value) == ev
  {
    if Parse(ev).Some? && ev.name != "group" && ev.name != "groupEnd" {
      MethodOfInvertsName(ev.name);
    }
  }

  /** The console calls replaying a run of entries, one for one. */
  function TranslateAll(b: seq<Entry>): (t: seq<Event>)
    ensures |t| == |b|
    ensures forall i :: 0 <= i < |b| ==> t[i] == Translate(b[i])
  {
    if b == [] then [] else TranslateAll(b[..|b| - 1]) + [Translate(b[|b| - 1])]
  }

  function ParseAll(t: seq<Event>): (b: Option<seq<Entry>>)
    ensures b.Some? ==> |b.value| == |t|
  {
    if t == [] then Some([])
    else match (ParseAll(t[..|t| - 1]), Parse(t[|t| - 1]))
      case (Some(b), Some(e)) => Some(b + [e])
      case _ => None
  }

  lemma {:induction false} ParseAllTranslateAll(b: seq<Entry>)
    ensures ParseAll(TranslateAll(b)) == Some(b)
    decreases |b|
  {
    if b != [] {
      var t := TranslateAll(b);
      assert t[..|t| - 1] == TranslateAll(b[..|b| - 1]);
      ParseAllTranslateAll(b[..|b| - 1]);
      assert b[..|b| - 1] + [b[|b| - 1]] == b;
    }
  }

  /** `ParseAll` reads back only what `TranslateAll` produces, so a trace
      that parses to a buffer is that buffer's replay. */
  lemma {:induction false} ParseAllInvertsTranslateAll(t: seq<Event>)
    requires ParseAll(t).Some?
    ensures TranslateAll(ParseAll(t).value) == t
    decreases |t|
  {
    if t != [] {
      var init, last := t[..|t| - 1], t[|t| - 1];
      ParseAllSnoc(t);
      var prefix, e := ParseAll(init).value, Parse(last).value;
      ParseAllInvertsTranslateAll(init);
      TranslateInvertsParse(last);
      TranslateAllSnoc(prefix, e);
      assert TranslateAll(ParseAll(t).value) == init + [last];
      assert init + [last] == t;
    }
  }

  /** One step of `ParseAll`: the last call parses and so does the rest. */
  lemma ParseAllSnoc(t: seq<Event>)
    requires t != [] && ParseAll(t).Some?
    ensures ParseAll(t[..|t| - 1]).Some? && Parse(t[|t| - 1]).Some?
    ensures ParseAll(t).value == ParseAll(t[..|t| - 1]).value + [Parse(t[|t| - 1]).value]
  {
  }

  /** One step of `TranslateAll`. */
  lemma TranslateAllSnoc(b: seq<Entry>, e: Entry)
    ensures TranslateAll(b + [e]) == TranslateAll(b) + [Translate(e)]
  {
    assert (b + [e])[..|b|] == b;
  }

  /** The whole console trace a replay produces: `console.group(label)`,
      each entry in buffer order, then `console.groupEnd()`. */
  function Replay(groupLabel: string, buffer: seq<Entry>): (t: seq<Event>)
    ensures |t| == |buffer| + 2
    ensures t[0] == GroupCall(groupLabel) && t[|t| - 1] == GroupEndCall
    ensures forall i :: 0 <= i < |buffer| ==> t[i + 1] == Translate(buffer[i])
  {
    [GroupCall(groupLabel)] + TranslateAll(buffer) + [GroupEndCall]
  }

  /** Reads a replayed trace back as its label and buffer. */
  function Unreplay(t: seq<Event>): (r: Option<(string, seq<Entry>)>)
  {
    if |t| < 2 || t[|t| - 1] != GroupEndCall then None
    else match (Parse(t[0]), ParseAll(t[1..|t| - 1]))
      case (Some(Group(l)), Some(b)) => Some((l, b))
      case _ => None
  }

  /** A replay loses nothing: the label and every entry, in order, can be
      read back from the console trace. */
  lemma ReplayRoundTrip(groupLabel: string, buffer: seq<Entry>)
    ensures Unreplay(Replay(groupLabel, buffer)) == Some((groupLabel, buffer))
  {
    var t := Replay(groupLabel, buffer);
    assert t[1..|t| - 1] == TranslateAll(buffer);
    ParseAllTranslateAll(buffer);
  }

  /** Conversely, a trace that reads back as a label and a buffer is
      exactly that buffer's replay: reading back loses nothing either. */
  lemma UnreplayInvertsReplay(t: seq<Event>)
    requires Unreplay(t).Some?
    ensures t == Replay(Unreplay(t).value.0, Unreplay(t).value.1)
  {
    var mid := t[1..|t| - 1];
    var l, b := Unreplay(t).value.0, Unreplay(t).value.1;
    assert Parse(t[0]) == Some(Group(l)) && ParseAll(mid) == Some(b);
    ParseAllInvertsTranslateAll(mid);
    TranslateInvertsParse(t[0]);
    assert t == [t[0]] + mid + [t[|t| - 1]];
  }

  /** Replaying a run of entries opens one console group per
      `['group', label]` and closes one per `['groupEnd']`. */
  lemma {:induction false} TranslateAllCounts(b: seq<Entry>)
    ensures Opens(TranslateAll(b)) == Groups(b)
    ensures Closes(TranslateAll(b)) == Ends(b)
    decreases |b|
  {
    if b != [] {
      var t := TranslateAll(b);
      assert t[..|t| - 1] == TranslateAll(b[..|b| - 1]);
      TranslateAllCounts(b[..|b| - 1]);
    }
  }

  lemma TranslateAllPrefix(b: seq<Entry>, k: nat)
    requires k <= |b|
    ensures TranslateAll(b)[..k] == TranslateAll(b[..k])
  {
    var whole, part := TranslateAll(b)[..k], TranslateAll(b[..k]);
    forall i | 0 <= i < k
      ensures whole[i] == part[i]
    {
      assert b[..k][i] == b[i];
    }
  }

  /** The replay opens one more console group than the buffer does (the
      outer one) and closes one more. */
  lemma ReplayCounts(groupLabel: string, buffer: seq<Entry>)
    ensures Opens(Replay(groupLabel, buffer)) == Groups(buffer) + 1
    ensures Closes(Replay(groupLabel, buffer)) == Ends(buffer) + 1
  {
    TranslateAllCounts(buffer);
    BracketCallCounts(groupLabel);
    var g := [GroupCall(groupLabel)];
    OpensAppend(g, TranslateAll(buffer));
    OpensAppend(g + TranslateAll(buffer), [GroupEndCall]);
    ClosesAppend(g, TranslateAll(buffer));
    ClosesAppend(g + TranslateAll(buffer), [GroupEndCall]);
  }

  /** A well-bracketed buffer replays as a balanced console trace: every
      nested group is closed before the outer one, and the outer one last. */
  lemma ReplayBalanced(groupLabel: string, buffer: seq<Entry>)
    requires WellBracketed(buffer)
    ensures Balanced(Replay(groupLabel, buffer))
  {
    var t := Replay(groupLabel, buffer);
    ReplayCounts(groupLabel, buffer);
    forall k | 0 <= k <= |t|
      ensures Closes(t[..k]) <= Opens(t[..k])
    {
      ReplayPrefixBalanced(groupLabel, buffer, k);
    }
  }

  lemma ReplayPrefixBalanced(groupLabel: string, buffer: seq<Entry>, k: nat)
    requires WellBracketed(buffer)
    requires k <= |buffer| + 2
    ensures Closes(Replay(groupLabel, buffer)[..k]) <= Opens(Replay(groupLabel, buffer)[..k])
  {
    var t := Replay(groupLabel, buffer);
    if k == 0 {
      assert t[..k] == [];
    } else if k <= |buffer| + 1 {
      var g := [GroupCall(groupLabel)];
      var p := buffer[..k - 1];
      assert Ends(p) <= Groups(p);
      var tp := TranslateAll(p);
      TranslateAllPrefix(buffer, k - 1);
      assert t[..k] == g + tp;
      TranslateAllCounts(p);
      BracketCallCounts(groupLabel);
      OpensAppend(g, tp);
      ClosesAppend(g, tp);
    } else {
      assert t[..k] == t;
      ReplayCounts(groupLabel, buffer);
    }
  }

  /** A trace that starts with `group(label)`, ends with `groupEnd()` and
      replays each entry in between is the replay. */
  lemma ReplayIsDetermined(groupLabel: string, buffer: seq<Entry>, t: seq<Event>)
    requires |t| == |buffer| + 2
    requires t[0] == GroupCall(groupLabel) && t[|t| - 1] == GroupEndCall
    requires forall i :: 0 <= i < |buffer| ==> t[i + 1] == Translate(buffer[i])
    ensures t == Replay(groupLabel, buffer)
  {
    var r := Replay(groupLabel, buffer);
    forall j | 0 <= j < |t|
      ensures t[j] == r[j]
    {
      if 0 < j < |t| - 1 {
        assert t[(j - 1) + 1] == Translate(buffer[j - 1]);
      }
    }
  }

  /** The replay loop as written: `console.group(label)`, then
      `buffer.shift()` and dispatch until the buffer is empty, then
      `console.groupEnd()`. */
  method ReplayLoop(groupLabel: string, buffer: seq<Entry>) returns (trace: seq<Event>, drained: seq<Entry>)
    ensures drained == []
    ensures |trace| == |buffer| + 2
    ensures trace[0] == GroupCall(groupLabel) && trace[|trace| - 1] == GroupEndCall
    ensures forall i :: 0 <= i < |buffer| ==> trace[i + 1] == Translate(buffer[i])
    ensures trace == Replay(groupLabel, buffer)
  {
    drained := buffer;
    trace := [GroupCall(groupLabel)];
    while |drained| > 0
      invariant |drained| <= |buffer|
      invariant drained == buffer[|buffer| - |drained|..]
      invariant |trace| == |buffer| - |drained| + 1
      invariant trace[0] == GroupCall(groupLabel)
      invariant forall i :: 0 <= i < |buffer| - |drained| ==> trace[i + 1] == Translate(buffer[i])
    {
      var entry := drained[0];
      drained := drained[1..];
      match entry {
        case Group(nestedLabel) =>
          trace := trace + [GroupCall(nestedLabel)];
        case GroupEnd =>
          trace := trace + [GroupEndCall];
        case Call(m, params) =>
          trace := trace + [MethodCall(m, params)];
      }
    }
    trace := trace + [GroupEndCall];
    ReplayIsDetermined(groupLabel, buffer, trace);
  }

  /** The exported `asyncGroup(label, callbackFn, thisArg)`. `sink` is the
      console trace before the call and `others` is whatever other code
      writes to the console while the callback is pending. */
  function AsyncGroup(sink: seq<Event>, groupLabel: string, callback: Value -> Script, thisArg: Value,
                      others: seq<Event>): (res: (seq<Event>, Outcome))
    ensures res.1 == Final(callback(BindThis(thisArg)))
    ensures |sink| + |others| <= |res.0|
    ensures res.0[..|sink| + |others|] == sink + others
    ensures res.0 == sink + others + Replay(groupLabel, Recorded(callback(BindThis(thisArg))))
    ensures Unreplay(res.0[|sink| + |others|..]) == Some((groupLabel, Recorded(callback(BindThis(thisArg)))))
    ensures Balanced(res.0[|sink| + |others|..])
    ensures res.0[|res.0| - 1] == GroupEndCall
  {
    var script := callback(BindThis(thisArg));
    var (_, buffer) := Run(Fresh, script).End();
    RunRecords(Fresh, script);
    FreshIsWellBracketed();
    RunKeepsWellBracketed(Fresh, script);
    ReplayRoundTrip(groupLabel, buffer);
    ReplayBalanced(groupLabel, buffer);
    var replayed := Replay(groupLabel, buffer);
    assert (sink + others + replayed)[|sink| + |others|..] == replayed;
    (sink + others + replayed, Final(script))
  }
}
