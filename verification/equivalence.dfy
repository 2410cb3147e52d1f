/** How the buffered `asyncGroup` relates to calling the console directly:
    the console calls made, not the moment each one takes effect. */
module Equivalence {
  import opened Values
  import opened Console
  import opened Entries
  import opened ConsoleGroup
  import opened Runner
  import opened SyncGroup

  /** The console call a recorder call stands for, written out per method. */
  function ConsoleCallOf(op: Op): (ev: Event)
    requires !op.AsyncGroupCall?
  {
    match op
    case LogCall(m, o) => Invoke("log", [m] + o)
    case WarnCall(m, o) => Invoke("warn", [m] + o)
    case ErrorCall(m, o) => Invoke("error", [m] + o)
    case DebugCall(m, o) => Invoke("debug", [m] + o)
    case InfoCall(m, o) => Invoke("info", [m] + o)
    case TableCall(d, p) => Invoke("table", [d, p])
    case TraceCall(d) => Invoke("trace", d)
    case AssertCall(c, m, o) => Invoke("assert", [c, m] + o)
    case TimeCall(l) => Invoke("time", [l])
    case TimeEndCall(l) => Invoke("timeEnd", [l])
    case DirCall(i, o) => Invoke("dir", [i, o])
  }

  /** The console calls the script would make if every recorder call went
      straight to the console and every nested group were a `betterGroup`
      bracket. */
  function Direct(s: Script): (t: seq<Event>)
  {
    match s
    case Settle(_) => []
    case Then(op, k) =>
      (if op.AsyncGroupCall? then [GroupCall(op.groupLabel)] + Direct(op.body) + [GroupEndCall]
       else [ConsoleCallOf(op)])
      + Direct(k)
  }

  /** Every nested callback in the script, at any depth, returned. */
  predicate NestedAllReturn(s: Script)
  {
    match s
    case Settle(_) => true
    case Then(op, k) =>
      (op.AsyncGroupCall? ==> Final(op.body).Returned? && NestedAllReturn(op.body))
      && NestedAllReturn(k)
  }

  /** Recording a call and replaying its entry makes the same console call
      as making it directly. */
  lemma EntryReplaysAsConsoleCall(op: Op)
    requires !op.AsyncGroupCall?
    ensures Translate(EntryOf(op)) == ConsoleCallOf(op)
  {
  }

  lemma NestedReplaysAsDirect(groupLabel: string, body: Script, rest: seq<Entry>)
    requires TranslateAll(Recorded(body)) == Direct(body)
    ensures TranslateAll([Group(groupLabel)] + Recorded(body) + [GroupEnd] + rest)
         == [GroupCall(groupLabel)] + Direct(body) + [GroupEndCall] + TranslateAll(rest)
  {
    var inner := [Group(groupLabel)] + Recorded(body) + [GroupEnd];
    TranslateAllAppend(inner, rest);
    TranslateAllAppend([Group(groupLabel)] + Recorded(body), [GroupEnd]);
    TranslateAllAppend([Group(groupLabel)], Recorded(body));
  }

  lemma TranslateAllAppend(a: seq<Entry>, b: seq<Entry>)
    ensures TranslateAll(a + b) == TranslateAll(a) + TranslateAll(b)
  {
  }

  /** When no nested callback throws, replaying what the script recorded
      makes exactly the console calls, with the same arguments in the same
      order, that calling the console directly would have. */
  lemma {:induction false} RecordedReplaysAsDirect(s: Script)
    requires NestedAllReturn(s)
    ensures TranslateAll(Recorded(s)) == Direct(s)
    decreases s
  {
    match s
    case Settle(_) =>
    case Then(op, k) =>
      RecordedReplaysAsDirect(k);
      if op.AsyncGroupCall? {
        RecordedReplaysAsDirect(op.body);
        NestedReplaysAsDirect(op.groupLabel, op.body, Recorded(k));
      } else {
        EntryReplaysAsConsoleCall(op);
        TranslateAllAppend([EntryOf(op)], Recorded(k));
      }
  }

  lemma AsyncGroupTrace(sink: seq<Event>, groupLabel: string, callback: Value -> Script, thisArg: Value)
    ensures AsyncGroup(sink, groupLabel, callback, thisArg, []).0
         == sink + Replay(groupLabel, Run(Fresh, callback(BindThis(thisArg))).buffer)
  {
    assert sink + [] == sink;
  }

  lemma BetterGroupTrace(sink: seq<Event>, groupLabel: string, callback: Value -> SyncRun, thisArg: Value)
    ensures BetterGroup(sink, groupLabel, callback, thisArg).0
         == sink + ([GroupCall(groupLabel)] + callback(BindThis(thisArg)).output + [GroupEndCall])
  {
  }

  /** With no other console output while it is pending and no nested
      callback throwing, `asyncGroup` makes the same console calls, with the
      same arguments in the same order, and returns the same outcome as
      `betterGroup` does with a callback that calls the console directly. */
  lemma AsyncGroupMatchesBetterGroup(sink: seq<Event>, groupLabel: string, callback: Value -> Script, thisArg: Value)
    requires NestedAllReturn(callback(BindThis(thisArg)))
    ensures AsyncGroup(sink, groupLabel, callback, thisArg, [])
         == BetterGroup(sink, groupLabel, ctx => SyncRun(Direct(callback(ctx)), Final(callback(ctx))), thisArg)
  {
    var script := callback(BindThis(thisArg));
    var direct := ctx => SyncRun(Direct(callback(ctx)), Final(callback(ctx)));
    RunRecords(Fresh, script);
    RecordedReplaysAsDirect(script);
    AsyncGroupTrace(sink, groupLabel, callback, thisArg);
    BetterGroupTrace(sink, groupLabel, direct, thisArg);
    assert Replay(groupLabel, Run(Fresh, script).buffer)
        == [GroupCall(groupLabel)] + direct(BindThis(thisArg)).output + [GroupEndCall];
  }
}
