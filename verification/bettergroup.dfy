/** The synchronous `betterGroup(label, callbackFn, thisArg)`: no buffer,
    just `console.group`, the callback, and `console.groupEnd` in a
    `finally`. */
module SyncGroup {
  import opened Values
  import opened Console

  /** A finished synchronous callback: the console calls it made itself, in
      order, and whether it returned or threw. */
  datatype SyncRun = SyncRun(output: seq<Event>, outcome: Outcome)

  /** `sink` is the console trace before the call. The callback is invoked
      with `thisArg ?? globalThis`; there is no `catch`, so its value or its
      error is passed through unchanged. */
  function BetterGroup(sink: seq<Event>, groupLabel: string, callback: Value -> SyncRun, thisArg: Value)
    : (res: (seq<Event>, Outcome))
    ensures res.1 == callback(BindThis(thisArg)).outcome
    ensures |res.0| == |sink| + |callback(BindThis(thisArg)).output| + 2
    ensures res.0[..|sink|] == sink
    ensures res.0[|sink|] == GroupCall(groupLabel)
    ensures res.0[|sink| + 1..|res.0| - 1] == callback(BindThis(thisArg)).output
    ensures res.0[|res.0| - 1] == GroupEndCall
  {
    var run := callback(BindThis(thisArg));
    (sink + [GroupCall(groupLabel)] + run.output + [GroupEndCall], run.outcome)
  }

  /** `betterGroup` adds exactly one `console.group` and exactly one
      `console.groupEnd` to whatever the callback printed, on both the
      return and the throw path. */
  lemma BetterGroupAddsOnePair(sink: seq<Event>, groupLabel: string, callback: Value -> SyncRun, thisArg: Value)
    ensures Opens(BetterGroup(sink, groupLabel, callback, thisArg).0)
         == Opens(sink) + Opens(callback(BindThis(thisArg)).output) + 1
    ensures Closes(BetterGroup(sink, groupLabel, callback, thisArg).0)
         == Closes(sink) + Closes(callback(BindThis(thisArg)).output) + 1
  {
    var out := callback(BindThis(thisArg)).output;
    var g := [GroupCall(groupLabel)];
    assert g[..0] == [] && [GroupEndCall][..0] == [];
    assert BetterGroup(sink, groupLabel, callback, thisArg).0 == sink + g + out + [GroupEndCall];
    OpensAppend(sink, g);
    OpensAppend(sink + g, out);
    OpensAppend(sink + g + out, [GroupEndCall]);
    ClosesAppend(sink, g);
    ClosesAppend(sink + g, out);
    ClosesAppend(sink + g + out, [GroupEndCall]);
  }
}
