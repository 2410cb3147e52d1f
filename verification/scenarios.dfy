/** Concrete runs: small worked examples and the cases the test suites
    exercise, stated as exact console traces. */
module Scenarios {
  import opened Values
  import opened Console
  import opened Entries
  import opened ConsoleGroup
  import opened Runner
  import opened SyncGroup
  import opened Equivalence

  /** A replay trace is pinned down by its outer bracket and one replayed
      call per buffer entry. */
  lemma ReplayExact(groupLabel: string, buffer: seq<Entry>, expected: seq<Event>)
    requires |expected| == |buffer| + 2
    requires expected[0] == GroupCall(groupLabel) && expected[|expected| - 1] == GroupEndCall
    requires forall i :: 0 <= i < |buffer| ==> expected[i + 1] == Translate(buffer[i])
    ensures Replay(groupLabel, buffer) == expected
  {
  }

  /** A top-level run on an empty console with no interleaved output, once
      the recorded entries and their replay are known. */
  lemma AsyncGroupFrom(groupLabel: string, callback: Value -> Script, thisArg: Value,
                       entries: seq<Entry>, trace: seq<Event>)
    requires Recorded(callback(BindThis(thisArg))) == entries
    requires Replay(groupLabel, entries) == trace
    ensures AsyncGroup([], groupLabel, callback, thisArg, []) == (trace, Final(callback(BindThis(thisArg))))
  {
    RunRecords(Fresh, callback(BindThis(thisArg)));
    AsyncGroupTrace([], groupLabel, callback, thisArg);
    assert [] + trace == trace;
  }

  /** The recorded entry of a message call with no optional parameters. */
  lemma MessageEntry(op: Op)
    requires op.LogCall? || op.WarnCall? || op.ErrorCall? || op.DebugCall? || op.InfoCall?
    requires op.optionalParams == []
    ensures EntryOf(op).params == [op.message]
  {
    assert [op.message] + [] == [op.message];
  }

  // log("a"), warn("b"), return "done"

  function FlatCallback(ctx: Value): (s: Script)
  {
    Then(LogCall(Str("a"), []), Then(WarnCall(Str("b"), []), Settle(Returned(Str("done")))))
  }

  function FlatTrace(): (t: seq<Event>)
  {
    [GroupCall("G"), Invoke("log", [Str("a")]), Invoke("warn", [Str("b")]), GroupEndCall]
  }

  lemma FlatRecorded()
    ensures Recorded(FlatCallback(GlobalThis)) == [Call(Method.Log, [Str("a")]), Call(Method.Warn, [Str("b")])]
  {
    var s := FlatCallback(GlobalThis);
    MessageEntry(s.op);
    MessageEntry(s.next.op);
    assert Recorded(s.next) == [Call(Method.Warn, [Str("b")])] + [];
  }

  lemma FlatScenario()
    ensures AsyncGroup([], "G", FlatCallback, Undefined, []) == (FlatTrace(), Returned(Str("done")))
  {
    var rec := [Call(Method.Log, [Str("a")]), Call(Method.Warn, [Str("b")])];
    FlatRecorded();
    ReplayExact("G", rec, FlatTrace());
    AsyncGroupFrom("G", FlatCallback, Undefined, rec, FlatTrace());
  }

  // nested group "N" holding error("x"), then info("y")

  function NestedCallback(ctx: Value): (s: Script)
  {
    Then(AsyncGroupCall("N", Then(ErrorCall(Str("x"), []), Settle(Returned(Undefined)))),
         Then(InfoCall(Str("y"), []), Settle(Returned(Undefined))))
  }

  function NestedEntries(): (b: seq<Entry>)
  {
    [Group("N"), Call(Method.Error, [Str("x")]), GroupEnd, Call(Method.Info, [Str("y")])]
  }

  function NestedTrace(): (t: seq<Event>)
  {
    [GroupCall("G"), GroupCall("N"), Invoke("error", [Str("x")]), GroupEndCall,
     Invoke("info", [Str("y")]), GroupEndCall]
  }

  lemma NestedRecorded()
    ensures Recorded(NestedCallback(GlobalThis)) == NestedEntries()
  {
    var s := NestedCallback(GlobalThis);
    MessageEntry(s.op.body.op);
    MessageEntry(s.next.op);
    assert Recorded(s.op.body) == [Call(Method.Error, [Str("x")])] + [];
    assert Recorded(s.next) == [Call(Method.Info, [Str("y")])] + [];
    assert Final(s.op.body).Returned?;
  }

  lemma NestedScenario()
    ensures AsyncGroup([], "G", NestedCallback, Undefined, []) == (NestedTrace(), Returned(Undefined))
  {
    NestedRecorded();
    ReplayExact("G", NestedEntries(), NestedTrace());
    AsyncGroupFrom("G", NestedCallback, Undefined, NestedEntries(), NestedTrace());
  }

  // test suite: five calls inside one nested group, then return "Test result"

  function NestedTestCallback(ctx: Value): (s: Script)
  {
    var m := Str("Inside test callback");
    Then(AsyncGroupCall("Nested Group",
           Then(LogCall(m, []), Then(WarnCall(m, []), Then(ErrorCall(m, []), Then(DebugCall(m, []),
           Then(InfoCall(m, []), Settle(Returned(Undefined)))))))),
         Settle(Returned(Str("Test result"))))
  }

  /** The five message calls of the test suite's callbacks. */
  function FiveCalls(): (b: seq<Entry>)
  {
    var m := Str("Inside test callback");
    [Call(Method.Log, [m]), Call(Method.Warn, [m]), Call(Method.Error, [m]),
     Call(Method.Debug, [m]), Call(Method.Info, [m])]
  }

  /** Five message calls followed by `tail` record `FiveCalls()`. */
  lemma FiveCallsRecorded(tail: Outcome)
    ensures
      var m := Str("Inside test callback");
      Recorded(Then(LogCall(m, []), Then(WarnCall(m, []), Then(ErrorCall(m, []), Then(DebugCall(m, []),
      Then(InfoCall(m, []), Settle(tail))))))) == FiveCalls()
  {
    var m := Str("Inside test callback");
    var s := Then(LogCall(m, []), Then(WarnCall(m, []), Then(ErrorCall(m, []), Then(DebugCall(m, []),
             Then(InfoCall(m, []), Settle(tail))))));
    var rec := FiveCalls();
    MessageEntry(s.op);
    MessageEntry(s.next.op);
    MessageEntry(s.next.next.op);
    MessageEntry(s.next.next.next.op);
    MessageEntry(s.next.next.next.next.op);
    assert Recorded(s.next.next.next.next) == rec[4..];
    assert Recorded(s.next.next.next) == rec[3..];
    assert Recorded(s.next.next) == rec[2..];
    assert Recorded(s.next) == rec[1..];
  }

  /** A run of recorded calls opens and closes no group. */
  lemma {:induction false} NoBracketsCountZero(b: seq<Entry>)
    requires forall i :: 0 <= i < |b| ==> b[i].Call?
    ensures Groups(b) == 0 && Ends(b) == 0
    decreases |b|
  {
    if b != [] {
      NoBracketsCountZero(b[..|b| - 1]);
    }
  }

  /** The buffer the nested test callback leaves. */
  function NestedTestEntries(): (b: seq<Entry>)
  {
    [Group("Nested Group")] + FiveCalls() + [GroupEnd]
  }

  lemma NestedTestRecorded()
    ensures Recorded(NestedTestCallback(GlobalThis)) == NestedTestEntries()
  {
    FiveCallsRecorded(Returned(Undefined));
  }

  lemma NestedTestBracketCounts()
    ensures Groups(NestedTestEntries()) == 1 && Ends(NestedTestEntries()) == 1
  {
    var inner := FiveCalls();
    NoBracketsCountZero(inner);
    GroupsAppend([Group("Nested Group")], inner);
    GroupsAppend([Group("Nested Group")] + inner, [GroupEnd]);
    assert [Group("Nested Group")][..0] == [] && [GroupEnd][..0] == [];
  }

  /** One nested group: `console.group` and `console.groupEnd` are each
      called exactly twice, and the callback's value comes back. */
  lemma NestedGroupCountsTwoPairs()
    ensures Opens(AsyncGroup([], "Test Group", NestedTestCallback, Undefined, []).0) == 2
    ensures Closes(AsyncGroup([], "Test Group", NestedTestCallback, Undefined, []).0) == 2
    ensures AsyncGroup([], "Test Group", NestedTestCallback, Undefined, []).1 == Returned(Str("Test result"))
  {
    var buffer := NestedTestEntries();
    NestedTestRecorded();
    NestedTestBracketCounts();
    ReplayCounts("Test Group", buffer);
    AsyncGroupFrom("Test Group", NestedTestCallback, Undefined, buffer, Replay("Test Group", buffer));
  }

  // test suite: table, trace, assert, time, timeEnd and dir(v)

  function ExtendedCallback(ctx: Value): (s: Script)
  {
    Then(TableCall(Object(1), Object(2)),
    Then(TraceCall([Str("trace label")]),
    Then(AssertCall(Bool(false), Str("assertion failed"), []),
    Then(TimeCall(Str("timer")),
    Then(TimeEndCall(Str("timer")),
    Then(DirCall(Object(3), Undefined),
    Settle(Returned(Undefined))))))))
  }

  function ExtendedEntries(): (b: seq<Entry>)
  {
    [Call(Method.Table, [Object(1), Object(2)]),
     Call(Method.Trace, [Str("trace label")]),
     Call(Method.Assert, [Bool(false), Str("assertion failed")]),
     Call(Method.Time, [Str("timer")]),
     Call(Method.TimeEnd, [Str("timer")]),
     Call(Method.Dir, [Object(3), Undefined])]
  }

  function ExtendedTrace(): (t: seq<Event>)
  {
    [GroupCall("Test Group"),
     Invoke("table", [Object(1), Object(2)]),
     Invoke("trace", [Str("trace label")]),
     Invoke("assert", [Bool(false), Str("assertion failed")]),
     Invoke("time", [Str("timer")]),
     Invoke("timeEnd", [Str("timer")]),
     Invoke("dir", [Object(3), Undefined]),
     GroupEndCall]
  }

  lemma ExtendedRecorded()
    ensures Recorded(ExtendedCallback(GlobalThis)) == ExtendedEntries()
  {
    var s := ExtendedCallback(GlobalThis);
    var rec := ExtendedEntries();
    assert [Bool(false), Str("assertion failed")] + [] == [Bool(false), Str("assertion failed")];
    var s1 := s.next;
    var s2 := s1.next;
    var s3 := s2.next;
    var s4 := s3.next;
    var s5 := s4.next;
    assert Recorded(s5) == [rec[5]];
    assert Recorded(s4) == rec[4..];
    assert Recorded(s3) == rec[3..];
    assert Recorded(s2) == rec[2..];
    assert Recorded(s1) == rec[1..];
  }

  lemma ExtendedReplayed()
    ensures Replay("Test Group", ExtendedEntries()) == ExtendedTrace()
  {
    var rec := ExtendedEntries();
    var expected := ExtendedTrace();
    ReplayExact("Test Group", rec, expected);
  }

  /** Each call is replayed on the console method of the same name with the
      same arguments; `dir(v)` arrives as `dir(v, undefined)`. */
  lemma ExtendedMethodsScenario()
    ensures AsyncGroup([], "Test Group", ExtendedCallback, Undefined, []).0 == ExtendedTrace()
  {
    ExtendedRecorded();
    ExtendedReplayed();
    AsyncGroupFrom("Test Group", ExtendedCallback, Undefined, ExtendedEntries(), ExtendedTrace());
  }

  // test suite: five calls, then a thrown error

  function ThrowingCallback(ctx: Value): (s: Script)
  {
    var m := Str("Inside test callback");
    Then(LogCall(m, []), Then(WarnCall(m, []), Then(ErrorCall(m, []), Then(DebugCall(m, []),
    Then(InfoCall(m, []), Settle(Threw(Str("Test error"))))))))
  }

  /** The buffered calls are still replayed and the group still closed, and
      then the same error propagates. */
  lemma ThrowingScenario()
    ensures AsyncGroup([], "Test Group", ThrowingCallback, Undefined, []).1 == Threw(Str("Test error"))
    ensures AsyncGroup([], "Test Group", ThrowingCallback, Undefined, []).0
         == Replay("Test Group", FiveCalls())
    ensures |AsyncGroup([], "Test Group", ThrowingCallback, Undefined, []).0| == 7
  {
    FiveCallsRecorded(Threw(Str("Test error")));
    AsyncGroupFrom("Test Group", ThrowingCallback, Undefined, FiveCalls(), Replay("Test Group", FiveCalls()));
  }

  // test suite: `async () => {}`

  function EmptyCallback(ctx: Value): (s: Script)
  {
    Settle(Returned(Undefined))
  }

  lemma EmptyScenario()
    ensures AsyncGroup([], "Test Group", EmptyCallback, Undefined, [])
         == ([GroupCall("Test Group"), GroupEndCall], Returned(Undefined))
  {
    ReplayExact("Test Group", [], [GroupCall("Test Group"), GroupEndCall]);
    AsyncGroupFrom("Test Group", EmptyCallback, Undefined, [], [GroupCall("Test Group"), GroupEndCall]);
  }

  /** A callback that returns the `this` it was invoked with. */
  function ThisCallback(ctx: Value): (s: Script)
  {
    Settle(Returned(ctx))
  }

  lemma ContextScenario()
    ensures AsyncGroup([], "G", ThisCallback, Object(7), []).1 == Returned(Object(7))
    ensures AsyncGroup([], "G", ThisCallback, Undefined, []).1 == Returned(GlobalThis)
    ensures AsyncGroup([], "G", ThisCallback, Null, []).1 == Returned(GlobalThis)
    ensures Fresh.AsyncGroup("N", ThisCallback, Object(7)).1 == Returned(Object(7))
  {
  }

  /** A nested callback that logs and then throws, caught by the outer
      callback, which then returns. */
  function CaughtNestedThrowCallback(ctx: Value): (s: Script)
  {
    Then(AsyncGroupCall("N", Then(LogCall(Str("x"), []), Settle(Threw(Str("boom"))))),
         Settle(Returned(Undefined)))
  }

  /** Without a `finally` in the nested `asyncGroup`, what a failing nested
      callback logged never reaches the console, whereas printing directly
      would have shown it. */
  lemma CaughtNestedThrowLosesOutput()
    ensures AsyncGroup([], "G", CaughtNestedThrowCallback, Undefined, []).0 == [GroupCall("G"), GroupEndCall]
    ensures Direct(CaughtNestedThrowCallback(GlobalThis))
         == [GroupCall("N"), Invoke("log", [Str("x")]), GroupEndCall]
  {
    assert Recorded(CaughtNestedThrowCallback(GlobalThis)) == [];
    ReplayExact("G", [], [GroupCall("G"), GroupEndCall]);
    AsyncGroupFrom("G", CaughtNestedThrowCallback, Undefined, [], [GroupCall("G"), GroupEndCall]);
    CaughtNestedThrowDirect();
  }

  lemma CaughtNestedThrowDirect()
    ensures Direct(CaughtNestedThrowCallback(GlobalThis))
         == [GroupCall("N"), Invoke("log", [Str("x")]), GroupEndCall]
  {
    var s := CaughtNestedThrowCallback(GlobalThis);
    assert [Str("x")] + [] == [Str("x")];
    assert Direct(s.op.body) == [Invoke("log", [Str("x")])] + [];
    assert Direct(s) == [GroupCall("N")] + Direct(s.op.body) + [GroupEndCall] + [];
  }

  /** A stale reference: a call on an ended recorder changes nothing, but a
      nested group on it is still spliced in. */
  lemma StaleRecorderScenario()
    ensures Fresh.Log(Str("a"), []).End().0.Log(Str("b"), []).buffer == [Call(Method.Log, [Str("a")])]
    ensures Fresh.End().0.Nest("N", Settle(Returned(Undefined))).0.buffer == [Group("N"), GroupEnd]
  {
    assert [Str("a")] + [] == [Str("a")];
  }

  /** `betterGroup`'s test callback: `console.log(...)`, then return. */
  function SyncLogCallback(ctx: Value): (run: SyncRun)
  {
    SyncRun([Invoke("log", [Str("Inside test callback")])], Returned(Str("Test result")))
  }

  lemma BetterGroupScenario()
    ensures BetterGroup([], "Test Group", SyncLogCallback, Undefined)
         == ([GroupCall("Test Group"), Invoke("log", [Str("Inside test callback")]), GroupEndCall],
             Returned(Str("Test result")))
  {
    BetterGroupTrace([], "Test Group", SyncLogCallback, Undefined);
    var t := [GroupCall("Test Group"), Invoke("log", [Str("Inside test callback")]), GroupEndCall];
    var run := SyncLogCallback(BindThis(Undefined));
    assert run.output == [Invoke("log", [Str("Inside test callback")])];
    assert [GroupCall("Test Group")] + run.output + [GroupEndCall] == t;
    assert BetterGroup([], "Test Group", SyncLogCallback, Undefined).0 == t;
  }
}
