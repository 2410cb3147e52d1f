/** The recorder class `AsyncConsoleGroup` and the callbacks that drive it.

    A callback is modelled by what it did once it settled: the recorder
    calls it made, in order, ending in the value it returned or the error it
    threw. A nested `asyncGroup` call inside it carries the nested callback
    in the same form. */
module ConsoleGroup {
  import opened Values
  import opened Console
  import opened Entries

  /** One call a callback makes on the recorder it was given. The fields are
      the parameters of the recorder method of the same name; an omitted
      optional parameter is `Undefined`. */
  datatype Op =
    | LogCall(message: Value, optionalParams: seq<Value>)
    | WarnCall(message: Value, optionalParams: seq<Value>)
    | ErrorCall(message: Value, optionalParams: seq<Value>)
    | DebugCall(message: Value, optionalParams: seq<Value>)
    | InfoCall(message: Value, optionalParams: seq<Value>)
    | TableCall(tabularData: Value, properties: Value)
    | TraceCall(data: seq<Value>)
    | AssertCall(condition: Value, message: Value, optionalParams: seq<Value>)
    | TimeCall(timerLabel: Value)
    | TimeEndCall(timerLabel: Value)
    | DirCall(item: Value, options: Value)
    | AsyncGroupCall(groupLabel: string, body: Script)

  /** A settled callback: its recorder calls, then how its promise settled. */
  datatype Script = Settle(outcome: Outcome) | Then(op: Op, next: Script)

  /** How a script's promise settled. */
  function Final(s: Script): (o: Outcome)
  {
    match s
    case Settle(o) => o
    case Then(_, k) => Final(k)
  }

  /** True when the script opens no nested group. */
  predicate Flat(s: Script)
  {
    match s
    case Settle(_) => true
    case Then(op, k) => !op.AsyncGroupCall? && Flat(k)
  }

  /** `AsyncConsoleGroup`: the private `#buffer` and `#ended` fields. */
  datatype Recorder = Recorder(buffer: seq<Entry>, ended: bool) {

    /** `#push(method, ...params)`: appends exactly one entry at the end
        unless the recorder has ended, and never touches earlier entries. */
    function Push(kind: Method, params: seq<Value>): (r: Recorder)
      ensures r.ended == ended
      ensures |r.buffer| == |buffer| + (if ended then 0 else 1)
      ensures r.buffer[..|buffer|] == buffer
      ensures !ended ==> r.buffer[|buffer|] == Call(kind, params)
    {
      if ended then this else Recorder(buffer + [Call(kind, params)], ended)
    }

    function Log(message: Value, optionalParams: seq<Value>): (r: Recorder)
      ensures ended ==> r == this
      ensures r.ended == ended
      ensures !ended ==> r.buffer == buffer + [Call(Method.Log, [message] + optionalParams)]
    {
      Push(Method.Log, [message] + optionalParams)
    }

    function Warn(message: Value, optionalParams: seq<Value>): (r: Recorder)
      ensures ended ==> r == this
      ensures r.ended == ended
      ensures !ended ==> r.buffer == buffer + [Call(Method.Warn, [message] + optionalParams)]
    {
      Push(Method.Warn, [message] + optionalParams)
    }

    function Error(message: Value, optionalParams: seq<Value>): (r: Recorder)
      ensures ended ==> r == this
      ensures r.ended == ended
      ensures !ended ==> r.buffer == buffer + [Call(Method.Error, [message] + optionalParams)]
    {
      Push(Method.Error, [message] + optionalParams)
    }

    function Debug(message: Value, optionalParams: seq<Value>): (r: Recorder)
      ensures ended ==> r == this
      ensures r.ended == ended
      ensures !ended ==> r.buffer == buffer + [Call(Method.Debug, [message] + optionalParams)]
    {
      Push(Method.Debug, [message] + optionalParams)
    }

    function Info(message: Value, optionalParams: seq<Value>): (r: Recorder)
      ensures ended ==> r == this
      ensures r.ended == ended
      ensures !ended ==> r.buffer == buffer + [Call(Method.Info, [message] + optionalParams)]
    {
      Push(Method.Info, [message] + optionalParams)
    }

    /** `table` records both slots, the property list too when omitted. */
    function Table(tabularData: Value, properties: Value): (r: Recorder)
      ensures ended ==> r == this
      ensures r.ended == ended
      ensures !ended ==> r.buffer == buffer + [Call(Method.Table, [tabularData, properties])]
    {
      Push(Method.Table, [tabularData, properties])
    }

    /** `trace` records exactly the values it was given, possibly none. */
    function Trace(data: seq<Value>): (r: Recorder)
      ensures ended ==> r == this
      ensures r.ended == ended
      ensures !ended ==> r.buffer == buffer + [Call(Method.Trace, data)]
    {
      Push(Method.Trace, data)
    }

    function Assert(condition: Value, message: Value, optionalParams: seq<Value>): (r: Recorder)
      ensures ended ==> r == this
      ensures r.ended == ended
      ensures !ended ==> r.buffer == buffer + [Call(Method.Assert, [condition, message] + optionalParams)]
    {
      Push(Method.Assert, [condition, message] + optionalParams)
    }

    function Time(timerLabel: Value): (r: Recorder)
      ensures ended ==> r == this
      ensures r.ended == ended
      ensures !ended ==> r.buffer == buffer + [Call(Method.Time, [timerLabel])]
    {
      Push(Method.Time, [timerLabel])
    }

    function TimeEnd(timerLabel: Value): (r: Recorder)
      ensures ended ==> r == this
      ensures r.ended == ended
      ensures !ended ==> r.buffer == buffer + [Call(Method.TimeEnd, [timerLabel])]
    {
      Push(Method.TimeEnd, [timerLabel])
    }

    /** `dir` records both slots, so `dir(v)` is recorded as `dir(v, undefined)`. */
    function Dir(item: Value, options: Value): (r: Recorder)
      ensures ended ==> r == this
      ensures r.ended == ended
      ensures !ended ==> r.buffer == buffer + [Call(Method.Dir, [item, options])]
    {
      Push(Method.Dir, [item, options])
    }

    /** Dispatches one (non-nested) recorder call to its method. Each
        method records exactly the entry `EntryOf` describes. */
    function Apply(op: Op): (r: Recorder)
      requires !op.AsyncGroupCall?
      ensures ended ==> r == this
      ensures !ended ==> r.buffer == buffer + [EntryOf(op)] && !r.ended
    {
      match op
      case LogCall(m, o) => Log(m, o)
      case WarnCall(m, o) => Warn(m, o)
      case ErrorCall(m, o) => Error(m, o)
      case DebugCall(m, o) => Debug(m, o)
      case InfoCall(m, o) => Info(m, o)
      case TableCall(d, p) => Table(d, p)
      case TraceCall(d) => Trace(d)
      case AssertCall(c, m, o) => Assert(c, m, o)
      case TimeCall(l) => Time(l)
      case TimeEndCall(l) => TimeEnd(l)
      case DirCall(i, o) => Dir(i, o)
    }

    /** `end()`: seals the recorder and hands back its buffer as it stands. */
    function End(): (res: (Recorder, seq<Entry>))
      ensures res.0.ended
      ensures res.0.buffer == buffer && res.1 == buffer
    {
      (Recorder(buffer, true), buffer)
    }

    /** The three pushes that follow a nested callback's success. They write
        to the buffer directly rather than through `#push`, so they happen
        whether or not this recorder has ended. */
    function Splice(groupLabel: string, child: seq<Entry>): (r: Recorder)
      ensures r.ended == ended
      ensures |r.buffer| == |buffer| + |child| + 2
      ensures r.buffer[..|buffer|] == buffer
      ensures r.buffer[|buffer|] == Group(groupLabel)
      ensures r.buffer[|buffer| + 1..|r.buffer| - 1] == child
      ensures r.buffer[|r.buffer| - 1] == GroupEnd
    {
      Recorder(buffer + [Group(groupLabel)] + child + [GroupEnd], ended)
    }

    /** The nested `asyncGroup(label, callbackFn)`, given the settled nested
        callback: the callback runs against a fresh recorder; if it returns,
        its entries are spliced in between the group markers and its value
        is returned; if it throws, nothing is spliced and the same error
        propagates. */
    function Nest(groupLabel: string, body: Script): (res: (Recorder, Outcome))
      decreases body, 1
      ensures res.1 == Final(body)
      ensures res.0.ended == ended
      ensures Final(body).Threw? ==> res.0 == this
      ensures Final(body).Returned? ==>
        res.0.buffer == buffer + [Group(groupLabel)] + Run(Fresh, body).buffer + [GroupEnd]
    {
      var child := Run(Fresh, body);
      match Final(body)
      case Returned(v) =>
        var (_, entries) := child.End();
        (Splice(groupLabel, entries), Returned(v))
      case Threw(e) => (this, Threw(e))
    }

    /** The nested `asyncGroup(label, callbackFn, thisArg)` with the callback
        as a function of the `this` it is invoked with. */
    function AsyncGroup(groupLabel: string, callback: Value -> Script, thisArg: Value): (res: (Recorder, Outcome))
      ensures res.1 == Final(callback(BindThis(thisArg)))
      ensures res.0.ended == ended
      ensures res.1.Threw? ==> res.0 == this
      ensures res.1.Returned? ==>
        res.0.buffer == buffer + [Group(groupLabel)]
                        + Run(Fresh, callback(BindThis(thisArg))).buffer + [GroupEnd]
    {
      Nest(groupLabel, callback(BindThis(thisArg)))
    }
  }

  /** `new AsyncConsoleGroup([])` */
  const Fresh: Recorder := Recorder([], false)

  /** The recorder after a callback has made the calls of script `s` on it. */
  function Run(r: Recorder, s: Script): (r': Recorder)
    decreases s, 0
    ensures r'.ended == r.ended
    ensures |r.buffer| <= |r'.buffer| && r'.buffer[..|r.buffer|] == r.buffer
  {
    match s
    case Settle(_) => r
    case Then(op, k) =>
      if op.AsyncGroupCall? then Run(r.Nest(op.groupLabel, op.body).0, k)
      else Run(r.Apply(op), k)
  }

  /** The entry a single (non-nested) recorder call asks to record. */
  function EntryOf(op: Op): (e: Entry)
    requires !op.AsyncGroupCall?
    ensures WellShaped(e)
  {
    match op
    case LogCall(m, o) => Call(Method.Log, [m] + o)
    case WarnCall(m, o) => Call(Method.Warn, [m] + o)
    case ErrorCall(m, o) => Call(Method.Error, [m] + o)
    case DebugCall(m, o) => Call(Method.Debug, [m] + o)
    case InfoCall(m, o) => Call(Method.Info, [m] + o)
    case TableCall(d, p) => Call(Method.Table, [d, p])
    case TraceCall(d) => Call(Method.Trace, d)
    case AssertCall(c, m, o) => Call(Method.Assert, [c, m] + o)
    case TimeCall(l) => Call(Method.Time, [l])
    case TimeEndCall(l) => Call(Method.TimeEnd, [l])
    case DirCall(i, o) => Call(Method.Dir, [i, o])
  }

  /** The entries a script leaves in a recorder that has not ended, defined
      call by call: one entry per recorder call, and for a nested group
      whose callback returned, its own entries between the group markers. */
  function Recorded(s: Script): (b: seq<Entry>)
  {
    match s
    case Settle(_) => []
    case Then(op, k) =>
      if op.AsyncGroupCall? then
        (if Final(op.body).Returned? then [Group(op.groupLabel)] + Recorded(op.body) + [GroupEnd] else [])
        + Recorded(k)
      else [EntryOf(op)] + Recorded(k)
  }

  /** A live recorder's buffer grows by exactly the script's entries, in
      the order the calls were made. */
  lemma {:induction false} RunRecords(r: Recorder, s: Script)
    requires !r.ended
    ensures Run(r, s).buffer == r.buffer + Recorded(s)
    decreases s
  {
    match s
    case Settle(_) =>
    case Then(op, k) =>
      if op.AsyncGroupCall? {
        RunRecords(Fresh, op.body);
        var r1 := r.Nest(op.groupLabel, op.body).0;
        NestRecords(r, op.groupLabel, op.body);
        RunRecords(r1, k);
      } else {
        RunRecords(r.Apply(op), k);
      }
  }

  /** The nested step of `RunRecords`. */
  lemma NestRecords(r: Recorder, groupLabel: string, body: Script)
    requires Run(Fresh, body).buffer == Recorded(body)
    ensures r.Nest(groupLabel, body).0.buffer == r.buffer
      + (if Final(body).Returned? then [Group(groupLabel)] + Recorded(body) + [GroupEnd] else [])
  {
  }

  /** Calling `end()` again keeps the recorder ended and hands back the same
      buffer. */
  lemma EndIsIdempotent(r: Recorder)
    ensures r.End().0.End() == r.End()
  {
  }

  /** Once ended, recorder calls of every kind leave the recorder as it was. */
  lemma {:induction false} CallsAfterEndAreNoOps(r: Recorder, s: Script)
    requires r.ended && Flat(s)
    ensures Run(r, s) == r
    decreases s
  {
    match s
    case Settle(_) =>
    case Then(op, k) =>
      CallsAfterEndAreNoOps(r, k);
  }

  /** Pushes and nested splices keep a recorder's buffer well-bracketed. */
  lemma {:induction false} RunKeepsWellBracketed(r: Recorder, s: Script)
    requires WellBracketed(r.buffer)
    ensures WellBracketed(Run(r, s).buffer)
    decreases s
  {
    match s
    case Settle(_) =>
    case Then(op, k) =>
      if op.AsyncGroupCall? {
        FreshIsWellBracketed();
        RunKeepsWellBracketed(Fresh, op.body);
        NestKeepsWellBracketed(r, op.groupLabel, op.body);
        RunKeepsWellBracketed(r.Nest(op.groupLabel, op.body).0, k);
      } else {
        var r1 := r.Apply(op);
        if !r.ended {
          var e := [EntryOf(op)];
          assert WellBracketed(e) by {
            assert e[..0] == [] && e[..1] == e;
            assert e[..|e| - 1] == [];
          }
          WellBracketedAppend(r.buffer, e);
        }
        RunKeepsWellBracketed(r1, k);
      }
  }

  lemma FreshIsWellBracketed()
    ensures WellBracketed(Fresh.buffer)
  {
    assert forall j :: 0 <= j <= 0 ==> Fresh.buffer[..j] == [];
  }

  /** The nested step of `RunKeepsWellBracketed`. */
  lemma NestKeepsWellBracketed(r: Recorder, groupLabel: string, body: Script)
    requires WellBracketed(r.buffer) && WellBracketed(Run(Fresh, body).buffer)
    ensures WellBracketed(r.Nest(groupLabel, body).0.buffer)
  {
    var child := Run(Fresh, body).buffer;
    var res := r.Nest(groupLabel, body).0;
    if Final(body).Returned? {
      WellBracketedSplice(r.buffer, groupLabel, child);
    } else {
      assert res == r;
    }
  }

  /** Every recorded call keeps the parameter shape of its method. */
  ghost predicate AllWellShaped(b: seq<Entry>)
  {
    forall i :: 0 <= i < |b| ==> WellShaped(b[i])
  }

  lemma {:induction false} RunKeepsWellShaped(r: Recorder, s: Script)
    requires AllWellShaped(r.buffer)
    ensures AllWellShaped(Run(r, s).buffer)
    decreases s
  {
    match s
    case Settle(_) =>
    case Then(op, k) =>
      if op.AsyncGroupCall? {
        RunKeepsWellShaped(Fresh, op.body);
        RunKeepsWellShaped(r.Nest(op.groupLabel, op.body).0, k);
      } else {
        RunKeepsWellShaped(r.Apply(op), k);
      }
  }
}
