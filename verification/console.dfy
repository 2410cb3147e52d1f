/** The console as an ordered trace of method invocations. */
module Console {
  import opened Values
  import opened Wrappers

  /** The eleven console methods the recorder forwards. */
  datatype Method =
    | Log | Warn | Error | Debug | Info | Table | Trace | Assert | Time | TimeEnd | Dir

  /** One call on the console object: the method name and its arguments. */
  datatype Event = Invoke(name: string, args: seq<Value>)

  /** The console method a recorded call is replayed on. No recorded method
      shares its name with the bracket calls `group` and `groupEnd`. */
  function Name(m: Method): (name: string)
    ensures name != "group" && name != "groupEnd"
    ensures MethodOf(name) == Some(m)
  {
    match m
    case Log => "log"
    case Warn => "warn"
    case Error => "error"
    case Debug => "debug"
    case Info => "info"
    case Table => "table"
    case Trace => "trace"
    case Assert => "assert"
    case Time => "time"
    case TimeEnd => "timeEnd"
    case Dir => "dir"
  }

  /** The recorded method a console method name stands for, if any. */
  function MethodOf(name: string): (m: Option<Method>)
  {
    match name
    case "log" => Some(Log)
    case "warn" => Some(Warn)
    case "error" => Some(Error)
    case "debug" => Some(Debug)
    case "info" => Some(Info)
    case "table" => Some(Table)
    case "trace" => Some(Trace)
    case "assert" => Some(Assert)
    case "time" => Some(Time)
    case "timeEnd" => Some(TimeEnd)
    case "dir" => Some(Dir)
    case _ => None
  }

  /** `MethodOf` only recognises the names `Name` produces. */
  lemma MethodOfInvertsName(name: string)
    ensures MethodOf(name).Some? ==> Name(MethodOf(name).value) == name
  {
  }

  /** `console.group(groupLabel)` */
  function GroupCall(groupLabel: string): (ev: Event)
  {
    Invoke("group", [Str(groupLabel)])
  }

  /** `console.groupEnd()` */
  const GroupEndCall: Event := Invoke("groupEnd", [])

  /** `console[m](...args)` */
  function MethodCall(m: Method, args: seq<Value>): (ev: Event)
  {
    Invoke(Name(m), args)
  }

  /** Number of `console.group` calls in a trace. */
  function Opens(t: seq<Event>): (n: nat)
    ensures n <= |t|
  {
    if t == [] then 0 else Opens(t[..|t| - 1]) + (if t[|t| - 1].name == "group" then 1 else 0)
  }

  /** Number of `console.groupEnd` calls in a trace. */
  function Closes(t: seq<Event>): (n: nat)
    ensures n <= |t|
  {
    if t == [] then 0 else Closes(t[..|t| - 1]) + (if t[|t| - 1].name == "groupEnd" then 1 else 0)
  }

  /** Every group the trace opens is closed, and no prefix closes more
      groups than it has opened: the console's indentation returns to where
      it started and never goes below it. */
  ghost predicate Balanced(t: seq<Event>)
  {
    && Opens(t) == Closes(t)
    && forall k :: 0 <= k <= |t| ==> Closes(t[..k]) <= Opens(t[..k])
  }

  /** `console.group` opens one group and closes none; `console.groupEnd`
      the other way round. */
  lemma BracketCallCounts(groupLabel: string)
    ensures Opens([GroupCall(groupLabel)]) == 1 && Closes([GroupCall(groupLabel)]) == 0
    ensures Opens([GroupEndCall]) == 0 && Closes([GroupEndCall]) == 1
  {
  }

  lemma {:induction false} OpensAppend(a: seq<Event>, b: seq<Event>)
    ensures Opens(a + b) == Opens(a) + Opens(b)
    decreases |b|
  {
    if b == [] {
      assert a + b == a;
    } else {
      var b' := b[..|b| - 1];
      assert (a + b)[..|a + b| - 1] == a + b';
      OpensAppend(a, b');
    }
  }

  lemma {:induction false} ClosesAppend(a: seq<Event>, b: seq<Event>)
    ensures Closes(a + b) == Closes(a) + Closes(b)
    decreases |b|
  {
    if b == [] {
      assert a + b == a;
    } else {
      var b' := b[..|b| - 1];
      assert (a + b)[..|a + b| - 1] == a + b';
      ClosesAppend(a, b');
    }
  }
}
