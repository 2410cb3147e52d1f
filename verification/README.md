# better-console-group, modelled in Dafny

This project models the core of `better-console-group`. The library groups
console output under labelled `console.group`/`console.groupEnd` brackets,
and it keeps those brackets correct when the grouped code is asynchronous.

- **`AsyncConsoleGroup`** is the recorder (`recorder.dfy`, module
  `ConsoleGroup`). It is an immutable `Recorder(buffer, ended)`. Its eleven
  logging methods (`log`, `warn`, `error`, `debug`, `info`, `table`, `trace`,
  `assert`, `time`, `timeEnd`, `dir`) go through `#push`, which appends one
  entry `[method, ...params]` unless the recorder has ended. The nested
  `asyncGroup` runs a child recorder. On success it splices `['group', label]`,
  the child's entries and `['groupEnd']` into the parent buffer. `end()`
  seals the recorder and returns its buffer.
- **The exported `asyncGroup`** is in `replay.dfy`, module `Runner`. It runs the
  callback against a fresh recorder. Then, on both paths, it seals the
  recorder and replays the buffer onto the console inside one outer
  `group`/`groupEnd` pair. Finally it returns the callback's value or
  rethrows its error.
- **`betterGroup`** is in `bettergroup.dfy`, module `SyncGroup`. It is the
  unbuffered version: `console.group`, the callback, then `console.groupEnd`
  in a `finally`.

How the model represents each part:

- **Callbacks.** An async callback is represented by what it did once it
  settled, a `Script`. A script is the sequence of recorder calls it made,
  ending in `Returned(value)` or `Threw(error)`. A nested group call carries
  its own script.
- **Context.** A top-level callback is a function from the `this` it is
  invoked with to its script. `BindThis` models `thisArg ?? globalThis`.
- **The console.** The console is a trace of `Invoke(name, args)` events.
  `console.group(label)` is `Invoke("group", [Str(label)])`.
- **Other output.** `AsyncGroup` takes an `others` argument: the console
  output other code produces while the callback is pending. This lets the
  model state that the group's own output reaches the console only after
  the callback settles, in one contiguous block.
- **Reference definitions.** `Recorded` defines call by call what a script
  leaves in a live buffer, and `Run` performs the calls step by step.
  `Direct` gives the console calls the script would make with no buffering
  at all.

Where the code differs from what a reader might expect, the model follows
the code:

- A nested `asyncGroup` has no `finally`. When its callback throws, the
  child's entries are dropped and the error propagates. One might expect
  the splice to happen on both paths, as the top-level replay does; the
  code does not do that. `CaughtNestedThrowLosesOutput` shows a nested
  `log` vanishing this way.
- The splice after a nested callback writes straight to `#buffer`. It does
  not go through `#push`, so it also happens when the parent has already
  ended. One might expect an ended recorder to ignore a nested group as it
  ignores a `log`; the code does not. `Recorder.Nest` states the splice
  without any condition on `ended`, and `StaleRecorderScenario` shows it on
  an ended recorder.
- The five message methods always record their `message` slot. So `log()`
  is replayed as `log(undefined)`. In the same way `dir(v)` becomes
  `dir(v, undefined)` and `table(d)` becomes `table(d, undefined)`.

## Model

| member | source | states |
|---|---|---|
| Values.BindThis | src/betterGroup.ts:16 | the callback's `this` is `thisArg` unless it is undefined or null, in which case it is `globalThis`; never nullish |
| Console.Name | src/asyncGroup.ts:223-277 | each recorded method replays on the console method of the same name, which is never `group` or `groupEnd`, and the name maps back to the method |
| Entries.WellBracketedAppend | src/asyncGroup.ts:71-73 | concatenating two well-bracketed buffers stays well-bracketed |
| Entries.WellBracketedWrap | src/asyncGroup.ts:71-73 | `['group', label]` + well-bracketed child + `['groupEnd']` is well-bracketed |
| Entries.WellBracketedSplice | src/asyncGroup.ts:71-73 | splicing a well-bracketed child between `['group', label]` and `['groupEnd']` onto a well-bracketed buffer keeps it well-bracketed |
| ConsoleGroup.Recorder.Push | src/asyncGroup.ts:45-52 | appends exactly one entry `[method, ...params]` at the end unless ended; earlier entries and the ended flag unchanged |
| ConsoleGroup.Recorder.Log | src/asyncGroup.ts:83-85 | records `['log', message, ...optionalParams]` on a live recorder, nothing once ended; the ended flag is never changed, so a live recorder stays live |
| ConsoleGroup.Recorder.Warn | src/asyncGroup.ts:92-94 | records `['warn', message, ...optionalParams]` on a live recorder, nothing once ended; the ended flag is never changed, so a live recorder stays live |
| ConsoleGroup.Recorder.Error | src/asyncGroup.ts:101-103 | records `['error', message, ...optionalParams]` on a live recorder, nothing once ended; the ended flag is never changed, so a live recorder stays live |
| ConsoleGroup.Recorder.Debug | src/asyncGroup.ts:110-112 | records `['debug', message, ...optionalParams]` on a live recorder, nothing once ended; the ended flag is never changed, so a live recorder stays live |
| ConsoleGroup.Recorder.Info | src/asyncGroup.ts:119-121 | records `['info', message, ...optionalParams]` on a live recorder, nothing once ended; the ended flag is never changed, so a live recorder stays live |
| ConsoleGroup.Recorder.Table | src/asyncGroup.ts:128-130 | records both slots `['table', data, properties]`, the second even when omitted; the ended flag is never changed, so a live recorder stays live |
| ConsoleGroup.Recorder.Trace | src/asyncGroup.ts:136-138 | records exactly the given values, possibly none; the ended flag is never changed, so a live recorder stays live |
| ConsoleGroup.Recorder.Assert | src/asyncGroup.ts:146-152 | records condition and message slots, then the optional params; the ended flag is never changed, so a live recorder stays live |
| ConsoleGroup.Recorder.Time | src/asyncGroup.ts:158-160 | records exactly one label slot; the ended flag is never changed, so a live recorder stays live |
| ConsoleGroup.Recorder.TimeEnd | src/asyncGroup.ts:166-168 | records exactly one label slot; the ended flag is never changed, so a live recorder stays live |
| ConsoleGroup.Recorder.Dir | src/asyncGroup.ts:175-177 | records both slots, so `dir(v)` is recorded as `dir(v, undefined)`; the ended flag is never changed, so a live recorder stays live |
| ConsoleGroup.Recorder.Apply | src/asyncGroup.ts:83-177 | every logging method records exactly the entry `EntryOf` describes, or nothing once ended |
| ConsoleGroup.EntryOf | src/asyncGroup.ts:83-177 | the entry a logging call records always has its method's parameter shape |
| ConsoleGroup.Recorder.End | src/asyncGroup.ts:184-187 | the recorder is ended afterwards and the returned buffer is the buffer as it stood |
| ConsoleGroup.EndIsIdempotent | src/asyncGroup.ts:184-187 | calling `end()` a second time keeps the recorder ended and returns the same buffer |
| ConsoleGroup.Recorder.Splice | src/asyncGroup.ts:71-73 | old buffer, then `['group', label]`, the child's entries, `['groupEnd']`; the ended flag is neither consulted nor changed |
| ConsoleGroup.Recorder.Nest | src/asyncGroup.ts:62-76 | the nested callback runs on an empty child; on return the parent gains group + child + groupEnd and the value is returned; on throw the parent is unchanged and the same error propagates; regardless of the parent's ended flag |
| ConsoleGroup.Recorder.AsyncGroup | src/asyncGroup.ts:62-68 | as `Nest`, with the nested callback invoked on `thisArg ?? globalThis` |
| ConsoleGroup.Run | src/asyncGroup.ts:45-76 | running a callback's calls never changes the ended flag and never rewrites earlier entries |
| ConsoleGroup.RunRecords | src/asyncGroup.ts:45-76 | a live recorder's buffer grows by exactly the script's entries, in call order (nested groups spliced only when their callback returned) |
| ConsoleGroup.CallsAfterEndAreNoOps | src/asyncGroup.ts:49-51 | after `end()` any sequence of logging calls leaves the recorder unchanged |
| ConsoleGroup.RunKeepsWellBracketed | src/asyncGroup.ts:71-73 | pushes and nested splices keep the buffer well-bracketed (equal counts; no prefix closes more than it opens) |
| ConsoleGroup.RunKeepsWellShaped | src/asyncGroup.ts:128-177 | every recorded entry keeps its method's parameter shape |
| Runner.Translate | src/asyncGroup.ts:214-278 | each entry becomes the console call of the same name with identical arguments, and can be parsed back to the same entry |
| Runner.TranslateInvertsParse | src/asyncGroup.ts:214-278 | the parse accepts only console calls that replay some entry, so replay is a bijection onto them |
| Runner.TranslateAll | src/asyncGroup.ts:212-279 | one console call per entry, in buffer order |
| Runner.TranslateAllCounts | src/asyncGroup.ts:215-222 | replaying entries opens one console group per `['group', …]` and closes one per `['groupEnd']` |
| Runner.Replay | src/asyncGroup.ts:211-280 | `console.group(label)`, then each entry's call in order, then `console.groupEnd()` |
| Runner.ReplayRoundTrip | src/asyncGroup.ts:211-280 | the label and the whole buffer can be read back from the replayed trace |
| Runner.ParseAllInvertsTranslateAll | src/asyncGroup.ts:212-279 | any run of console calls that reads back as entries is exactly those entries' replay, so distinct buffers never replay alike |
| Runner.UnreplayInvertsReplay | src/asyncGroup.ts:211-280 | a trace that reads back as a label and a buffer is exactly that buffer's replay under that label |
| Runner.ReplayCounts | src/asyncGroup.ts:211-280 | the replay has one more `group` and one more `groupEnd` than the buffer |
| Runner.ReplayBalanced | src/asyncGroup.ts:211-280 | a well-bracketed buffer replays as a balanced console trace |
| Runner.ReplayLoop | src/asyncGroup.ts:209-280 | the `shift`-and-dispatch loop terminates with the buffer drained and produces exactly the replay trace |
| Runner.AsyncGroup | src/asyncGroup.ts:199-282 | nothing of the group reaches the console before the callback settles; then exactly the replay of the entries the callback recorded (`Recorded`, defined call by call): one contiguous, balanced block from `group(label)` to `groupEnd`, on both paths; the callback's value or error is passed through |
| SyncGroup.BetterGroup | src/betterGroup.ts:9-21 | `group(label)` first, then exactly the callback's own output, then one `groupEnd` last; value or error passed through; callback invoked on `thisArg ?? globalThis` |
| SyncGroup.BetterGroupAddsOnePair | src/betterGroup.ts:14-20 | exactly one extra `group` and one extra `groupEnd` on both the return and throw paths |
| Equivalence.RecordedReplaysAsDirect | src/asyncGroup.ts:190-198 | when no nested callback throws, replaying the recorded entries makes exactly the console calls, with the same arguments in the same order, that calling the console directly would |
| Equivalence.AsyncGroupMatchesBetterGroup | src/asyncGroup.ts:190-198 | without interleaved output or nested throws, `asyncGroup` makes exactly the console calls, with the same arguments in the same order, and returns exactly the outcome that `betterGroup` would over direct calls |
| Scenarios.FlatScenario | src/asyncGroup.ts:204-280 | `log("a")`, `warn("b")`, return "done" gives group, log, warn, groupEnd and returns "done" |
| Scenarios.NestedScenario | src/asyncGroup.ts:62-76 | a nested group with `error("x")` then outer `info("y")` gives group G, group N, error, groupEnd, info, groupEnd |
| Scenarios.NestedGroupCountsTwoPairs | src/__tests__/asyncGroup-tests.ts:201-212 | the nested test callback yields exactly two `group` and two `groupEnd` calls and returns its value |
| Scenarios.ExtendedMethodsScenario | src/__tests__/asyncGroup-tests.ts:149-160 | table, trace, assert, time, timeEnd replay with their arguments; `dir(v)` replays as `dir(v, undefined)` |
| Scenarios.ThrowingScenario | src/__tests__/asyncGroup-tests.ts:183-197 | a callback that logs then throws still has its calls replayed and closed, and the same error is rethrown |
| Scenarios.EmptyScenario | src/__tests__/asyncGroup-tests.ts:82-116 | `async () => {}` prints just group and groupEnd and returns undefined |
| Scenarios.ContextScenario | src/__tests__/asyncGroup-tests.ts:100-106 | the callback sees the supplied `thisArg`, and `globalThis` when it is omitted or null |
| Scenarios.CaughtNestedThrowLosesOutput | src/asyncGroup.ts:68-73 | a nested callback that logs then throws leaves nothing of the nested group on the console (only the outer bracket), unlike direct printing |
| Scenarios.StaleRecorderScenario | src/asyncGroup.ts:45-75 | on an ended recorder a log call is dropped but a nested group is still spliced in |
| Scenarios.BetterGroupScenario | src/__tests__/betterGroup-tests.ts:48-62 | the test callback's log lies between group and groupEnd and its value is returned |

## Left out

- Promises, `await` and event-loop scheduling. A callback is modelled by its settled script. Console output by other code while it is pending is the `others` argument of `Runner.AsyncGroup`.
- Nested groups that run concurrently, such as siblings started together with `Promise.all`, or a nested group left un-awaited so that it settles after its parent. A script runs nested groups one after another.
- Whether the outer callback catches a nested callback's error. The script simply records the calls the callback went on to make, if any.
- The identity semantics of `callbackFn.call(thisArg ?? globalThis, …)` beyond the nullish fallback. `this` is an ordinary value parameter. Nested groups inside a script carry their body as it ran, so there the model does not vary the body with `this`.
- The TypeScript type machinery `ConsoleMethodParams` / `Parameters<Console[Method]>`. All arguments are opaque `Value`s.
- The real `console` object, its formatting and its indentation. The console is an append-only trace of calls.
- Jest spies and mocks. The test files serve only as the source of the concrete scenarios.
- Aliasing between `end()` and the replay loop. `end()` returns the recorder's own `#buffer` array, and the top-level loop empties that array in place with `shift()`. So after `asyncGroup` the recorder holds nothing, and a later `end()` on it returns `[]`. In the model `End` returns the buffer as a value and `ReplayLoop` drains a local copy, so the recorder keeps its entries.
- A callback calling the public `end()` on its own recorder part-way through. A `Script` has no op for it. In the code, pushes after that point are dropped, while nested groups are still spliced in; `CallsAfterEndAreNoOps`, `Recorder.Nest` and `StaleRecorderScenario` state those two behaviours for a recorder that is already ended.
- When each console call takes effect. The recorded calls are made only at replay time, after the callback has settled, and the model compares call traces, not printed output. So what the console derives from the moment of the call is taken at replay: the duration a `time`/`timeEnd` pair reports (it measures the replay loop, not the awaited work between them), the stack `trace` prints (the replay loop's, not the caller's), and the printed state of an object argument (held by reference in the buffer, so changes made after `log(obj)` show up).
