# Attachment-gated delivery, modelled in Dafny

This project models the delivery layer of the Kotlin-Android-Boilerplate
presenter architecture. That layer is three RxJava `ObservableTransformer`s.
Each one couples a data stream with a boolean "view attached" stream and
relays the data to the consumer only while the view is attached:

- **DeliverLatest** passes values through live while attached. While detached
  it keeps only the latest value or error, and it holds a completion until the
  next attach.
- **DeliverFirst** is the same pipeline behind `take(1)`: only the first value
  (and then its completion), or the first error or completion, can be delivered.
- **DeliverReplay** records every notification of the data stream in a replay
  buffer from the moment of subscription. Each time the view attaches, the
  whole buffer is replayed from its start, followed by live notifications.

The input is one interleaved trace of `Event`s (`notifications.dfy`):

- `View(true)` / `View(false)`: the view attaches or detaches.
- `ViewComplete`: the attachment stream completes, i.e. the presenter is destroyed.
- `Source(n)`: the data stream signals a `Notification`, which is `Next(v)`, `Error` or `Complete`.
- `Cancel`: the consumer disposes the output.

The output is the sequence of `Notification`s that reach the consumer. This
plays the part of `materialize`/`dematerialize`. `WellFormed` is the stream
contract: a terminal notification, if there is one, comes last.

The model is built as follows:

- DeliverLatest and DeliverFirst hold no fields of their own. Each is an
  expression over operators whose hidden state is what `combineLatest` caches,
  the completion held by `delay`, and whether `dematerialize` has ended the
  output.
  - `deliver_latest.dfy` models that state as the value `Gate`. `Step` handles
    one event and `Run` folds `Step` over a trace.
  - `deliver_first.dfy` puts `take(1)` in front of the same gate (`StepFirst`,
    `RunFirst`). `FirstIsLatestOfTakeOne` proves that this equals DeliverLatest
    run on a data stream cut down by `take(1)`.
  - The "first already taken" state needs no flag of its own. Once `take(1)`
    has completed, the gate counts the data stream as ended.
- DeliverReplay changes state through callbacks, so `deliver_replay.dfy` models
  it as the class `Replay`.
  - Its fields are the subject's buffer, the switch's current view report, and
    three flags: the view stream has completed, the observer has been disposed,
    and the output has ended.
  - It has one method per callback (`OnView`, `OnViewComplete`, `OnSource`,
    `OnCancel`). `OnEvent` dispatches to them, and `Feed` hands a whole trace to
    `OnEvent`.
  - Ghost fields record everything delivered, and what was delivered since the
    latest attach. The invariant `Valid` ties these ghost fields to the buffer.
  - The callbacks together are also stated as the pure step function `React`
    on the value `Core`, folded by `ReactAll`. Each callback, `OnEvent` and
    `Feed` is proved to change the object exactly as `React` or `ReactAll`
    says; the ghost fields are stated beside that.
  - The properties over whole traces are proved as lemmas about `ReactAll`.
    They are then restated for a fresh subscription by the methods
    `Subscribe`, `Run`, `ReplayOnAttach`, `LiveAfterAttach` and
    `QuietAfterDetach`.
  - The buffer is also given an independent reference definition: `Recorded`
    cuts the trace at the first `Cancel`, keeps the data-stream notifications,
    and keeps those up to the first terminal one.

The attachment stream comes from the presenter's `BehaviorSubject`
(`RxPresenter.kt:17`, `:54`), which replays its latest value to late
subscribers. The model relies on this in DeliverLatest and DeliverFirst:

- The completion that `view.filter { it }.first()` holds back is released by
  the next `View(true)`.
- A completion that arrives while the view is already attached, and the view
  stream has not completed, is released at once.

Two behaviours of the code are easy to miss, and the model follows the code
in both:

- **DeliverReplay: completion.** `switchMap` completes only once the
  attachment stream itself has completed. A recorded completion therefore
  reaches the consumer only after `ViewComplete`, not right after the replayed
  history. Until then, a replay ends the inner subscription but not the output
  (`Replayed`). The unit tests see a completion because their `just(true)`
  attachment streams complete right after emitting.
- **View stream completes before emitting.** Both `combineLatest` and
  `switchMap` complete when the attachment stream completes without having
  emitted, and so does `combineLatest` when both of its inputs have ended. An
  output can therefore complete although the view never attached. The model
  emits that completion (`Step`, `React`), and the silence lemmas name this
  exception.

In the unit tests, the data stream is subscribed in `doOnSubscribe`, before
the view stream delivers its value. A `just(true)` test is therefore modelled
as the data stream's signals, then `View(true)`, then `ViewComplete`.

## Model

| member | source | states |
|---|---|---|
| DeliverLatest.Step | app/src/main/kotlin/io/github/plastix/kotlinboilerplate/ui/base/rx/delivery/DeliverLatest.kt:30-47 | One input event on the gate. It has no contract of its own; `TerminalIsFinal`, `LiveWhileAttached`, `SilentUntilAttached`, `DetachedRun`, `ReleasedOnAttach` and `ClosedIgnoresSource` state its properties over traces. |
| DeliverLatest.Offer | app/src/main/kotlin/io/github/plastix/kotlinboilerplate/ui/base/rx/delivery/DeliverLatest.kt:44-47 | combineLatest caching a data-side notification and passing it on while the flag is true. No contract of its own; stated through `Step` by `LiveWhileAttached` and `DetachedRun`. |
| DeliverLatest.Reattach | app/src/main/kotlin/io/github/plastix/kotlinboilerplate/ui/base/rx/delivery/DeliverLatest.kt:34-44 | A true report: the cached notification is re-emitted, then a held completion is released. No contract of its own; stated by `ReleasedOnAttach`, `ClosedHeldUntilAttach` and `RedeliveredOnReattach`. |
| DeliverLatest.Run | app/src/main/kotlin/io/github/plastix/kotlinboilerplate/ui/base/rx/delivery/DeliverLatest.kt:29-48 | `Step` folded over a trace. No contract of its own; every `DeliverLatest` lemma in this table is about it. |
| DeliverLatest.TerminalIsFinal | app/src/main/kotlin/io/github/plastix/kotlinboilerplate/ui/base/rx/delivery/DeliverLatest.kt:46-47 | From any gate, the output obeys the stream contract. A terminal notification leaves the gate ended, and an ended gate emits nothing more. |
| DeliverLatest.NothingAfterTerminal | app/src/main/kotlin/io/github/plastix/kotlinboilerplate/ui/base/rx/delivery/DeliverLatest.kt:47 | Once the output has emitted an error or a completion, no later events add anything. |
| DeliverLatest.LiveWhileAttached | app/src/main/kotlin/io/github/plastix/kotlinboilerplate/ui/base/rx/delivery/DeliverLatest.kt:12-13 | While attached and before the view stream completes, any well-formed data stream is delivered exactly as sent, in order. A terminal notification ends the gate; otherwise the last value stays cached. |
| DeliverLatest.SilentUntilAttached | app/src/main/kotlin/io/github/plastix/kotlinboilerplate/ui/base/rx/delivery/DeliverLatest.kt:15-16 | While the view neither reports true nor completes, nothing is emitted, whatever the data stream does. |
| DeliverLatest.DetachedRun | app/src/main/kotlin/io/github/plastix/kotlinboilerplate/ui/base/rx/delivery/DeliverLatest.kt:33-46 | A detached stretch emits nothing. Afterwards the gate caches the latest value or error, and holds a completion exactly when the data stream completed. |
| DeliverLatest.ReleasedOnAttach | app/src/main/kotlin/io/github/plastix/kotlinboilerplate/ui/base/rx/delivery/DeliverLatest.kt:15-23 | The documented rules together: the attach after a detached stretch emits `Released`. That is the latest value or error (or the one cached before), then the completion if the data stream completed. |
| DeliverLatest.CoalescedOnAttach | app/src/main/kotlin/io/github/plastix/kotlinboilerplate/ui/base/rx/delivery/DeliverLatest.kt:21-22 | Several values produced while detached: the attach delivers only the last one. |
| DeliverLatest.ErrorHeldUntilAttach | app/src/main/kotlin/io/github/plastix/kotlinboilerplate/ui/base/rx/delivery/DeliverLatest.kt:18 | An error produced while detached, after any values, is all that the attach delivers, and nothing follows it. |
| DeliverLatest.CompletedWhileDetached | app/src/main/kotlin/io/github/plastix/kotlinboilerplate/ui/base/rx/delivery/DeliverLatest.kt:19-20 | Values then a completion while detached: the attach delivers the last value, then the completion. |
| DeliverLatest.ReleasedAfterValues | app/src/main/kotlin/io/github/plastix/kotlinboilerplate/ui/base/rx/delivery/DeliverLatest.kt:18-20 | What the rules release for values followed by an error (the error alone) or by a completion (the last value, then the completion). |
| DeliverLatest.RedeliveredOnReattach | app/src/main/kotlin/io/github/plastix/kotlinboilerplate/ui/base/rx/delivery/DeliverLatest.kt:30-44 | Values delivered live, then a detach and a reattach: the reattach delivers the last value a second time. |
| DeliverLatest.NoSourceNoOutput | app/src/main/kotlin/io/github/plastix/kotlinboilerplate/ui/base/rx/delivery/DeliverLatest.kt:30-45 | A data stream that never signals gives no output. The one exception is a bare completion when the view stream completes before emitting. |
| DeliverLatest.NoSourceSilent | app/src/main/kotlin/io/github/plastix/kotlinboilerplate/ui/base/rx/delivery/DeliverLatest.kt:30-47 | The same from subscription. When the view stream starts with a report, as the presenter's does, the output is silent. |
| DeliverLatest.ClosedIgnoresSource | app/src/main/kotlin/io/github/plastix/kotlinboilerplate/ui/base/rx/delivery/DeliverLatest.kt:33-43 | Once the data stream has ended, dropping its further signals from the trace changes nothing. |
| DeliverLatest.ClosedReleases | app/src/main/kotlin/io/github/plastix/kotlinboilerplate/ui/base/rx/delivery/DeliverLatest.kt:34-46 | After the data stream has ended while detached, the output is nothing, a bare completion, or exactly what the gate holds. |
| DeliverLatest.ClosedHeldUntilAttach | app/src/main/kotlin/io/github/plastix/kotlinboilerplate/ui/base/rx/delivery/DeliverLatest.kt:34-44 | After the data stream has ended while detached, the next attach delivers what the gate holds and ends the output. |
| DeliverLatest.OnlyLastAfterDetach | app/src/main/kotlin/io/github/plastix/kotlinboilerplate/ui/base/rx/delivery/DeliverLatest.kt:21-22 | Detach, then values 0, 1, 2, then attach: the output is exactly `[Next(2)]`. |
| DeliverLatest.ErrorWhenViewAttaches | app/src/unitTests/kotlin/io/github/plastix/kotlinboilerplate/ui/base/rx/delivery/DeliverReplayTest.kt:239-254 | A data-stream error before the delayed attach is delivered on attach, and is the whole output. |
| DeliverFirst.StepFirst | app/src/main/kotlin/io/github/plastix/kotlinboilerplate/ui/base/rx/delivery/DeliverFirst.kt:21 | One input event with take(1) in front of the gate. No contract of its own; `FirstIsLatestOfTakeOne` relates it to `DeliverLatest.Step`. |
| DeliverFirst.RunFirst | app/src/main/kotlin/io/github/plastix/kotlinboilerplate/ui/base/rx/delivery/DeliverFirst.kt:16-39 | `StepFirst` folded over a trace. No contract of its own; every `DeliverFirst` lemma in this table is about it. |
| DeliverFirst.TakeOne | app/src/main/kotlin/io/github/plastix/kotlinboilerplate/ui/base/rx/delivery/DeliverFirst.kt:21 | take(1) as a cut of the trace: the first value, a completion, and no later data-stream signal. No contract of its own; used by `FirstIsLatestOfTakeOne`. |
| DeliverFirst.Taken | app/src/main/kotlin/io/github/plastix/kotlinboilerplate/ui/base/rx/delivery/DeliverFirst.kt:21 | What take(1) makes of a first notification. No contract of its own; used by `OnlyTheFirst`, `HeldUntilAttach` and `AttachedTakesFirst`. |
| DeliverFirst.FirstIsLatestOfTakeOne | app/src/main/kotlin/io/github/plastix/kotlinboilerplate/ui/base/rx/delivery/DeliverFirst.kt:17-38 | DeliverFirst on any trace equals DeliverLatest on the trace cut down by `take(1)`: the first value, its completion, and no later data-stream signal. |
| DeliverFirst.FirstClosed | app/src/main/kotlin/io/github/plastix/kotlinboilerplate/ui/base/rx/delivery/DeliverFirst.kt:21 | Once the data stream has ended, `take(1)` in front of the gate makes no difference. |
| DeliverFirst.OnlyTheFirst | app/src/main/kotlin/io/github/plastix/kotlinboilerplate/ui/base/rx/delivery/DeliverFirst.kt:20-21 | From a gate with nothing cached or held, the output is nothing, a bare completion, or what `take(1)` makes of the first data-stream signal (`Taken`). |
| DeliverFirst.OnlyTheFirstFromSubscription | app/src/main/kotlin/io/github/plastix/kotlinboilerplate/ui/base/rx/delivery/DeliverFirst.kt:20-21 | The same from subscription. Any value in the output is the data stream's first notification. |
| DeliverFirst.SilentUntilAttachedFirst | app/src/main/kotlin/io/github/plastix/kotlinboilerplate/ui/base/rx/delivery/DeliverFirst.kt:18-37 | While the view neither reports true nor completes, nothing at all is emitted, not even a completion. |
| DeliverFirst.HeldUntilAttach | app/src/main/kotlin/io/github/plastix/kotlinboilerplate/ui/base/rx/delivery/DeliverFirst.kt:22-35 | The first value, error or completion that arrives while detached is held. The next attach delivers exactly `Taken` of it: a value is followed by its completion. |
| DeliverFirst.AttachedTakesFirst | app/src/main/kotlin/io/github/plastix/kotlinboilerplate/ui/base/rx/delivery/DeliverFirst.kt:17-38 | While attached and before the view stream completes, the output for a data stream is exactly `Taken` of its first notification. |
| DeliverFirst.NoSourceSilentFirst | app/src/main/kotlin/io/github/plastix/kotlinboilerplate/ui/base/rx/delivery/DeliverFirst.kt:18-35 | A data stream that never signals gives no output, except a bare completion when the view stream completes first. When the view stream starts with a report, the output is silent. |
| DeliverFirst.TerminalIsFinalFirst | app/src/main/kotlin/io/github/plastix/kotlinboilerplate/ui/base/rx/delivery/DeliverFirst.kt:38 | The output obeys the stream contract: nothing follows an error or completion. |
| DeliverFirst.FirstOfThreeWhileAttached | app/src/main/kotlin/io/github/plastix/kotlinboilerplate/ui/base/rx/delivery/DeliverFirst.kt:17-38 | Attached, then data 0, 1, 2 and completion: the output is exactly `[Next(0), Complete]`. |
| DeliverReplay.Recorded | app/src/main/kotlin/io/github/plastix/kotlinboilerplate/ui/base/rx/delivery/DeliverReplay.kt:14-28 | Reference definition of the subject's history. No contract of its own; `RecordTraceIsRecorded` proves the event-by-event buffer equal to it, and `RecordedAppend` and `RecordedSources` state how it grows. |
| DeliverReplay.RecordEvent | app/src/main/kotlin/io/github/plastix/kotlinboilerplate/ui/base/rx/delivery/DeliverReplay.kt:16-28 | The forwarding observer handling one event. No contract of its own; stated by `RecordTraceIsRecorded`. |
| DeliverReplay.RecordTrace | app/src/main/kotlin/io/github/plastix/kotlinboilerplate/ui/base/rx/delivery/DeliverReplay.kt:16-28 | `RecordEvent` folded over a trace. No contract of its own; `RecordTraceIsRecorded` proves it equal to `Recorded`. |
| DeliverReplay.React | app/src/main/kotlin/io/github/plastix/kotlinboilerplate/ui/base/rx/delivery/DeliverReplay.kt:16-36 | The callbacks as one pure step. No contract of its own; the callbacks and `OnEvent` are proved to change the object exactly as it says. |
| DeliverReplay.ReactAll | app/src/main/kotlin/io/github/plastix/kotlinboilerplate/ui/base/rx/delivery/DeliverReplay.kt:16-36 | `React` folded over a trace. No contract of its own; `Feed` is proved to follow it, and `ReactAllRecords`, `ReactAllClosed`, `ReactAllSources` and `ReactAllNoAttach` state its properties. |
| DeliverReplay.Replayed | app/src/main/kotlin/io/github/plastix/kotlinboilerplate/ui/base/rx/delivery/DeliverReplay.kt:30-32 | What one subscription to the buffer delivers: the whole buffer, or the buffer without a trailing completion while the view stream is live. |
| DeliverReplay.UpToTerminalWellFormed | app/src/main/kotlin/io/github/plastix/kotlinboilerplate/ui/base/rx/delivery/DeliverReplay.kt:14-28 | What the subject keeps of a stream obeys the stream contract. |
| DeliverReplay.UpToTerminalAppend | app/src/main/kotlin/io/github/plastix/kotlinboilerplate/ui/base/rx/delivery/DeliverReplay.kt:14-28 | The subject's cut at the first terminal notification over a concatenation: whatever follows an ended prefix is dropped, otherwise the rest is cut in turn. |
| DeliverReplay.RecordedAppend | app/src/main/kotlin/io/github/plastix/kotlinboilerplate/ui/base/rx/delivery/DeliverReplay.kt:33-34 | After a `Cancel` the buffer never changes again. Before one, it takes in the later data-stream notifications, up to the end of the stream. |
| DeliverReplay.RecordedSources | app/src/main/kotlin/io/github/plastix/kotlinboilerplate/ui/base/rx/delivery/DeliverReplay.kt:16-28 | While not disposed, the buffer appends the data stream's notifications in arrival order, up to the first terminal one. |
| DeliverReplay.RecordTraceIsRecorded | app/src/main/kotlin/io/github/plastix/kotlinboilerplate/ui/base/rx/delivery/DeliverReplay.kt:16-36 | The buffer built one event at a time equals the reference definition, whatever the attachment stream does. |
| DeliverReplay.ReplayedEnds | app/src/main/kotlin/io/github/plastix/kotlinboilerplate/ui/base/rx/delivery/DeliverReplay.kt:30-32 | A replay ends the consumer's stream exactly when the buffer has ended, and with a completion only once the view stream has completed. The replay obeys the stream contract. |
| DeliverReplay.ErrorEndsHistory | app/src/unitTests/kotlin/io/github/plastix/kotlinboilerplate/ui/base/rx/delivery/DeliverReplayTest.kt:256-313 | Values, an error and anything after it: the subject keeps the values and the error, and a replay delivers exactly those. |
| DeliverReplay.ReactAllRecords | app/src/main/kotlin/io/github/plastix/kotlinboilerplate/ui/base/rx/delivery/DeliverReplay.kt:16-36 | After a trace: disposed exactly when a `Cancel` occurred, the view done exactly when a `ViewComplete` occurred (or either was so already), and the buffer as the observer fed it. |
| DeliverReplay.ReactAllClosed | app/src/main/kotlin/io/github/plastix/kotlinboilerplate/ui/base/rx/delivery/DeliverReplay.kt:30-34 | Once the output has ended, it stays ended and nothing more reaches the consumer. |
| DeliverReplay.ReactAllSources | app/src/main/kotlin/io/github/plastix/kotlinboilerplate/ui/base/rx/delivery/DeliverReplay.kt:30-32 | Data-stream signals leave the switch where it is. Unless attached, they reach the consumer not at all. |
| DeliverReplay.ReactAllNoAttach | app/src/main/kotlin/io/github/plastix/kotlinboilerplate/ui/base/rx/delivery/DeliverReplay.kt:30-32 | Without an attach, nothing reaches the consumer. The one exception is a bare completion when the view stream completes before reporting anything. |
| DeliverReplay.Replay.constructor | app/src/main/kotlin/io/github/plastix/kotlinboilerplate/ui/base/rx/delivery/DeliverReplay.kt:14-28 | Subscription starts from an empty buffer, with no view report, nothing delivered, and the invariant established. |
| DeliverReplay.Replay.OnView | app/src/main/kotlin/io/github/plastix/kotlinboilerplate/ui/base/rx/delivery/DeliverReplay.kt:30-32 | Changes the object exactly as `React` on `View`. That step ignores the report once the output ended or the view stream is done. Otherwise it records the report; true replays the buffer (`Replayed`) as a new session and ends the output exactly when that replay ends, false delivers nothing. The buffer is unchanged. |
| DeliverReplay.Replay.OnViewComplete | app/src/main/kotlin/io/github/plastix/kotlinboilerplate/ui/base/rx/delivery/DeliverReplay.kt:30-32 | Changes the object exactly as `React` on `ViewComplete`. That step marks the view stream done and completes the output when no report ever came, or when the last report was true and the buffer ends with a completion. Otherwise it delivers nothing. |
| DeliverReplay.Replay.OnSource | app/src/main/kotlin/io/github/plastix/kotlinboilerplate/ui/base/rx/delivery/DeliverReplay.kt:16-28 | Changes the object exactly as `React` on `Source`. That step appends the signal to the buffer unless the observer is disposed or the buffer has ended (as `RecordEvent` does). The signal reaches the consumer only while attached and the output is open, and a completion only once the view stream is done. The output ends exactly when an error or completion is delivered. |
| DeliverReplay.Replay.OnCancel | app/src/main/kotlin/io/github/plastix/kotlinboilerplate/ui/base/rx/delivery/DeliverReplay.kt:33-34 | Changes the object exactly as `React` on `Cancel`: the observer is disposed and the output ended, and nothing else changes. |
| DeliverReplay.Replay.OnEvent | app/src/main/kotlin/io/github/plastix/kotlinboilerplate/ui/base/rx/delivery/DeliverReplay.kt:16-36 | One event: the new state and what is delivered are exactly `React` of the old state. |
| DeliverReplay.Replay.Feed | app/src/main/kotlin/io/github/plastix/kotlinboilerplate/ui/base/rx/delivery/DeliverReplay.kt:16-36 | A trace: the new state and what is delivered are exactly `ReactAll` of the old state. A trace of data-stream signals only extends the current session by what it delivers. |
| DeliverReplay.Subscribe | app/src/main/kotlin/io/github/plastix/kotlinboilerplate/ui/base/rx/delivery/DeliverReplay.kt:35-36 | A fresh subscription fed a trace. The buffer is `Recorded(t)`, independent of the attachment stream; the disposed and view-done flags follow the trace; data alone delivers nothing; without an attach only an early view completion is delivered. |
| DeliverReplay.Run | app/src/main/kotlin/io/github/plastix/kotlinboilerplate/ui/base/rx/delivery/DeliverReplay.kt:14-36 | For a whole trace, the consumer's stream obeys the stream contract, and the final buffer is the reference `Recorded`. Without an attach nothing is delivered, apart from an early view completion. |
| DeliverReplay.ReplayOnAttach | app/src/main/kotlin/io/github/plastix/kotlinboilerplate/ui/base/rx/delivery/DeliverReplay.kt:30-32 | Every attach replays the whole recorded history from its start, including values delivered by an earlier attach. The exceptions are an ended output, disposal, or a completed view stream. |
| DeliverReplay.LiveAfterAttach | app/src/main/kotlin/io/github/plastix/kotlinboilerplate/ui/base/rx/delivery/DeliverReplay.kt:30-32 | After an attach, the replay followed by the live notifications is exactly the replay of the longer history. |
| DeliverReplay.QuietAfterDetach | app/src/main/kotlin/io/github/plastix/kotlinboilerplate/ui/base/rx/delivery/DeliverReplay.kt:32 | After a detach, nothing reaches the consumer until the next attach, whatever else happens. |
| DeliverReplay.DeliveredOnceAttached | app/src/unitTests/kotlin/io/github/plastix/kotlinboilerplate/ui/base/rx/delivery/DeliverReplayTest.kt:25-65 | Values and a completion recorded before the attach: the output is exactly the values, then the completion once the view stream completes. With no values this is the completion test. |
| DeliverReplay.NothingWhileDetached | app/src/unitTests/kotlin/io/github/plastix/kotlinboilerplate/ui/base/rx/delivery/DeliverReplayTest.kt:67-143 | With `just(false)`, and with a view stream that never reports, the output is empty for any data stream. |
| DeliverReplay.ErrorEndsReplay | app/src/unitTests/kotlin/io/github/plastix/kotlinboilerplate/ui/base/rx/delivery/DeliverReplayTest.kt:256-313 | Values, an error and anything after it, then an attach: the output is exactly the values, then the error. |
| DeliverReplay.ReplayedOnEveryAttach | app/src/main/kotlin/io/github/plastix/kotlinboilerplate/ui/base/rx/delivery/DeliverReplay.kt:30-32 | Attach, detach, attach over a completed history while the view stream lives: the values are delivered twice, and the output stays open. |

## Left out

- Schedulers, threads and timed delays are not modelled. The trace's order of events stands for them, so a delayed `just(true)` becomes a `View(true)` later in the trace.
- `RxPresenter` is lifecycle glue and is not modelled. Only its convention for the attachment stream is used: it starts at false, bind and unbind emit true and false, destruction completes it, and it replays its latest value.
- DeliverLatest.Step: the library's `first()` behaviour on a view stream that has already completed, or that completes while a completion is held, is not modelled: neither the code nor its tests pin it down. A completion (for DeliverFirst, the first value and take(1)'s completion) that arrives after the view stream completed is released at once when the last report was true and held for good when it was false; a completion already held when the view stream completes stays held. The model's outcome in these cases is not a claim about the library. `LiveWhileAttached` and `AttachedTakesFirst` therefore promise the live release only while the view stream has not completed.
- Subscribing the same transformer output more than once is not modelled. It would share one subject and one observer, and no test specifies it.
- Error payloads are not modelled: the `Throwable` is opaque, so `Error` carries nothing.
- DeliverFirst and DeliverLatest model disposal only as ending the output. How `combineLatest` propagates disposal to its inputs is not modelled.
- What DeliverReplay's observer does after disposal is modelled: it stops feeding the buffer. Releasing the upstream subscription is a resource effect and is not modelled.
- The Rx operators' internals (`combineLatest`, `switchMap`, `ReplaySubject`, the `delay` built on `flatMap`) are not modelled. Only their observable effect at the level of events is.
