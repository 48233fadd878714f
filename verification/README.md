# ViewsWaiter broadcaster, modelled in Dafny

`ViewsWaiter<T>` is a small publish/subscribe bus. It is built on one RxJava
`PublishSubject` of `BroadcasterMessage<T>`, a pair of a channel key and a
value. Plain `emit(value)` tags the value with the default key `""`.
`channel(name).emit(value)` tags it with `name`. The public `stream()`
ignores the key and hands over every value. A channel's `stream()` keeps only
the messages whose key is exactly that channel's name, then strips the key.
`channel(name)` returns a handle that holds nothing but the name and a
reference back to the same broadcaster.

The model has three modules:

- `Routing` (`routing.dfy`): the tagged `Message`, the default key, the
  subscription `Filter` (`Global` for `stream()`, `Named(name)` for a
  channel), `Accepts` and `Deliver`. `Accepts` is the `filter { it.key == channel }`
  test of ViewsWaiter.kt:30 (always true for `stream()` at ViewsWaiter.kt:20).
  `Deliver` is the reference projection: the filter followed by
  `map { it.value }` (ViewsWaiter.kt:20 and 29-31), turning a run of
  messages into what a subscription receives. Lemmas characterise it
  completely: it distributes over concatenation, it passes everything to
  `Global`, and it passes exactly the messages keyed `name` to `Named(name)`.
- `ViewsWaiter` (`viewswaiter.dfy`): the broadcaster state and its
  operations. The state is an append-only `log` of the messages pushed into
  the subject, plus the live observers. Each observer has a filter, the log
  length when it subscribed, and the inbox of values it has received.
  `Publish` is the subject's `onNext`: it appends the message to the log and
  synchronously appends its value to the inbox of every current observer
  whose filter accepts it. `Valid` ties this push model to the reference
  model: each inbox equals `Deliver` of the log suffix since that observer
  subscribed. The log is a record of history for the proofs. The subject
  itself retains nothing, which is why a late subscriber's suffix starts at
  its own subscription.
- `Scenarios` (`scenarios.dfy`): arbitrary runs of client calls (`emit`,
  `channel(name).emit`, `stream().subscribe(…)`,
  `channel(name).stream().subscribe(…)`). Each call is one atomic step. Each
  subscription's end result is stated against a reference computed from the
  run alone: all emitted values, or the values belonging to one channel.

A channel handle is the value `Channel(name)`. Its operations take the
broadcaster as a parameter, so creating a handle changes no state. In Kotlin
every `channel(name)` call returns a distinct object; the model represents
them all by one value, which is sound because the handle's `stream()` and
`emit` use only `name` (ViewsWaiter.kt:41-42).

A subscribe step models subscribing to the Observable that `stream()` or
`channel(name).stream()` returns. Building that Observable attaches nothing:
the observer joins the subject only at `subscribe`.

## Model

| member | source | states |
|---|---|---|
| Routing.DeliverGlobal | views-waiter/src/main/java/org/cookpad/views_waiter/ViewsWaiter.kt:20 | the global projection hands over the value of every message, in order, whatever its key |
| Routing.DeliverConcat | views-waiter/src/main/java/org/cookpad/views_waiter/ViewsWaiter.kt:14-15 | delivery over one shared stream keeps emission order: the delivery of a concatenated run is the concatenation of the deliveries |
| Routing.DeliverSnoc | views-waiter/src/main/java/org/cookpad/views_waiter/ViewsWaiter.kt:29-31 | one more message extends a subscription's delivery by its value exactly when the filter accepts its key, and otherwise leaves it unchanged |
| Routing.DeliverNamedCount | views-waiter/src/main/java/org/cookpad/views_waiter/ViewsWaiter.kt:29-31 | a channel receives exactly as many values as there are messages carrying its name |
| Routing.DeliverAllOnChannel | views-waiter/src/main/java/org/cookpad/views_waiter/ViewsWaiter.kt:29-31 | messages keyed with a channel's name reach it unmodified and in order |
| Routing.DeliverNoneOnChannel | views-waiter/src/main/java/org/cookpad/views_waiter/ViewsWaiter.kt:30 | messages with any other key never reach the channel |
| Routing.DeliverNamedSound | views-waiter/src/main/java/org/cookpad/views_waiter/ViewsWaiter.kt:29-31 | every value a channel receives comes from a message that carried the channel's name and that value |
| ViewsWaiter.Create | views-waiter/src/main/java/org/cookpad/views_waiter/ViewsWaiter.kt:12-15 | a new broadcaster has an empty history, no observers, and satisfies the invariant |
| ViewsWaiter.Subscribe | views-waiter/src/main/java/org/cookpad/views_waiter/ViewsWaiter.kt:14-15 | subscribing appends one observer with an empty inbox that starts at the current end of the history, so the PublishSubject replays nothing; existing observers and the history are unchanged; the invariant is kept |
| ViewsWaiter.Stream | views-waiter/src/main/java/org/cookpad/views_waiter/ViewsWaiter.kt:20 | subscribing to the Observable of `stream()` attaches a key-ignoring observer with nothing received, at the current end of the history |
| ViewsWaiter.ChannelStream | views-waiter/src/main/java/org/cookpad/views_waiter/ViewsWaiter.kt:41 | subscribing to a channel's `stream()` attaches an observer filtered on exactly the channel's name, with nothing received, at the current end of the history |
| ViewsWaiter.OpenChannel | views-waiter/src/main/java/org/cookpad/views_waiter/ViewsWaiter.kt:40 | `channel(name)` yields a handle bound to `name` and takes no broadcaster state |
| ViewsWaiter.Publish | views-waiter/src/main/java/org/cookpad/views_waiter/ViewsWaiter.kt:14 | `onNext` appends the message to the history and appends its value to the inbox of every current observer whose filter accepts it; no observer is added or removed |
| ViewsWaiter.OfferKeepsTracks | views-waiter/src/main/java/org/cookpad/views_waiter/ViewsWaiter.kt:14-15 | an observer that matched the reference delivery still matches it after a message is offered |
| ViewsWaiter.PublishKeepsValid | views-waiter/src/main/java/org/cookpad/views_waiter/ViewsWaiter.kt:14-15 | pushing a message preserves the push/reference agreement for every observer |
| ViewsWaiter.EmitOn | views-waiter/src/main/java/org/cookpad/views_waiter/ViewsWaiter.kt:33-35 | the private `emit(value, channel)` appends exactly one message with that key and value, and routes the value to accepting observers only |
| ViewsWaiter.Emit | views-waiter/src/main/java/org/cookpad/views_waiter/ViewsWaiter.kt:25-27 | plain `emit` appends exactly one message, keyed `""` and carrying the value unchanged; observers keep filter and start and gain the value only if they accept `""`; the invariant is kept |
| ViewsWaiter.ChannelEmit | views-waiter/src/main/java/org/cookpad/views_waiter/ViewsWaiter.kt:42 | `channel(name).emit` appends exactly one message keyed `name` carrying the value; only observers accepting `name` gain it |
| Scenarios.RunLog | views-waiter/src/main/java/org/cookpad/views_waiter/ViewsWaiter.kt:14-15 | a run of calls grows the subject's history by exactly the messages the run emits, in order, and by nothing else |
| Scenarios.RunKeepsObserver | views-waiter/src/main/java/org/cookpad/views_waiter/ViewsWaiter.kt:14-15 | through a run, an observer already attached keeps its place, filter and start, and keeps matching the reference delivery |
| Scenarios.ApplyKeepsObserver | views-waiter/src/main/java/org/cookpad/views_waiter/ViewsWaiter.kt:14-15 | one call (emit, channel emit or subscribe) keeps an attached observer's place, filter and start, and keeps it matching the reference delivery |
| Scenarios.ReachableIsValid | views-waiter/src/main/java/org/cookpad/views_waiter/ViewsWaiter.kt:14-20 | after any run of calls from a fresh broadcaster, every subscription has received exactly the filtered, key-stripped history since it subscribed |
| Scenarios.RunValid | views-waiter/src/main/java/org/cookpad/views_waiter/ViewsWaiter.kt:14-15 | every run of calls preserves the push/reference agreement |
| Scenarios.ObserverAfterRun | views-waiter/src/main/java/org/cookpad/views_waiter/ViewsWaiter.kt:14-15 | over a run, an existing observer gains exactly what its filter accepts of the run's emissions, after what it already had |
| Scenarios.SubscriberReceives | views-waiter/src/main/java/org/cookpad/views_waiter/ViewsWaiter.kt:14-15 | a new subscription receives exactly what its filter accepts of the emissions made after it subscribed |
| Scenarios.GlobalStreamReceivesAll | views-waiter/src/main/java/org/cookpad/views_waiter/ViewsWaiter.kt:14-20 | a subscriber of `stream()` receives every value emitted after it subscribed, by plain `emit` or by any channel, in emission order |
| Scenarios.PlainEmitsArriveInOrder | views-waiter/src/main/java/org/cookpad/views_waiter/ViewsWaiter.kt:20-27 | a `stream()` subscriber attached before `emit(v1) … emit(vn)` receives exactly `[v1, …, vn]` |
| Scenarios.ChannelStreamReceivesExactly | views-waiter/src/main/java/org/cookpad/views_waiter/ViewsWaiter.kt:29-31 | a subscriber of `channel(name).stream()` receives exactly the values emitted after it subscribed under key `name` (channel emits on that name, and plain emits when `name` is `""`), in order and unmodified |
| Scenarios.ChannelsAreIsolated | views-waiter/src/main/java/org/cookpad/views_waiter/ViewsWaiter.kt:29-31 | for names A ≠ B, removing an emission on channel A from a run does not change what channel B receives |
| Scenarios.ChannelSubscriberIsolated | views-waiter/src/main/java/org/cookpad/views_waiter/ViewsWaiter.kt:29-31 | for names A ≠ B, a subscriber of channel B ends a run with the same inbox whether or not the run contains an emission on channel A |
| Scenarios.ChannelEmitRouting | views-waiter/src/main/java/org/cookpad/views_waiter/ViewsWaiter.kt:40-43 | an emit on channel A reaches every `stream()` subscriber and every subscriber of A, and no subscriber of another channel |
| Scenarios.PlainEmitRouting | views-waiter/src/main/java/org/cookpad/views_waiter/ViewsWaiter.kt:25-31 | a plain `emit` reaches `stream()` and `channel("")` subscribers and no subscriber of a non-empty channel name |
| Scenarios.PlainEmitsOnChannels | views-waiter/src/main/java/org/cookpad/views_waiter/ViewsWaiter.kt:13 | over a run of plain emits, `channel("")` receives all of them and every other channel receives none |
| Scenarios.NoReplay | views-waiter/src/main/java/org/cookpad/views_waiter/ViewsWaiter.kt:14-15 | a subscription attached after an `emit` gets nothing from it, neither right away nor later; it receives only later emissions |
| Scenarios.SameNameHandles | views-waiter/src/main/java/org/cookpad/views_waiter/ViewsWaiter.kt:40-43 | for two handles with one name, emitting via either gives the same state, and a value emitted via one reaches a subscriber of the other |

## Left out

- `bindOnBackground` (ViewsWaiter.kt:50) is left out. It delegates to `OnBackgroundBinderTransformer`, which is not part of this model, and it depends on the Android lifecycle framework. The foreground/background gate is therefore not modelled.
- `BookmarksPresenter` and `RecipesPresenter` are left out. They are Android lifecycle and UI glue with no broadcaster logic of their own. The shared `Pipelines` instance they use is not part of this model either.
- Disposing a subscription is left out. Releasing it is RxJava machinery: observers are only ever added here.
- Error and completion of the subject are left out. Once the subject terminates, every `emit` becomes a no-op. The source never terminates it.
- `subject.hide()` only hides the subject's identity, so it is left out.
- Threading and schedulers are left out. Delivery is synchronous on the emitter's thread.
- ViewsWaiter.Publish: the order in which one `onNext` calls its observers (subscription order, ViewsWaiter.kt:14) is not represented. Each observer's inbox is kept separately, so the model cannot say which handler ran first, which handlers with shared side effects can observe.
- The `T : Any` bound (ViewsWaiter.kt:12) is left out: every contract holds for every `T`, so the model is more general than the source's non-null `T`.
- ViewsWaiter.OpenChannel: the handle is a plain value carrying the name. The Kotlin object's back-reference to its broadcaster is replaced by passing the broadcaster to each channel operation. Distinct handle objects, which Kotlin compares by identity, are merged into one value per name, so object identity of handles is not modelled.
- Observables that `stream()` or `channel(name).stream()` has built but nobody has subscribed to yet are not represented. Only a subscription is a state change; one Observable subscribed several times is several subscribe steps.
- A subscriber handler that throws is not modelled. In RxJava 2 a lambda subscriber whose handler throws disposes itself and receives nothing more. A full `Observer` whose `onNext` throws makes `subject.onNext`, and so `emit`, throw before later observers in subscription order are called. Every delivery result here (ViewsWaiter.Publish, Scenarios.ObserverAfterRun, Scenarios.GlobalStreamReceivesAll, Scenarios.ChannelStreamReceivesExactly and those built on them) assumes every handler returns normally.
- Re-entrant calls are not modelled. A subscriber's handler that calls `emit` from inside `onNext` would start a nested delivery before the outer one finishes, because the subject is an unserialized PublishSubject that delivers synchronously. Other subscribers could then see the nested value first. Every call is one atomic step here, and the emission-order results (Scenarios.GlobalStreamReceivesAll, Scenarios.PlainEmitsArriveInOrder, Scenarios.ObserverAfterRun) assume no handler emits re-entrantly.
- The private `emit(value, channel)` has a default argument `""` (ViewsWaiter.kt:33). No call relies on that default, because plain `emit` builds its own default-keyed message. `EmitOn` therefore takes the key explicitly.
