/**
 * The broadcaster: one publish subject that every emission goes through,
 * tagged with a channel key, and any number of subscriptions that each
 * see a filtered, key-stripped projection of it.
 *
 * The state is kept twice over. `log` is the history of messages pushed
 * into the subject (a model-level record; the subject itself keeps
 * nothing), and each observer carries the inbox of values it has been
 * handed so far. `Valid` says the two agree: an observer's inbox is the
 * delivery of the log suffix from the moment it subscribed.
 */
module ViewsWaiter {
  import opened Routing

  /** A live subscription: its filter, the log length when it attached, what it received. */
  datatype Observer<T> = Observer(filter: Filter, start: nat, inbox: seq<T>)

  datatype Waiter<T> = Waiter(log: seq<Message<T>>, observers: seq<Observer<T>>)

  /** The state after a subscription attaches, and the new observer's index in it. */
  datatype Attached<T> = Attached(waiter: Waiter<T>, id: nat)

  /**
   * A channel handle. It holds only a name; the broadcaster it talks to is
   * passed to each of its operations, so creating one changes nothing.
   * Distinct handle objects for one name are merged into this one value;
   * only the name is ever used by the handle's operations.
   */
  datatype Channel = Channel(name: string)

  /** An observer's inbox is what its filter lets through of the log since it attached. */
  ghost predicate Tracks<T>(log: seq<Message<T>>, o: Observer<T>) {
    o.start <= |log| && o.inbox == Deliver(log[o.start..], o.filter)
  }

  ghost predicate Valid<T>(w: Waiter<T>) {
    forall i :: 0 <= i < |w.observers| ==> Tracks(w.log, w.observers[i])
  }

  /**
   * `r` is `w` with one more observer, listening with filter `f`: the log
   * and the observers already there are unchanged, and the newcomer sits
   * at the end, starts at the current end of the log and has received
   * nothing.
   */
  ghost predicate Attaches<T>(w: Waiter<T>, r: Attached<T>, f: Filter) {
    && r.waiter.log == w.log
    && r.id == |w.observers|
    && |r.waiter.observers| == |w.observers| + 1
    && r.waiter.observers[..r.id] == w.observers
    && r.waiter.observers[r.id] == Observer(f, |w.log|, [])
  }

  /** A fresh broadcaster: nothing emitted, nobody listening. */
  function Create<T>(): (w: Waiter<T>)
    ensures |w.log| == 0 && |w.observers| == 0 && Valid(w)
  {
    Waiter([], [])
  }

  /**
   * Attach a subscription with filter `f`; returns the new state and the
   * observer's index. The newcomer has received nothing, and nothing
   * already in the log will ever reach it.
   */
  function Subscribe<T>(w: Waiter<T>, f: Filter): (r: Attached<T>)
    ensures Attaches(w, r, f)
    ensures Valid(w) ==> Valid(r.waiter)
  {
    var o := Observer(f, |w.log|, []);
    assert w.log[|w.log|..] == [];
    Attached(Waiter(w.log, w.observers + [o]), |w.observers|)
  }

  /**
   * `stream().subscribe(…)`: a subscription that ignores the key. Building
   * the Observable alone attaches nothing; the observer joins the subject
   * only when it subscribes.
   */
  function Stream<T>(w: Waiter<T>): (r: Attached<T>)
    ensures Attaches(w, r, Global)
  {
    Subscribe(w, Global)
  }

  /** `channel(name)`: a handle bound to `name`; the broadcaster is untouched. */
  function OpenChannel(name: string): (c: Channel)
    ensures c.name == name
  {
    Channel(name)
  }

  /** `channel(name).stream().subscribe(…)`: a subscription to messages keyed exactly `c.name`. */
  function ChannelStream<T>(w: Waiter<T>, c: Channel): (r: Attached<T>)
    ensures Attaches(w, r, Named(c.name))
  {
    Subscribe(w, Named(c.name))
  }

  /** One observer's reaction to a message pushed into the subject. */
  function Offer<T>(o: Observer<T>, m: Message<T>): (r: Observer<T>)
    ensures r.filter == o.filter && r.start == o.start
    ensures Accepts(o.filter, m.key) ==> r.inbox == o.inbox + [m.value]
    ensures !Accepts(o.filter, m.key) ==> r.inbox == o.inbox
  {
    if Accepts(o.filter, m.key) then o.(inbox := o.inbox + [m.value]) else o
  }

  /**
   * `subject.onNext(m)`: the message joins the history and is handed,
   * synchronously, to every observer attached right now whose filter
   * accepts it. No observer is added or removed.
   */
  function Publish<T>(w: Waiter<T>, m: Message<T>): (r: Waiter<T>)
    ensures |r.log| == |w.log| + 1 && r.log[..|w.log|] == w.log && r.log[|w.log|] == m
    ensures |r.observers| == |w.observers|
    ensures forall i :: 0 <= i < |w.observers| ==>
              r.observers[i].filter == w.observers[i].filter
              && r.observers[i].start == w.observers[i].start
              && r.observers[i].inbox
                 == w.observers[i].inbox
                    + (if Accepts(w.observers[i].filter, m.key) then [m.value] else [])
  {
    var obs := seq(|w.observers|, i requires 0 <= i < |w.observers| => Offer(w.observers[i], m));
    assert (w.log + [m])[..|w.log|] == w.log;
    Waiter(w.log + [m], obs)
  }

  /** An observer that tracked the log still tracks it after a message is offered to it. */
  lemma OfferKeepsTracks<T>(log: seq<Message<T>>, o: Observer<T>, m: Message<T>)
    requires Tracks(log, o)
    ensures Tracks(log + [m], Offer(o, m))
  {
    assert (log + [m])[o.start..] == log[o.start..] + [m];
    DeliverSnoc(log[o.start..], m, o.filter);
  }

  /** Pushing a message keeps every inbox equal to the delivery of its log suffix. */
  lemma PublishKeepsValid<T>(w: Waiter<T>, m: Message<T>)
    ensures Valid(w) ==> Valid(Publish(w, m))
  {
    var r := Publish(w, m);
    forall i | 0 <= i < |r.observers| && Valid(w)
      ensures Tracks(r.log, r.observers[i])
    {
      assert r.log == w.log + [m];
      OfferKeepsTracks(w.log, w.observers[i], m);
    }
  }

  /** The private `emit(value, channel)`: tag the value with the key and push it. */
  function EmitOn<T>(w: Waiter<T>, v: T, key: string): (r: Waiter<T>)
    ensures |r.log| == |w.log| + 1 && r.log[..|w.log|] == w.log
    ensures r.log[|w.log|].key == key && r.log[|w.log|].value == v
    ensures |r.observers| == |w.observers|
    ensures forall i :: 0 <= i < |w.observers| ==>
              r.observers[i].filter == w.observers[i].filter
              && r.observers[i].start == w.observers[i].start
              && r.observers[i].inbox
                 == w.observers[i].inbox
                    + (if Accepts(w.observers[i].filter, key) then [v] else [])
    ensures Valid(w) ==> Valid(r)
  {
    PublishKeepsValid(w, Message(key, v));
    Publish(w, Message(key, v))
  }

  /** Plain `emit(value)`: the value goes out under the default key `""`. */
  function Emit<T>(w: Waiter<T>, v: T): (r: Waiter<T>)
    ensures |r.log| == |w.log| + 1 && r.log[..|w.log|] == w.log
    ensures r.log[|w.log|] == Message(DefaultChannelName, v)
    ensures |r.observers| == |w.observers|
    ensures forall i :: 0 <= i < |w.observers| ==>
              r.observers[i].filter == w.observers[i].filter
              && r.observers[i].start == w.observers[i].start
              && r.observers[i].inbox
                 == w.observers[i].inbox
                    + (if Accepts(w.observers[i].filter, DefaultChannelName) then [v] else [])
    ensures Valid(w) ==> Valid(r)
  {
    EmitOn(w, v, DefaultChannelName)
  }

  /** `channel(name).emit(value)`: the value goes out under the channel's own name. */
  function ChannelEmit<T>(w: Waiter<T>, c: Channel, v: T): (r: Waiter<T>)
    ensures |r.log| == |w.log| + 1 && r.log[..|w.log|] == w.log
    ensures r.log[|w.log|] == Message(c.name, v)
    ensures |r.observers| == |w.observers|
    ensures forall i :: 0 <= i < |w.observers| ==>
              r.observers[i].filter == w.observers[i].filter
              && r.observers[i].start == w.observers[i].start
              && r.observers[i].inbox
                 == w.observers[i].inbox
                    + (if Accepts(w.observers[i].filter, c.name) then [v] else [])
    ensures Valid(w) ==> Valid(r)
  {
    EmitOn(w, v, c.name)
  }
}
