/**
 * Runs of broadcaster operations and what each subscription ends up
 * receiving. The reference for a subscription is stated on the run of
 * operations alone (which emissions happened, under which key), not on
 * the broadcaster's state.
 */
module Scenarios {
  import opened Routing
  import opened ViewsWaiter

  /** One call a client makes on the broadcaster or on a channel handle. */
  datatype Step<T> =
    | Plain(value: T)                        // emit(value)
    | OnChannel(channel: Channel, value: T)  // channel(name).emit(value)
    | SubscribeAll                           // stream().subscribe(…)
    | SubscribeTo(channel: Channel)          // channel(name).stream().subscribe(…)

  function Apply<T>(w: Waiter<T>, s: Step<T>): Waiter<T> {
    match s
    case Plain(v) => Emit(w, v)
    case OnChannel(c, v) => ChannelEmit(w, c, v)
    case SubscribeAll => Stream(w).waiter
    case SubscribeTo(c) => ChannelStream(w, c).waiter
  }

  function Run<T>(w: Waiter<T>, steps: seq<Step<T>>): Waiter<T>
    decreases |steps|
  {
    if |steps| == 0 then w else Run(Apply(w, steps[0]), steps[1..])
  }

  /** The tagged message one step pushes into the subject, if any. */
  function StepMessages<T>(s: Step<T>): seq<Message<T>> {
    match s
    case Plain(v) => [Message(DefaultChannelName, v)]
    case OnChannel(c, v) => [Message(c.name, v)]
    case _ => []
  }

  /** The tagged messages a run of steps pushes into the subject, in order. */
  function Emitted<T>(steps: seq<Step<T>>): seq<Message<T>> {
    if |steps| == 0 then [] else StepMessages(steps[0]) + Emitted(steps[1..])
  }

  /** Every value a run of steps emits, through `emit` or any channel, in order. */
  function AllValues<T>(steps: seq<Step<T>>): seq<T> {
    if |steps| == 0 then []
    else
      (match steps[0]
       case Plain(v) => [v]
       case OnChannel(_, v) => [v]
       case _ => [])
      + AllValues(steps[1..])
  }

  /**
   * The values a run emits that belong on channel `name`: those emitted on
   * a channel of that name, and the plain emissions when `name` is the
   * default key `""`.
   */
  function ChannelValues<T>(steps: seq<Step<T>>, name: string): seq<T> {
    if |steps| == 0 then []
    else
      (match steps[0]
       case Plain(v) => if name == "" then [v] else []
       case OnChannel(c, v) => if c.name == name then [v] else []
       case _ => [])
      + ChannelValues(steps[1..], name)
  }

  /** A run of plain `emit` calls, one per value. */
  function PlainEmits<T>(vs: seq<T>): (steps: seq<Step<T>>)
    ensures |steps| == |vs|
    ensures forall i :: 0 <= i < |vs| ==> steps[i] == Plain(vs[i])
  {
    if |vs| == 0 then [] else [Plain(vs[0])] + PlainEmits(vs[1..])
  }

  /** One step grows the log by its own message, if it emits one. */
  lemma ApplyLog<T>(w: Waiter<T>, s: Step<T>)
    ensures Apply(w, s).log == w.log + StepMessages(s)
  {
  }

  /**
   * One step keeps an attached observer at its index, with its filter and
   * start, and keeps it tracking the log.
   */
  lemma ApplyKeepsObserver<T>(w: Waiter<T>, s: Step<T>, i: nat)
    requires i < |w.observers|
    ensures i < |Apply(w, s).observers|
    ensures Apply(w, s).observers[i].filter == w.observers[i].filter
    ensures Apply(w, s).observers[i].start == w.observers[i].start
    ensures Tracks(w.log, w.observers[i]) ==> Tracks(Apply(w, s).log, Apply(w, s).observers[i])
  {
    match s
    case Plain(v) =>
      if Tracks(w.log, w.observers[i]) {
        OfferKeepsTracks(w.log, w.observers[i], Message(DefaultChannelName, v));
      }
    case OnChannel(c, v) =>
      if Tracks(w.log, w.observers[i]) {
        OfferKeepsTracks(w.log, w.observers[i], Message(c.name, v));
      }
    case SubscribeAll =>
      var r := Stream(w).waiter;
      assert r.observers[i] == r.observers[..|w.observers|][i];
    case SubscribeTo(c) =>
      var r := ChannelStream(w, c).waiter;
      assert r.observers[i] == r.observers[..|w.observers|][i];
  }

  /** A run grows the log by exactly the messages it emits, in order. */
  lemma {:induction false} RunLog<T>(w: Waiter<T>, steps: seq<Step<T>>)
    ensures Run(w, steps).log == w.log + Emitted(steps)
    decreases |steps|
  {
    if |steps| > 0 {
      var w1 := Apply(w, steps[0]);
      var head := StepMessages(steps[0]);
      var tail := Emitted(steps[1..]);
      assert Run(w, steps) == Run(w1, steps[1..]);
      assert Emitted(steps) == head + tail;
      assert w1.log == w.log + head by {
        ApplyLog(w, steps[0]);
      }
      assert Run(w1, steps[1..]).log == w1.log + tail by {
        RunLog(w1, steps[1..]);
      }
      assert (w.log + head) + tail == w.log + (head + tail);
    }
  }

  /**
   * An observer already attached stays at its index through a run, with
   * its filter and start, and keeps tracking the log.
   */
  lemma {:induction false} RunKeepsObserver<T>(w: Waiter<T>, i: nat, steps: seq<Step<T>>)
    requires i < |w.observers|
    ensures i < |Run(w, steps).observers|
    ensures Run(w, steps).observers[i].filter == w.observers[i].filter
    ensures Run(w, steps).observers[i].start == w.observers[i].start
    ensures Tracks(w.log, w.observers[i]) ==> Tracks(Run(w, steps).log, Run(w, steps).observers[i])
    decreases |steps|
  {
    if |steps| > 0 {
      ApplyKeepsObserver(w, steps[0], i);
      RunKeepsObserver(Apply(w, steps[0]), i, steps[1..]);
    }
  }

  /**
   * The push model agrees with the reference model on every reachable
   * state: after any run from a fresh broadcaster, each subscription has
   * received exactly the filtered, key-stripped log since it attached.
   */
  lemma {:induction false} ReachableIsValid<T>(steps: seq<Step<T>>)
    ensures Valid(Run(Create<T>(), steps))
  {
    var w := Create<T>();
    RunValid(w, steps);
  }

  lemma {:induction false} RunValid<T>(w: Waiter<T>, steps: seq<Step<T>>)
    requires Valid(w)
    ensures Valid(Run(w, steps))
    decreases |steps|
  {
    if |steps| > 0 {
      RunValid(Apply(w, steps[0]), steps[1..]);
    }
  }

  /**
   * An observer attached to `w` receives, over a run, the delivery of the
   * run's own emissions to its filter, appended to what it already had.
   */
  lemma ObserverAfterRun<T>(w: Waiter<T>, i: nat, steps: seq<Step<T>>)
    requires i < |w.observers| && Tracks(w.log, w.observers[i])
    ensures i < |Run(w, steps).observers|
    ensures Run(w, steps).observers[i].inbox
         == w.observers[i].inbox + Deliver(Emitted(steps), w.observers[i].filter)
  {
    var o := w.observers[i];
    var r := Run(w, steps);
    var later := Emitted(steps);
    var before := w.log[o.start..];
    assert i < |r.observers| && r.observers[i].inbox == Deliver(r.log[o.start..], o.filter) by {
      RunKeepsObserver(w, i, steps);
    }
    assert r.log[o.start..] == before + later by {
      RunLog(w, steps);
      SuffixOfConcat(w.log, later, o.start);
    }
    assert Deliver(before + later, o.filter) == Deliver(before, o.filter) + Deliver(later, o.filter) by {
      DeliverConcat(before, later, o.filter);
    }
  }

  lemma SuffixOfConcat<X>(a: seq<X>, b: seq<X>, k: nat)
    requires k <= |a|
    ensures (a + b)[k..] == a[k..] + b
  {
  }

  /** A subscription attached to `w` with filter `f` receives the run's emissions that `f` accepts. */
  lemma SubscriberReceives<T>(w: Waiter<T>, f: Filter, steps: seq<Step<T>>)
    ensures var a := Subscribe(w, f); var r := Run(a.waiter, steps);
            a.id < |r.observers| && r.observers[a.id].inbox == Deliver(Emitted(steps), f)
  {
    var Attached(w1, id) := Subscribe(w, f);
    assert w1.log[|w1.log|..] == [];
    ObserverAfterRun(w1, id, steps);
  }

  lemma {:induction false} DeliverEmittedGlobal<T>(steps: seq<Step<T>>)
    ensures Deliver(Emitted(steps), Global) == AllValues(steps)
    decreases |steps|
  {
    if |steps| > 0 {
      DeliverEmittedGlobal(steps[1..]);
      DeliverConcat(StepMessages(steps[0]), Emitted(steps[1..]), Global);
      assert Deliver(StepMessages(steps[0]), Global) == AllValues([steps[0]]) by {
        match steps[0]
        case Plain(v) =>
          assert [Message(DefaultChannelName, v)][1..] == [];
        case OnChannel(c, v) =>
          assert [Message(c.name, v)][1..] == [];
        case _ =>
      }
    }
  }

  lemma {:induction false} DeliverEmittedNamed<T>(steps: seq<Step<T>>, name: string)
    ensures Deliver(Emitted(steps), Named(name)) == ChannelValues(steps, name)
    decreases |steps|
  {
    if |steps| > 0 {
      DeliverEmittedNamed(steps[1..], name);
      DeliverConcat(StepMessages(steps[0]), Emitted(steps[1..]), Named(name));
      assert Deliver(StepMessages(steps[0]), Named(name)) == ChannelValues([steps[0]], name) by {
        match steps[0]
        case Plain(v) =>
          assert [Message(DefaultChannelName, v)][1..] == [];
        case OnChannel(c, v) =>
          assert [Message(c.name, v)][1..] == [];
        case _ =>
      }
    }
  }

  /**
   * `stream()` delivers every value emitted after it subscribed, from
   * plain `emit` and from every channel, in emission order.
   */
  lemma GlobalStreamReceivesAll<T>(w: Waiter<T>, steps: seq<Step<T>>)
    ensures var a := Stream(w); var r := Run(a.waiter, steps);
            a.id < |r.observers| && r.observers[a.id].inbox == AllValues(steps)
  {
    SubscriberReceives(w, Global, steps);
    DeliverEmittedGlobal(steps);
  }

  /** A subscriber attached before `emit(v1) … emit(vn)` receives exactly `[v1, …, vn]`. */
  lemma {:induction false} PlainEmitsArriveInOrder<T>(w: Waiter<T>, vs: seq<T>)
    ensures var a := Stream(w); var r := Run(a.waiter, PlainEmits(vs));
            a.id < |r.observers| && r.observers[a.id].inbox == vs
  {
    GlobalStreamReceivesAll(w, PlainEmits(vs));
    AllValuesOfPlainEmits(vs);
  }

  lemma {:induction false} AllValuesOfPlainEmits<T>(vs: seq<T>)
    ensures AllValues(PlainEmits(vs)) == vs
    decreases |vs|
  {
    if |vs| > 0 {
      AllValuesOfPlainEmits(vs[1..]);
      assert PlainEmits(vs)[1..] == PlainEmits(vs[1..]);
    }
  }

  /**
   * `channel(name).stream()` delivers exactly the values emitted under key
   * `name`, in emission order and unmodified.
   */
  lemma ChannelStreamReceivesExactly<T>(w: Waiter<T>, c: Channel, steps: seq<Step<T>>)
    ensures var a := ChannelStream(w, c); var r := Run(a.waiter, steps);
            a.id < |r.observers| && r.observers[a.id].inbox == ChannelValues(steps, c.name)
  {
    SubscriberReceives(w, Named(c.name), steps);
    DeliverEmittedNamed(steps, c.name);
  }

  /**
   * Isolation: for names A ≠ B, taking an emission on channel A out of a
   * run changes nothing that channel B's subscribers receive.
   */
  lemma {:induction false} ChannelsAreIsolated<T>(before: seq<Step<T>>, a: Channel, v: T,
                                                 after: seq<Step<T>>, b: Channel)
    requires a.name != b.name
    ensures ChannelValues(before + [OnChannel(a, v)] + after, b.name)
         == ChannelValues(before + after, b.name)
    decreases |before|
  {
    if |before| == 0 {
      assert before + [OnChannel(a, v)] + after == [OnChannel(a, v)] + after;
      assert ([OnChannel(a, v)] + after)[1..] == after;
      assert before + after == after;
    } else {
      ChannelsAreIsolated(before[1..], a, v, after, b);
      assert (before + [OnChannel(a, v)] + after)[1..] == before[1..] + [OnChannel(a, v)] + after;
      assert (before + after)[1..] == before[1..] + after;
    }
  }

  /**
   * Isolation on subscriber state: for names A ≠ B, a subscriber of
   * channel B ends a run with the same inbox whether or not the run
   * contains an emission on channel A.
   */
  lemma ChannelSubscriberIsolated<T>(w: Waiter<T>, b: Channel, before: seq<Step<T>>,
                                     a: Channel, v: T, after: seq<Step<T>>)
    requires a.name != b.name
    ensures var s := ChannelStream(w, b);
            var with := Run(s.waiter, before + [OnChannel(a, v)] + after);
            var without := Run(s.waiter, before + after);
            s.id < |with.observers| && s.id < |without.observers|
            && with.observers[s.id].inbox == without.observers[s.id].inbox
  {
    ChannelStreamReceivesExactly(w, b, before + [OnChannel(a, v)] + after);
    ChannelStreamReceivesExactly(w, b, before + after);
    ChannelsAreIsolated(before, a, v, after, b);
  }

  /**
   * Isolation, one step at a time: emitting on channel A hands the value to
   * every `stream()` subscriber and every subscriber of A, and to no
   * subscriber of any other channel.
   */
  lemma ChannelEmitRouting<T>(w: Waiter<T>, a: Channel, v: T, i: nat)
    requires i < |w.observers|
    ensures i < |ChannelEmit(w, a, v).observers|
    ensures w.observers[i].filter == Global || w.observers[i].filter == Named(a.name)
            ==> ChannelEmit(w, a, v).observers[i].inbox == w.observers[i].inbox + [v]
    ensures w.observers[i].filter.Named? && w.observers[i].filter.name != a.name
            ==> ChannelEmit(w, a, v).observers[i].inbox == w.observers[i].inbox
  {
  }

  /**
   * The default-key collision: a plain `emit` reaches `channel("")`
   * subscribers and `stream()` subscribers, and no subscriber of a channel
   * with a non-empty name.
   */
  lemma PlainEmitRouting<T>(w: Waiter<T>, v: T, i: nat)
    requires i < |w.observers|
    ensures i < |Emit(w, v).observers|
    ensures w.observers[i].filter == Global || w.observers[i].filter == Named("")
            ==> Emit(w, v).observers[i].inbox == w.observers[i].inbox + [v]
    ensures w.observers[i].filter.Named? && w.observers[i].filter.name != ""
            ==> Emit(w, v).observers[i].inbox == w.observers[i].inbox
  {
  }

  /**
   * The default-key collision over a run of plain emits: `channel("")`
   * receives all of them, a channel with any other name receives none.
   */
  lemma {:induction false} PlainEmitsOnChannels<T>(vs: seq<T>, name: string)
    ensures ChannelValues(PlainEmits(vs), name) == (if name == "" then vs else [])
    decreases |vs|
  {
    if |vs| > 0 {
      PlainEmitsOnChannels(vs[1..], name);
      assert PlainEmits(vs)[1..] == PlainEmits(vs[1..]);
    }
  }

  /**
   * No replay: whatever was emitted before a subscription attached, it
   * receives only what the later steps emit — in particular nothing at
   * all from an `emit` made just before it subscribed.
   */
  lemma NoReplay<T>(w: Waiter<T>, v: T, f: Filter, steps: seq<Step<T>>)
    ensures var a := Subscribe(Emit(w, v), f); a.waiter.observers[a.id].inbox == []
    ensures var a := Subscribe(Emit(w, v), f); var r := Run(a.waiter, steps);
            a.id < |r.observers| && r.observers[a.id].inbox == Deliver(Emitted(steps), f)
  {
    SubscriberReceives(Emit(w, v), f, steps);
  }

  /**
   * Channel handles are interchangeable: for two handles with the same
   * name, emitting through either leaves the same state, and a value
   * emitted on one reaches a subscriber of the other.
   */
  lemma SameNameHandles<T>(w: Waiter<T>, c1: Channel, c2: Channel, v: T)
    requires c1.name == c2.name
    ensures ChannelEmit(w, c1, v) == ChannelEmit(w, c2, v)
    ensures var a := ChannelStream(w, c2); var r := ChannelEmit(a.waiter, c1, v);
            a.id < |r.observers| && r.observers[a.id].inbox == [v]
  {
  }
}
