/**
 * Messages carried by the broadcaster's single subject, and what a
 * subscription sees of a run of them: keep the messages its filter
 * accepts, then strip the key off each one.
 */
module Routing {

  /** A value tagged with the channel key it was emitted on. */
  datatype Message<T> = Message(key: string, value: T)

  /** The key plain `emit` tags its values with. */
  const DefaultChannelName: string := ""

  /**
   * What a subscription listens to: the public `stream()` takes every
   * message whatever its key, a channel's `stream()` only those whose key
   * is exactly the channel's name.
   */
  datatype Filter = Global | Named(name: string)

  predicate Accepts(f: Filter, key: string) {
    match f
    case Global => true
    case Named(n) => key == n
  }

  /** The values of a run of messages, in order, keys stripped. */
  function Values<T>(msgs: seq<Message<T>>): (r: seq<T>)
    ensures |r| == |msgs|
    ensures forall i :: 0 <= i < |msgs| ==> r[i] == msgs[i].value
  {
    if |msgs| == 0 then [] else [msgs[0].value] + Values(msgs[1..])
  }

  /** How many messages of a run carry the given key. */
  function Count<T>(msgs: seq<Message<T>>, key: string): (n: nat)
    ensures n <= |msgs|
    ensures n == 0 <==> forall i :: 0 <= i < |msgs| ==> msgs[i].key != key
  {
    if |msgs| == 0 then 0
    else (if msgs[0].key == key then 1 else 0) + Count(msgs[1..], key)
  }

  /**
   * What a subscription with filter `f` receives from a run of messages:
   * the accepted ones, in emission order, mapped to their values.
   */
  function Deliver<T>(msgs: seq<Message<T>>, f: Filter): seq<T>
  {
    if |msgs| == 0 then []
    else
      (if Accepts(f, msgs[0].key) then [msgs[0].value] else [])
      + Deliver(msgs[1..], f)
  }

  /** Delivery distributes over concatenation of runs: order is kept. */
  lemma {:induction false} DeliverConcat<T>(a: seq<Message<T>>, b: seq<Message<T>>, f: Filter)
    ensures Deliver(a + b, f) == Deliver(a, f) + Deliver(b, f)
    decreases |a|
  {
    if |a| == 0 {
      assert a + b == b;
    } else {
      var head := if Accepts(f, a[0].key) then [a[0].value] else [];
      assert Deliver(a + b, f) == head + Deliver(a[1..] + b, f) by {
        assert (a + b)[0] == a[0];
        assert (a + b)[1..] == a[1..] + b;
      }
      assert Deliver(a, f) == head + Deliver(a[1..], f);
      DeliverConcat(a[1..], b, f);
    }
  }

  /** Appending one message extends the delivery by its value exactly when the filter accepts its key. */
  lemma DeliverSnoc<T>(a: seq<Message<T>>, m: Message<T>, f: Filter)
    ensures Deliver(a + [m], f)
         == Deliver(a, f) + (if Accepts(f, m.key) then [m.value] else [])
  {
    DeliverConcat(a, [m], f);
    assert [m][1..] == [];
  }

  /** The global filter hands over every value, in order, whatever its key. */
  lemma {:induction false} DeliverGlobal<T>(msgs: seq<Message<T>>)
    ensures Deliver(msgs, Global) == Values(msgs)
  {
    if |msgs| > 0 {
      DeliverGlobal(msgs[1..]);
    }
  }

  /** A channel receives one value per message carrying its name, and no others. */
  lemma {:induction false} DeliverNamedCount<T>(msgs: seq<Message<T>>, name: string)
    ensures |Deliver(msgs, Named(name))| == Count(msgs, name)
  {
    if |msgs| > 0 {
      DeliverNamedCount(msgs[1..], name);
    }
  }

  /** A run emitted entirely on one channel reaches that channel unmodified and in order. */
  lemma {:induction false} DeliverAllOnChannel<T>(msgs: seq<Message<T>>, name: string)
    requires forall i :: 0 <= i < |msgs| ==> msgs[i].key == name
    ensures Deliver(msgs, Named(name)) == Values(msgs)
  {
    if |msgs| > 0 {
      DeliverAllOnChannel(msgs[1..], name);
    }
  }

  /** A run with no message on a channel delivers nothing to that channel. */
  lemma {:induction false} DeliverNoneOnChannel<T>(msgs: seq<Message<T>>, name: string)
    requires forall i :: 0 <= i < |msgs| ==> msgs[i].key != name
    ensures Deliver(msgs, Named(name)) == []
  {
    if |msgs| > 0 {
      DeliverNoneOnChannel(msgs[1..], name);
    }
  }

  /**
   * Every value a channel receives comes from a message that carried the
   * channel's name and that value.
   */
  lemma {:induction false} DeliverNamedSound<T>(msgs: seq<Message<T>>, name: string, j: nat)
    requires j < |Deliver(msgs, Named(name))|
    ensures exists i :: 0 <= i < |msgs| && msgs[i].key == name
                        && msgs[i].value == Deliver(msgs, Named(name))[j]
  {
    var d := Deliver(msgs, Named(name));
    if msgs[0].key == name && j == 0 {
      assert msgs[0].key == name && msgs[0].value == d[0];
    } else {
      var k := if msgs[0].key == name then j - 1 else j;
      assert d[j] == Deliver(msgs[1..], Named(name))[k];
      DeliverNamedSound(msgs[1..], name, k);
      var i :| 0 <= i < |msgs[1..]| && msgs[1..][i].key == name
               && msgs[1..][i].value == Deliver(msgs[1..], Named(name))[k];
      assert msgs[i + 1] == msgs[1..][i];
    }
  }
}
