/**
 * The loopback transport (`BusTransport`). All its instances in one process
 * share two tables kept on the class: the bus, from address to instance, and
 * the pub table, from topic to subscriber address to metadata. The model makes
 * the two tables the fields of an explicit `Registry` object. An instance is a
 * number naming it, and its `receive` handler is a function parameter.
 *
 * A subscriber table keeps its addresses in insertion order, as a JavaScript
 * object does, so it is a `Dict`; the order of the topics is never observed,
 * so the pub table is a `map`.
 */
module BusTransport {
  import opened Wrappers
  import opened Dicts
  import Strings

  /** `BusTransport.type` */
  const TransportType: string := "bus"

  /** A transport instance registered on the bus. */
  type NodeRef = nat

  /** What `_send` hands to the receiver's `receive`. */
  datatype Envelope<P> = Envelope(payload: P, src: string)

  /** What `getSubscribers` returns: the addresses, or the whole address -> metadata object. */
  datatype Subscribers = Addrs(addrs: seq<string>) | WithMeta(meta: Dict<string>)

  type PubTable = map<string, Dict<string>>

  /**
   * `[identifier, hex(publicKey)].join('.')`; `join` writes a missing
   * identifier as the empty string.
   */
  function Address(identifier: Option<string>, publicKey: seq<Strings.Byte>): (r: string)
    ensures |r| == |identifier.GetOr("")| + 1 + 2 * |publicKey|
    ensures r[..|identifier.GetOr("")|] == identifier.GetOr("")
  {
    identifier.GetOr("") + "." + Strings.ToHex(publicKey)
  }

  /** The message `_send` throws for an unregistered destination. */
  function NotFound(dest: string): (r: string)
    ensures |r| >= 19 + |dest| && r[19..19 + |dest|] == dest
  {
    "Node with address \"" + dest + "\" could not be found"
  }

  /** `_.get(this.constructor, ['pub', topic], {})` */
  function TopicSubs(pub: PubTable, topic: string): Dict<string> {
    if topic in pub then pub[topic] else []
  }

  /** `subscribe(topic, meta)`: `_.setWith` creates the topic's object if needed and sets own metadata. */
  function SubscribeTo(pub: PubTable, addr: string, topic: string, meta: string): (r: PubTable)
    ensures topic in r && Get(r[topic], addr) == Some(meta)
    ensures forall a :: a != addr ==> Get(r[topic], a) == Get(TopicSubs(pub, topic), a)
    ensures forall t :: t != topic ==> (t in r <==> t in pub) && (t in pub ==> r[t] == pub[t])
  {
    pub[topic := Set(TopicSubs(pub, topic), addr, meta)]
  }

  /** `unsubscribe(topic)`: `_.unset` deletes own entry; a missing topic is left alone. */
  function UnsubscribeFrom(pub: PubTable, addr: string, topic: string): (r: PubTable)
    ensures r.Keys == pub.Keys
    ensures topic in r ==> Get(r[topic], addr) == None
    ensures topic in r ==> forall a :: a != addr ==> Get(r[topic], a) == Get(pub[topic], a)
    ensures forall t :: t in r && t != topic ==> r[t] == pub[t]
  {
    if topic in pub then pub[topic := Delete(pub[topic], addr)] else pub
  }

  /** `getSubscribers(topic, meta)` */
  function Listing(pub: PubTable, topic: string, meta: bool): (r: Subscribers)
    ensures r.WithMeta? <==> meta
    ensures meta ==> forall a :: Get(r.meta, a) == Get(TopicSubs(pub, topic), a)
    ensures !meta ==> forall a :: a in r.addrs <==> Get(TopicSubs(pub, topic), a).Some?
    ensures topic !in pub ==> r == if meta then WithMeta([]) else Addrs([])
  {
    var obj := TopicSubs(pub, topic);
    if meta then WithMeta(obj) else Addrs(Keys(obj))
  }

  /** Every subscriber table lists an address at most once. */
  predicate WellFormed(pub: PubTable) {
    forall t :: t in pub ==> Unique(pub[t])
  }

  // ---------------------------------------------------------------------------
  // Properties

  /**
   * Different identifiers or different keys give different addresses: the hex
   * spelling of a key has no `.`, so the last `.` of an address ends the
   * identifier.
   */
  lemma AddressInjective(id1: Option<string>, key1: seq<Strings.Byte>, id2: Option<string>, key2: seq<Strings.Byte>)
    requires Address(id1, key1) == Address(id2, key2)
    ensures id1.GetOr("") == id2.GetOr("") && key1 == key2
  {
    var a := Address(id1, key1);
    var i1, i2 := id1.GetOr(""), id2.GetOr("");
    var h1, h2 := Strings.ToHex(key1), Strings.ToHex(key2);
    assert a[|i1|] == '.' && a[|i2|] == '.';
    assert |i1| == |i2| by {
      assert '.' !in h1 && '.' !in h2;
    }
    assert i1 == a[..|i1|] == i2;
    assert h1 == a[|i1| + 1..] == h2;
    Strings.ToHexInjective(key1, key2);
  }

  /**
   * Registering a second instance under a different identifier or key keeps
   * the route to the first one.
   */
  lemma ConnectKeepsOthers(bus: map<string, NodeRef>, id1: Option<string>, key1: seq<Strings.Byte>, n1: NodeRef,
                           id2: Option<string>, key2: seq<Strings.Byte>, n2: NodeRef)
    requires id1.GetOr("") != id2.GetOr("") || key1 != key2
    ensures var bus' := bus[Address(id1, key1) := n1][Address(id2, key2) := n2];
      && Address(id1, key1) in bus' && bus'[Address(id1, key1)] == n1
      && bus'[Address(id2, key2)] == n2
  {
    if Address(id1, key1) == Address(id2, key2) {
      AddressInjective(id1, key1, id2, key2);
    }
  }

  /**
   * After `subscribe(topic, meta)` this address is listed for `topic` with
   * `meta`, at the end when it is new; every other subscriber of the topic and
   * every other topic's listing are as before.
   */
  lemma SubscribeListed(pub: PubTable, addr: string, topic: string, meta: string, other: string, flag: bool)
    ensures var pub' := SubscribeTo(pub, addr, topic, meta);
      && Listing(pub', topic, true).meta == Set(TopicSubs(pub, topic), addr, meta)
      && Get(Listing(pub', topic, true).meta, addr) == Some(meta)
      && Listing(pub', topic, false).addrs
         == (if addr in Keys(TopicSubs(pub, topic)) then Keys(TopicSubs(pub, topic)) else Keys(TopicSubs(pub, topic)) + [addr])
      && (forall a :: a != addr ==> Get(Listing(pub', topic, true).meta, a) == Get(TopicSubs(pub, topic), a))
      && (other != topic ==> Listing(pub', other, flag) == Listing(pub, other, flag))
  {
  }

  /** Subscribing again overwrites the metadata and changes nothing else. */
  lemma ResubscribeOverwrites(pub: PubTable, addr: string, topic: string, m1: string, m2: string)
    ensures SubscribeTo(SubscribeTo(pub, addr, topic, m1), addr, topic, m2) == SubscribeTo(pub, addr, topic, m2)
  {
    SetTwice(TopicSubs(pub, topic), addr, m1, m2);
  }

  /**
   * `unsubscribe(topic)` takes only this address off the topic: every other
   * subscriber, in order, and every other topic stay as they were, and doing
   * it twice is doing it once.
   */
  lemma UnsubscribeOnlyOwn(pub: PubTable, addr: string, topic: string, other: string, flag: bool)
    ensures var pub' := UnsubscribeFrom(pub, addr, topic);
      && addr !in Listing(pub', topic, false).addrs
      && (forall a :: a != addr ==> Get(Listing(pub', topic, true).meta, a) == Get(TopicSubs(pub, topic), a))
      && Listing(pub', topic, true).meta == Delete(TopicSubs(pub, topic), addr)
      && (other != topic ==> Listing(pub', other, flag) == Listing(pub, other, flag))
      && UnsubscribeFrom(pub', addr, topic) == pub'
  {
    if topic in pub {
      DeleteIdempotent(pub[topic], addr);
    }
  }

  /** Subscribing and then unsubscribing leaves the other subscribers of the topic as they were. */
  lemma SubscribeThenUnsubscribe(pub: PubTable, addr: string, topic: string, meta: string)
    ensures var pub' := UnsubscribeFrom(SubscribeTo(pub, addr, topic, meta), addr, topic);
      && addr !in Listing(pub', topic, false).addrs
      && forall a :: a != addr ==> Get(Listing(pub', topic, true).meta, a) == Get(TopicSubs(pub, topic), a)
  {
    UnsubscribeOnlyOwn(SubscribeTo(pub, addr, topic, meta), addr, topic, topic, true);
  }

  /** `getSubscribers` on a topic nobody subscribed to: an empty list, or an empty object with `meta`. */
  lemma UnknownTopicEmpty(pub: PubTable, topic: string)
    requires topic !in pub
    ensures Listing(pub, topic, false) == Addrs([])
    ensures Listing(pub, topic, true) == WithMeta([])
  {
  }

  /** Subscribing and unsubscribing keep every subscriber table free of repeated addresses. */
  lemma {:induction false} UpdatesKeepWellFormed(pub: PubTable, addr: string, topic: string, meta: string)
    requires WellFormed(pub)
    ensures WellFormed(SubscribeTo(pub, addr, topic, meta))
    ensures WellFormed(UnsubscribeFrom(pub, addr, topic))
  {
    var sub := SubscribeTo(pub, addr, topic, meta);
    SetUnique(TopicSubs(pub, topic), addr, meta);
    assert sub[topic] == Set(TopicSubs(pub, topic), addr, meta);
    assert forall t :: t in sub && t != topic ==> sub[t] == pub[t];
    if topic in pub {
      var unsub := UnsubscribeFrom(pub, addr, topic);
      DeleteUnique(pub[topic], addr);
      assert unsub[topic] == Delete(pub[topic], addr);
    }
  }

  // ---------------------------------------------------------------------------
  // The shared tables

  class Registry {
    /** `BusTransport.bus` */
    var bus: map<string, NodeRef>
    /** `BusTransport.pub` */
    var pub: PubTable

    predicate Valid()
      reads this
    {
      WellFormed(pub)
    }

    constructor ()
      ensures bus == map[] && pub == map[]
      ensures Valid()
    {
      bus := map[];
      pub := map[];
    }

    /**
     * `_connect()` of instance `node`, whose signing key has `publicKey`:
     * register it under its address, replacing any instance already there.
     */
    method Connect(node: NodeRef, identifier: Option<string>, publicKey: seq<Strings.Byte>) returns (addr: string)
      modifies this
      ensures addr == Address(identifier, publicKey)
      ensures bus == old(bus)[addr := node] && pub == old(pub)
    {
      addr := identifier.GetOr("") + "." + Strings.ToHex(publicKey);
      bus := bus[addr := node];
    }

    /** `_send(dest, payload)` from the instance with address `src`. */
    method Send<P, R>(src: string, dest: string, payload: P, receive: (NodeRef, Envelope<P>) -> R)
      returns (r: Result<R, string>)
      ensures r.Ok? <==> dest in bus
      ensures r.Ok? ==> r.value == receive(bus[dest], Envelope(payload, src))
      ensures r.Err? ==> r.error == NotFound(dest)
    {
      if dest !in bus {
        return Err("Node with address \"" + dest + "\" could not be found");
      }
      var node := bus[dest];
      r := Ok(receive(node, Envelope(payload, src)));
    }

    /** `subscribe(topic, meta = '')` of the instance with address `addr`. */
    method Subscribe(addr: string, topic: string, meta: Option<string>)
      requires Valid()
      modifies this
      ensures pub == SubscribeTo(old(pub), addr, topic, meta.GetOr("")) && bus == old(bus)
      ensures Valid()
    {
      UpdatesKeepWellFormed(pub, addr, topic, meta.GetOr(""));
      var subs := if topic in pub then pub[topic] else [];
      pub := pub[topic := Set(subs, addr, meta.GetOr(""))];
    }

    /** `unsubscribe(topic)` of the instance with address `addr`. */
    method Unsubscribe(addr: string, topic: string)
      requires Valid()
      modifies this
      ensures pub == UnsubscribeFrom(old(pub), addr, topic) && bus == old(bus)
      ensures Valid()
    {
      UpdatesKeepWellFormed(pub, addr, topic, "");
      if topic in pub {
        pub := pub[topic := Delete(pub[topic], addr)];
      }
    }

    /** `getSubscribers(topic, meta = false)` */
    method GetSubscribers(topic: string, meta: bool) returns (r: Subscribers)
      ensures r == Listing(pub, topic, meta)
      ensures !meta ==> r.Addrs? && |r.addrs| == |TopicSubs(pub, topic)|
      ensures meta ==> r.WithMeta? && forall a :: Get(r.meta, a) == Get(TopicSubs(pub, topic), a)
      ensures Valid() ==> (if meta then Unique(r.meta) else NoDup(r.addrs))
    {
      var obj := if topic in pub then pub[topic] else [];
      if meta {
        return WithMeta(obj);
      }
      r := Addrs(Keys(obj));
    }
  }
}
