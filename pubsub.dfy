/**
 * The subscription keeper (`PubSubPersist`): a table of topics it wants to
 * stay subscribed to on the NKN ledger, renewed by a heartbeat. `subscribe`
 * caches a topic and submits a ledger subscription unless this node is
 * already a subscriber; `unsubscribe` only flags the topic, and the next
 * heartbeat removes it once the ledger unsubscribe goes through.
 *
 * The ledger is external: its block height and its per-topic answers are a
 * `Chain` value. The `subs` interval timer is a flag, and the immediate beat
 * `startHeart` fires is counted, not run inline (the environment calls
 * `Heartbeat`).
 */
module PubSub {
  import opened Wrappers
  import opened Dicts
  import NknTransport

  /** `beatInterval` when none is given. */
  const DefaultBeatInterval: string := "5s"
  /** `opts.delay` of `discover` when none is given. */
  const DiscoveryDelay: string := "3s"

  /** A cached topic; `next` is `null` until the first subscribe computes it. */
  datatype Topic = Topic(topic: string, metadata: string, fee: real, num: nat, next: Option<int>, delete: bool)

  /** The ledger's answers about one topic. */
  datatype TopicLedger = TopicLedger(
    subscribers: seq<string>,  // what `getSubscribers(topic, false)` lists: confirmed, then pending
    expiresAt: int,            // `expiresAt` of this node's own subscription
    accepted: bool)            // whether an unsubscribe transaction goes through

  /** The ledger: its latest block height and what it says about each topic. */
  datatype Chain = Chain(height: int, ledger: string -> TopicLedger)

  /** A transaction this node submitted to the ledger. */
  datatype LedgerCall = SubscribeCall(tx: NknTransport.SubscribeTx) | UnsubscribeCall(topic: string)

  /** The keeper's mutable state as one value. */
  datatype KeeperState = KeeperState(topics: Dict<Topic>, timerActive: bool, beatsStarted: nat, calls: seq<LedgerCall>)

  // ---------------------------------------------------------------------------
  // Specification on values

  /** `startHeart`: start the interval, with one immediate beat, only if there are topics and none runs. */
  function StartHeartState(s: KeeperState): (r: KeeperState)
    ensures r.topics == s.topics && r.calls == s.calls
    ensures r.timerActive <==> s.timerActive || |s.topics| > 0
    ensures r.beatsStarted == s.beatsStarted + if s.timerActive || |s.topics| == 0 then 0 else 1
  {
    if |s.topics| == 0 || s.timerActive then s
    else s.(timerActive := true, beatsStarted := s.beatsStarted + 1)
  }

  /** The block after which the subscription needs renewing. */
  function NextBlock(member: bool, expiresAt: int, height: int, num: nat): int {
    if member && expiresAt != 0 then expiresAt else height + num + 1
  }

  /** The entry `subscribe` works on: the cached one, or a new one with the resolved values. */
  function Cached(topics: Dict<Topic>, topic: string, metadata: string, fee: real, num: nat): Topic {
    Get(topics, topic).GetOr(Topic(topic, metadata, fee, num, None, false))
  }

  /**
   * `subscribe(topic, metadata, num, fee, wallet, height)`: resolve fee,
   * height and block count, cache the topic if new, start the heart, then
   * renew the cached entry.
   */
  function SubscribeState(s: KeeperState, rpc: NknTransport.Config, addr: string, identifier: string, topic: string,
                          metadata: string, num: Option<nat>, fee: Option<real>, height: Option<int>,
                          chain: Chain): (r: KeeperState)
    ensures Get(r.topics, topic).Some? && Get(r.topics, topic).value.next.Some?
    ensures forall k :: k != topic ==> Get(r.topics, k) == Get(s.topics, k)
    ensures r.timerActive
    ensures s.calls <= r.calls && |r.calls| <= |s.calls| + 1
  {
    var f := NknTransport.ResolveFee(fee, Some(rpc.fee));
    var n := OrFallback(num, rpc.numBlocks);
    var obj := Cached(s.topics, topic, metadata, f, n);
    var s1 := StartHeartState(s.(topics := Set(s.topics, topic, obj)));
    RenewState(s1, rpc, addr, identifier, topic, metadata, obj, f, n, OrFallback(height, chain.height),
               chain.ledger(topic))
  }

  /**
   * The rest of `subscribe`, on the cached entry `obj`: set `next`, and submit
   * a ledger subscription unless this node is already a subscriber.
   */
  function RenewState(s: KeeperState, rpc: NknTransport.Config, addr: string, identifier: string, topic: string,
                      metadata: string, obj: Topic, fee: real, num: nat, height: int, l: TopicLedger): (r: KeeperState)
    ensures Get(r.topics, topic).Some? && Get(r.topics, topic).value.next.Some?
    ensures Get(r.topics, topic).value == obj.(next := Get(r.topics, topic).value.next)
    ensures forall k :: k != topic ==> Get(r.topics, k) == Get(s.topics, k)
    ensures r.timerActive == s.timerActive && r.beatsStarted == s.beatsStarted
    ensures s.calls <= r.calls && |r.calls| == |s.calls| + (if addr in l.subscribers then 0 else 1)
  {
    var member := addr in l.subscribers;
    var tx := NknTransport.SubscribeRequest(rpc, identifier, topic, metadata, Some(num), Some(fee));
    s.(topics := Set(s.topics, topic, obj.(next := Some(NextBlock(member, l.expiresAt, height, num)))),
       calls := if member then s.calls else s.calls + [SubscribeCall(tx)])
  }

  /** `SubscribeState` field by field: the entry is written once, with `next` set. */
  lemma SubscribeStateFields(s: KeeperState, rpc: NknTransport.Config, addr: string, identifier: string, topic: string,
                             metadata: string, num: Option<nat>, fee: Option<real>, height: Option<int>, chain: Chain)
    ensures var r := SubscribeState(s, rpc, addr, identifier, topic, metadata, num, fee, height, chain);
      var f := NknTransport.ResolveFee(fee, Some(rpc.fee));
      var h := OrFallback(height, chain.height);
      var n := OrFallback(num, rpc.numBlocks);
      var l := chain.ledger(topic);
      var member := addr in l.subscribers;
      && r.topics == Set(s.topics, topic, Cached(s.topics, topic, metadata, f, n).(next := Some(NextBlock(member, l.expiresAt, h, n))))
      && r.calls == (if member then s.calls
                     else s.calls + [SubscribeCall(NknTransport.SubscribeRequest(rpc, identifier, topic, metadata, Some(n), Some(f)))])
      && r.timerActive
      && r.beatsStarted == s.beatsStarted + if s.timerActive then 0 else 1
  {
    var f := NknTransport.ResolveFee(fee, Some(rpc.fee));
    var n := OrFallback(num, rpc.numBlocks);
    var h := OrFallback(height, chain.height);
    var obj := Cached(s.topics, topic, metadata, f, n);
    var l := chain.ledger(topic);
    var t1 := Set(s.topics, topic, obj);
    assert |Keys(t1)| > 0;
    SetTwice(s.topics, topic, obj, obj.(next := Some(NextBlock(addr in l.subscribers, l.expiresAt, h, n))));
  }

  /** `unsubscribe(topic)`: flag the topic, caching a placeholder if it is new, and start the heart. */
  function UnsubscribeState(s: KeeperState, rpc: NknTransport.Config, topic: string): (r: KeeperState)
    ensures Get(r.topics, topic).Some? && Get(r.topics, topic).value.delete
    ensures forall k :: k != topic ==> Get(r.topics, k) == Get(s.topics, k)
    ensures r.calls == s.calls && r.timerActive
  {
    var obj := Get(s.topics, topic).GetOr(Topic(topic, "", 0.0, rpc.numBlocks, None, false));
    StartHeartState(s.(topics := Set(s.topics, topic, obj.(delete := true))))
  }

  /** What the transport's `unsubscribe` does for `topic`. */
  function LedgerUnsubscribe(addr: string, l: TopicLedger): NknTransport.UnsubResult {
    NknTransport.UnsubscribeDecision(addr, l.subscribers, l.expiresAt, l.accepted)
  }

  /** One turn of the heartbeat loop, for the topic under key `k`. */
  function BeatOne(s: KeeperState, rpc: NknTransport.Config, addr: string, identifier: string,
                   chain: Chain, k: string): (r: KeeperState)
    ensures Get(s.topics, k).None? ==> r == s
    ensures forall k' :: k' != k ==> Get(r.topics, k') == Get(s.topics, k')
    ensures s.calls <= r.calls && |r.calls| <= |s.calls| + 1
  {
    match Get(s.topics, k)
    case None => s
    case Some(obj) =>
      if obj.delete then
        var d := LedgerUnsubscribe(addr, chain.ledger(k));
        var s1 := s.(calls := if d.sentUnsubscribe then s.calls + [UnsubscribeCall(k)] else s.calls);
        if d.outcome == NknTransport.Unsubscribed then s1.(topics := Delete(s.topics, k)) else s1
      else
        SubscribeState(s, rpc, addr, identifier, k, obj.metadata, Some(obj.num), Some(obj.fee), Some(chain.height), chain)
  }

  /** The heartbeat loop over the keys it visits, in order. */
  function BeatKeys(s: KeeperState, rpc: NknTransport.Config, addr: string, identifier: string,
                    chain: Chain, keys: seq<string>): KeeperState
    decreases |keys|
  {
    if keys == [] then s
    else BeatKeys(BeatOne(s, rpc, addr, identifier, chain, keys[0]), rpc, addr, identifier, chain, keys[1..])
  }

  /** A pass of the heartbeat loop only appends ledger calls. */
  lemma {:induction false} BeatKeysAppends(s: KeeperState, rpc: NknTransport.Config, addr: string, identifier: string,
                                           chain: Chain, keys: seq<string>)
    ensures s.calls <= BeatKeys(s, rpc, addr, identifier, chain, keys).calls
    decreases |keys|
  {
    if keys != [] {
      var s1 := BeatOne(s, rpc, addr, identifier, chain, keys[0]);
      var r := BeatKeys(s1, rpc, addr, identifier, chain, keys[1..]);
      BeatKeysAppends(s1, rpc, addr, identifier, chain, keys[1..]);
      assert r.calls[..|s1.calls|][..|s.calls|] == r.calls[..|s.calls|];
    }
  }

  /** `heartbeat()`: with no topics, stop the interval; otherwise one pass over the topics at the latest height. */
  function BeatState(s: KeeperState, rpc: NknTransport.Config, addr: string, identifier: string, chain: Chain): (r: KeeperState)
    ensures |s.topics| == 0 ==> !r.timerActive && r.topics == s.topics && r.calls == s.calls
    ensures s.calls <= r.calls
  {
    BeatKeysAppends(s, rpc, addr, identifier, chain, Keys(s.topics));
    if |s.topics| == 0 then s.(timerActive := false)
    else BeatKeys(s, rpc, addr, identifier, chain, Keys(s.topics))
  }

  /** The topic entry one heartbeat turn leaves behind, `None` when the topic is dropped. */
  function BeatEntry(obj: Option<Topic>, rpc: NknTransport.Config, addr: string, height: int, l: TopicLedger): Option<Topic> {
    match obj
    case None => None
    case Some(t) =>
      if t.delete then
        if LedgerUnsubscribe(addr, l).outcome == NknTransport.Unsubscribed then None else obj
      else Some(t.(next := Some(NextBlock(addr in l.subscribers, l.expiresAt, height, OrFallback(Some(t.num), rpc.numBlocks)))))
  }

  /**
   * The ledger transactions one heartbeat turn submits for the topic under
   * `k`, given its entry and what the ledger says about it: a flagged topic
   * sends an unsubscribe when this node holds a confirmed subscription; any
   * other topic sends one subscription, with its cached metadata, block count
   * and fee, unless this node is already among the subscribers.
   */
  function BeatCall(obj: Option<Topic>, rpc: NknTransport.Config, addr: string, identifier: string,
                    k: string, l: TopicLedger): seq<LedgerCall> {
    match obj
    case None => []
    case Some(t) =>
      if t.delete then
        if addr in l.subscribers && l.expiresAt != 0 then [UnsubscribeCall(k)] else []
      else if addr in l.subscribers then []
      else [SubscribeCall(NknTransport.SubscribeRequest(rpc, identifier, k, t.metadata, Some(t.num), Some(t.fee)))]
  }

  /** The transactions of a heartbeat pass over `keys`, each turn reading the entry as it was before the pass. */
  function BeatCalls(topics: Dict<Topic>, rpc: NknTransport.Config, addr: string, identifier: string,
                     chain: Chain, keys: seq<string>): seq<LedgerCall>
    decreases |keys|
  {
    if keys == [] then []
    else BeatCall(Get(topics, keys[0]), rpc, addr, identifier, keys[0], chain.ledger(keys[0]))
         + BeatCalls(topics, rpc, addr, identifier, chain, keys[1..])
  }

  /** How many subscription transactions for `topic` are among `calls`. */
  function CountSubscribes(calls: seq<LedgerCall>, topic: string): nat
    decreases |calls|
  {
    if calls == [] then 0
    else (if calls[0].SubscribeCall? && calls[0].tx.topic == topic then 1 else 0) + CountSubscribes(calls[1..], topic)
  }

  /** How many unsubscribe transactions for `topic` are among `calls`. */
  function CountUnsubscribes(calls: seq<LedgerCall>, topic: string): nat
    decreases |calls|
  {
    if calls == [] then 0
    else (if calls[0] == UnsubscribeCall(topic) then 1 else 0) + CountUnsubscribes(calls[1..], topic)
  }

  /** `getSubscriptionExpiry`: blocks left until a nonzero `expiresAt`; a zero passes through. */
  function SubscriptionExpiry(expiresAt: int, height: int): (r: int)
    ensures expiresAt != 0 ==> height + r == expiresAt
    ensures expiresAt == 0 ==> r == 0
  {
    if expiresAt != 0 then expiresAt - height else expiresAt
  }

  /** `discover`'s delay option: the caller's when non-empty, else the default. */
  function DiscoverDelay(delay: Option<string>): (d: string)
    ensures delay.Some? && delay.value != "" ==> d == delay.value
    ensures delay.None? || delay.value == "" ==> d == DiscoveryDelay
  {
    if delay.Some? && delay.value != "" then delay.value else DiscoveryDelay
  }

  // ---------------------------------------------------------------------------
  // Properties

  /** `startHeart` never starts a second interval: once it ran, running it again changes nothing. */
  lemma StartHeartOnce(s: KeeperState)
    ensures StartHeartState(StartHeartState(s)) == StartHeartState(s)
    ensures s.timerActive ==> StartHeartState(s) == s
    ensures StartHeartState(s).topics == s.topics && StartHeartState(s).calls == s.calls
    ensures StartHeartState(s).timerActive <==> s.timerActive || |s.topics| > 0
    ensures StartHeartState(s).beatsStarted <= s.beatsStarted + 1
  {
  }

  /**
   * Subscribing caches a topic once: a cached topic keeps its metadata, fee,
   * block count and delete flag, a new one takes the resolved values; no other
   * topic changes, and the heart is running afterwards.
   */
  lemma SubscribeCachesOnce(s: KeeperState, rpc: NknTransport.Config, addr: string, identifier: string, topic: string,
                            metadata: string, num: Option<nat>, fee: Option<real>, height: Option<int>, chain: Chain)
    ensures var r := SubscribeState(s, rpc, addr, identifier, topic, metadata, num, fee, height, chain);
      && Keys(r.topics) == (if topic in Keys(s.topics) then Keys(s.topics) else Keys(s.topics) + [topic])
      && (Unique(s.topics) ==> Unique(r.topics))
      && (forall k :: k != topic ==> Get(r.topics, k) == Get(s.topics, k))
      && r.timerActive
      && Get(r.topics, topic).Some?
      && var t := Get(r.topics, topic).value;
      && t.topic == (if topic in Keys(s.topics) then Get(s.topics, topic).value.topic else topic)
      && (topic in Keys(s.topics) ==>
            t == Get(s.topics, topic).value.(next := t.next))
      && (topic !in Keys(s.topics) ==>
            && t.metadata == metadata && !t.delete
            && t.fee == NknTransport.ResolveFee(fee, Some(rpc.fee))
            && t.num == OrFallback(num, rpc.numBlocks))
  {
    SubscribeStateFields(s, rpc, addr, identifier, topic, metadata, num, fee, height, chain);
    var f := NknTransport.ResolveFee(fee, Some(rpc.fee));
    var n := OrFallback(num, rpc.numBlocks);
    var l := chain.ledger(topic);
    if Unique(s.topics) {
      SetUnique(s.topics, topic, Cached(s.topics, topic, metadata, f, n).(next := Some(NextBlock(addr in l.subscribers, l.expiresAt, OrFallback(height, chain.height), n))));
    }
  }

  /**
   * A ledger subscription is submitted exactly when this node is not among
   * the topic's subscribers, and `next` becomes the member's own expiry, or
   * `height + num + 1` for a non-member or a pending member.
   */
  lemma SubscribeSubmitsOnlyForNonMembers(s: KeeperState, rpc: NknTransport.Config, addr: string, identifier: string,
                                          topic: string, metadata: string, num: Option<nat>, fee: Option<real>,
                                          height: Option<int>, chain: Chain)
    ensures var r := SubscribeState(s, rpc, addr, identifier, topic, metadata, num, fee, height, chain);
      var l := chain.ledger(topic);
      var member := addr in l.subscribers;
      var h := OrFallback(height, chain.height);
      var n := OrFallback(num, rpc.numBlocks);
      && (member ==> r.calls == s.calls)
      && (!member ==>
            && |r.calls| == |s.calls| + 1 && r.calls[..|s.calls|] == s.calls
            && r.calls[|s.calls|].SubscribeCall? && r.calls[|s.calls|].tx.topic == topic
            && r.calls[|s.calls|].tx.metadata == metadata)
      && Get(r.topics, topic).value.next == Some(if member && l.expiresAt != 0 then l.expiresAt else h + n + 1)
  {
    SubscribeStateFields(s, rpc, addr, identifier, topic, metadata, num, fee, height, chain);
  }

  /** `unsubscribe` flags the topic, keeps every topic, and changes no other entry. */
  lemma UnsubscribeOnlyFlags(s: KeeperState, rpc: NknTransport.Config, topic: string)
    ensures var r := UnsubscribeState(s, rpc, topic);
      && Keys(r.topics) == (if topic in Keys(s.topics) then Keys(s.topics) else Keys(s.topics) + [topic])
      && (forall k :: k != topic ==> Get(r.topics, k) == Get(s.topics, k))
      && Get(r.topics, topic).Some? && Get(r.topics, topic).value.delete
      && (topic in Keys(s.topics) ==> Get(r.topics, topic) == Some(Get(s.topics, topic).value.(delete := true)))
      && (topic !in Keys(s.topics) ==> Get(r.topics, topic) == Some(Topic(topic, "", 0.0, rpc.numBlocks, None, true)))
      && r.calls == s.calls && r.timerActive
  {
  }

  /** Subscribing never clears a delete flag. */
  lemma SubscribeKeepsDeleteFlag(s: KeeperState, rpc: NknTransport.Config, addr: string, identifier: string, topic: string,
                                 metadata: string, num: Option<nat>, fee: Option<real>, height: Option<int>, chain: Chain)
    requires Get(s.topics, topic).Some? && Get(s.topics, topic).value.delete
    ensures Get(SubscribeState(s, rpc, addr, identifier, topic, metadata, num, fee, height, chain).topics, topic).value.delete
  {
    SubscribeStateFields(s, rpc, addr, identifier, topic, metadata, num, fee, height, chain);
  }

  /** A heartbeat with no topics only stops the interval. */
  lemma EmptyBeatStopsTimer(s: KeeperState, rpc: NknTransport.Config, addr: string, identifier: string, chain: Chain)
    requires |s.topics| == 0
    ensures BeatState(s, rpc, addr, identifier, chain) == s.(timerActive := false)
  {
  }

  /** One heartbeat turn changes only the entry of its own topic, to `BeatEntry` of it. */
  lemma BeatOneEntries(s: KeeperState, rpc: NknTransport.Config, addr: string, identifier: string,
                       chain: Chain, k: string)
    ensures var r := BeatOne(s, rpc, addr, identifier, chain, k);
      && Get(r.topics, k) == BeatEntry(Get(s.topics, k), rpc, addr, chain.height, chain.ledger(k))
      && (forall x :: x != k ==> Get(r.topics, x) == Get(s.topics, x))
      && (Unique(s.topics) ==> Unique(r.topics))
  {
    match Get(s.topics, k)
    case None =>
    case Some(obj) =>
      if !obj.delete {
        SubscribeCachesOnce(s, rpc, addr, identifier, k, obj.metadata, Some(obj.num), Some(obj.fee), Some(chain.height), chain);
        SubscribeSubmitsOnlyForNonMembers(s, rpc, addr, identifier, k, obj.metadata, Some(obj.num), Some(obj.fee), Some(chain.height), chain);
      } else if Unique(s.topics) {
        DeleteUnique(s.topics, k);
      }
  }

  /**
   * A heartbeat pass over distinct keys leaves each visited topic as
   * `BeatEntry` makes it and every other topic as it was.
   */
  lemma {:induction false} BeatKeysEntries(s: KeeperState, rpc: NknTransport.Config, addr: string, identifier: string,
                                           chain: Chain, keys: seq<string>, x: string)
    requires NoDup(keys)
    ensures var r := BeatKeys(s, rpc, addr, identifier, chain, keys);
      && Get(r.topics, x) == (if x in keys then BeatEntry(Get(s.topics, x), rpc, addr, chain.height, chain.ledger(x))
                              else Get(s.topics, x))
      && (Unique(s.topics) ==> Unique(r.topics))
    decreases |keys|
  {
    if keys != [] {
      var s1 := BeatOne(s, rpc, addr, identifier, chain, keys[0]);
      BeatOneEntries(s, rpc, addr, identifier, chain, keys[0]);
      BeatKeysEntries(s1, rpc, addr, identifier, chain, keys[1..], x);
      if x == keys[0] {
        assert x !in keys[1..];
      } else {
        assert x in keys <==> x in keys[1..];
      }
    }
  }

  /** One heartbeat turn appends exactly `BeatCall` of its topic to the calls. */
  lemma BeatOneCalls(s: KeeperState, rpc: NknTransport.Config, addr: string, identifier: string,
                     chain: Chain, k: string)
    ensures BeatOne(s, rpc, addr, identifier, chain, k).calls
            == s.calls + BeatCall(Get(s.topics, k), rpc, addr, identifier, k, chain.ledger(k))
  {
    match Get(s.topics, k)
    case None =>
    case Some(obj) =>
      if !obj.delete {
        SubscribeStateFields(s, rpc, addr, identifier, k, obj.metadata, Some(obj.num), Some(obj.fee), Some(chain.height), chain);
        assert OrFallback(Some(obj.num), rpc.numBlocks) != obj.num ==> obj.num == 0;
        assert NknTransport.SubscribeRequest(rpc, identifier, k, obj.metadata, Some(OrFallback(Some(obj.num), rpc.numBlocks)),
                                             Some(NknTransport.ResolveFee(Some(obj.fee), Some(rpc.fee))))
            == NknTransport.SubscribeRequest(rpc, identifier, k, obj.metadata, Some(obj.num), Some(obj.fee));
      }
  }

  lemma BeatOneFrame(s: KeeperState, rpc: NknTransport.Config, addr: string, identifier: string,
                     chain: Chain, k: string)
    ensures forall x :: x != k ==> Get(BeatOne(s, rpc, addr, identifier, chain, k).topics, x) == Get(s.topics, x)
  {
    BeatOneEntries(s, rpc, addr, identifier, chain, k);
  }

  /** `BeatCalls` reads only the entries of the keys it visits. */
  lemma {:induction false} BeatCallsFrame(t1: Dict<Topic>, t2: Dict<Topic>, rpc: NknTransport.Config, addr: string,
                                          identifier: string, chain: Chain, keys: seq<string>)
    requires forall x :: x in keys ==> Get(t1, x) == Get(t2, x)
    ensures BeatCalls(t1, rpc, addr, identifier, chain, keys) == BeatCalls(t2, rpc, addr, identifier, chain, keys)
    decreases |keys|
  {
    if keys != [] {
      assert keys[0] in keys;
      assert forall x :: x in keys[1..] ==> x in keys;
      BeatCallsFrame(t1, t2, rpc, addr, identifier, chain, keys[1..]);
    }
  }

  /** A heartbeat pass over distinct keys appends `BeatCalls` of the table it started from. */
  lemma {:induction false} BeatKeysCalls(s: KeeperState, rpc: NknTransport.Config, addr: string, identifier: string,
                                         chain: Chain, keys: seq<string>)
    requires NoDup(keys)
    ensures BeatKeys(s, rpc, addr, identifier, chain, keys).calls
            == s.calls + BeatCalls(s.topics, rpc, addr, identifier, chain, keys)
    decreases |keys|
  {
    if keys != [] {
      var k := keys[0];
      var s1 := BeatOne(s, rpc, addr, identifier, chain, k);
      var head := BeatCall(Get(s.topics, k), rpc, addr, identifier, k, chain.ledger(k));
      assert BeatKeys(s, rpc, addr, identifier, chain, keys) == BeatKeys(s1, rpc, addr, identifier, chain, keys[1..]);
      assert BeatCalls(s.topics, rpc, addr, identifier, chain, keys)
          == head + BeatCalls(s.topics, rpc, addr, identifier, chain, keys[1..]);
      BeatOneCalls(s, rpc, addr, identifier, chain, k);
      BeatOneFrame(s, rpc, addr, identifier, chain, k);
      assert k !in keys[1..];
      assert forall x :: x in keys[1..] ==> Get(s1.topics, x) == Get(s.topics, x);
      BeatCallsFrame(s1.topics, s.topics, rpc, addr, identifier, chain, keys[1..]);
      BeatKeysCalls(s1, rpc, addr, identifier, chain, keys[1..]);
      var rest := BeatCalls(s.topics, rpc, addr, identifier, chain, keys[1..]);
      assert s.calls + (head + rest) == (s.calls + head) + rest;
    }
  }

  lemma {:induction false} CallCountsAppend(a: seq<LedgerCall>, b: seq<LedgerCall>, topic: string)
    ensures CountSubscribes(a + b, topic) == CountSubscribes(a, topic) + CountSubscribes(b, topic)
    ensures CountUnsubscribes(a + b, topic) == CountUnsubscribes(a, topic) + CountUnsubscribes(b, topic)
    decreases |a|
  {
    if a == [] {
      assert a + b == b;
    } else {
      assert (a + b)[0] == a[0] && (a + b)[1..] == a[1..] + b;
      CallCountsAppend(a[1..], b, topic);
    }
  }

  /**
   * Over distinct keys, a pass submits exactly one subscription for a visited
   * topic that is not flagged and of which this node is not yet a subscriber,
   * and none for any other topic; it submits one unsubscribe exactly for a
   * visited flagged topic this node holds a confirmed subscription to.
   */
  lemma {:induction false} BeatCallsPerTopic(topics: Dict<Topic>, rpc: NknTransport.Config, addr: string,
                                             identifier: string, chain: Chain, keys: seq<string>, x: string)
    requires NoDup(keys)
    ensures var calls := BeatCalls(topics, rpc, addr, identifier, chain, keys);
            var l := chain.ledger(x);
      && CountSubscribes(calls, x)
         == (if x in keys && Get(topics, x).Some? && !Get(topics, x).value.delete && addr !in l.subscribers then 1 else 0)
      && CountUnsubscribes(calls, x)
         == (if x in keys && Get(topics, x).Some? && Get(topics, x).value.delete
                && addr in l.subscribers && l.expiresAt != 0 then 1 else 0)
    decreases |keys|
  {
    if keys != [] {
      var k := keys[0];
      var head := BeatCall(Get(topics, k), rpc, addr, identifier, k, chain.ledger(k));
      CallCountsAppend(head, BeatCalls(topics, rpc, addr, identifier, chain, keys[1..]), x);
      BeatCallsPerTopic(topics, rpc, addr, identifier, chain, keys[1..], x);
      assert k !in keys[1..];
      assert x in keys <==> x == k || x in keys[1..];
      if head != [] {
        assert head[1..] == [];
      }
    }
  }

  /**
   * A heartbeat keeps every topic but a flagged one whose ledger unsubscribe
   * went through; a kept flagged topic is untouched, and every other topic is
   * renewed with `next` recomputed at the latest height. The transactions it
   * submits are `BeatCalls` of the table it started from: per topic, one
   * subscription exactly for a cached, unflagged topic this node is not yet a
   * subscriber of, and one unsubscribe exactly for a flagged topic it holds a
   * confirmed subscription to.
   */
  lemma BeatOutcome(s: KeeperState, rpc: NknTransport.Config, addr: string, identifier: string, chain: Chain, x: string)
    requires Unique(s.topics) && |s.topics| > 0
    ensures var r := BeatState(s, rpc, addr, identifier, chain);
            var l := chain.ledger(x);
      && Unique(r.topics)
      && Get(r.topics, x) == BeatEntry(Get(s.topics, x), rpc, addr, chain.height, l)
      && (x in Keys(r.topics) <==>
            x in Keys(s.topics)
            && !(Get(s.topics, x).value.delete
                 && LedgerUnsubscribe(addr, l).outcome == NknTransport.Unsubscribed))
      && r.calls == s.calls + BeatCalls(s.topics, rpc, addr, identifier, chain, Keys(s.topics))
    ensures var r := BeatState(s, rpc, addr, identifier, chain);
            var l := chain.ledger(x);
            var added := r.calls[|s.calls|..];
      && CountSubscribes(added, x)
         == (if x in Keys(s.topics) && !Get(s.topics, x).value.delete && addr !in l.subscribers then 1 else 0)
      && CountUnsubscribes(added, x)
         == (if x in Keys(s.topics) && Get(s.topics, x).value.delete && addr in l.subscribers && l.expiresAt != 0
             then 1 else 0)
  {
    BeatKeysEntries(s, rpc, addr, identifier, chain, Keys(s.topics), x);
    BeatKeysCalls(s, rpc, addr, identifier, chain, Keys(s.topics));
    BeatCallsPerTopic(s.topics, rpc, addr, identifier, chain, Keys(s.topics), x);
    var r := BeatState(s, rpc, addr, identifier, chain);
    assert r.calls[|s.calls|..] == BeatCalls(s.topics, rpc, addr, identifier, chain, Keys(s.topics));
  }

  // ---------------------------------------------------------------------------
  // The keeper

  /** What `start` subscribes to: `opts.topics` as an array of names or an object of name -> metadata. */
  datatype StartTopics = NoTopics | Names(names: seq<string>) | WithMetadata(entries: Dict<string>)

  /** The `(topic, metadata)` pairs `start` subscribes, in order. */
  function StartList(topics: StartTopics): seq<(string, string)> {
    match topics
    case NoTopics => []
    case Names(names) => seq(|names|, i requires 0 <= i < |names| => (names[i], ""))
    case WithMetadata(entries) => entries
  }

  /** A subscription keeps every cached topic and caches its own. */
  lemma SubscribeKeepsKeys(s: KeeperState, rpc: NknTransport.Config, addr: string, identifier: string,
                           topic: string, metadata: string, chain: Chain)
    ensures var r := SubscribeState(s, rpc, addr, identifier, topic, metadata, None, None, None, chain);
      && topic in Keys(r.topics)
      && forall k :: k in Keys(s.topics) ==> k in Keys(r.topics)
  {
    var r := SubscribeState(s, rpc, addr, identifier, topic, metadata, None, None, None, chain);
    forall k | k in Keys(s.topics) ensures k in Keys(r.topics) {
      if k != topic {
        assert Get(r.topics, k) == Get(s.topics, k);
      }
    }
  }

  /** `start()`'s subscriptions, one after another. */
  function StartState(s: KeeperState, rpc: NknTransport.Config, addr: string, identifier: string, chain: Chain,
                      list: seq<(string, string)>): (r: KeeperState)
    ensures list != [] ==> r.timerActive
    ensures s.calls <= r.calls
    decreases |list|
  {
    if list == [] then s
    else
      var s1 := SubscribeState(s, rpc, addr, identifier, list[0].0, list[0].1, None, None, None, chain);
      var r := StartState(s1, rpc, addr, identifier, chain, list[1..]);
      assert s.calls <= r.calls by {
        assert r.calls[..|s1.calls|][..|s.calls|] == r.calls[..|s.calls|];
      }
      r
  }

  /** `start()` keeps every cached topic and caches each listed one. */
  lemma {:induction false} StartStateCaches(s: KeeperState, rpc: NknTransport.Config, addr: string, identifier: string,
                                            chain: Chain, list: seq<(string, string)>)
    ensures var r := StartState(s, rpc, addr, identifier, chain, list);
      && (forall k :: k in Keys(s.topics) ==> k in Keys(r.topics))
      && (forall i :: 0 <= i < |list| ==> list[i].0 in Keys(r.topics))
    decreases |list|
  {
    if list != [] {
      var s1 := SubscribeState(s, rpc, addr, identifier, list[0].0, list[0].1, None, None, None, chain);
      SubscribeKeepsKeys(s, rpc, addr, identifier, list[0].0, list[0].1, chain);
      StartStateCaches(s1, rpc, addr, identifier, chain, list[1..]);
      StartStep(s.topics, s1.topics, StartState(s1, rpc, addr, identifier, chain, list[1..]).topics, list);
    }
  }

  /** One subscription of `start()` followed by the rest keeps and caches what each part does. */
  lemma StartStep(t: Dict<Topic>, t1: Dict<Topic>, t2: Dict<Topic>, list: seq<(string, string)>)
    requires list != []
    requires forall k :: k in Keys(t) ==> k in Keys(t1)
    requires list[0].0 in Keys(t1)
    requires forall k :: k in Keys(t1) ==> k in Keys(t2)
    requires forall i :: 0 <= i < |list[1..]| ==> list[1..][i].0 in Keys(t2)
    ensures forall k :: k in Keys(t) ==> k in Keys(t2)
    ensures forall i :: 0 <= i < |list| ==> list[i].0 in Keys(t2)
  {
    forall i | 0 <= i < |list| ensures list[i].0 in Keys(t2) {
      if i > 0 {
        assert list[i] == list[1..][i - 1];
      }
    }
  }

  class PubSubPersist {
    const rpc: NknTransport.Config
    const addr: string
    const identifier: string
    const beatInterval: string
    var topics: Dict<Topic>
    var timerActive: bool
    var beatsStarted: nat
    var calls: seq<LedgerCall>

    function State(): KeeperState
      reads this
    {
      KeeperState(topics, timerActive, beatsStarted, calls)
    }

    /** The topic table never holds a key twice, as for the object it models. */
    predicate Valid()
      reads this
    {
      Unique(topics)
    }

    /** A keeper bound to a connected transport, with `beatInterval || '5s'`. */
    constructor (rpc: NknTransport.Config, addr: string, identifier: string, beatInterval: Option<string>)
      ensures this.rpc == rpc && this.addr == addr && this.identifier == identifier
      ensures this.beatInterval == if beatInterval.Some? && beatInterval.value != "" then beatInterval.value
                                   else DefaultBeatInterval
      ensures State() == KeeperState([], false, 0, [])
      ensures Valid()
    {
      this.rpc := rpc;
      this.addr := addr;
      this.identifier := identifier;
      this.beatInterval := if beatInterval.Some? && beatInterval.value != "" then beatInterval.value
                           else DefaultBeatInterval;
      topics := [];
      timerActive := false;
      beatsStarted := 0;
      calls := [];
    }

    method HasTopics() returns (b: bool)
      ensures b <==> Keys(topics) != []
    {
      b := |topics| != 0;
    }

    method StartHeart()
      modifies this
      ensures State() == StartHeartState(old(State()))
    {
      var has := HasTopics();
      if !has || timerActive {
        return;
      }
      beatsStarted := beatsStarted + 1;
      timerActive := true;
    }

    method Subscribe(topic: string, metadata: string, num: Option<nat>, fee: Option<real>, height: Option<int>,
                     chain: Chain)
      requires Valid()
      modifies this
      ensures State() == SubscribeState(old(State()), rpc, addr, identifier, topic, metadata, num, fee, height, chain)
      ensures Valid()
    {
      var f := NknTransport.ResolveFee(fee, Some(rpc.fee));
      var h := OrFallback(height, chain.height);
      var n := OrFallback(num, rpc.numBlocks);
      var obj := Cached(topics, topic, metadata, f, n);
      topics := Set(topics, topic, obj);
      StartHeart();
      Renew(topic, metadata, obj, f, n, h, chain.ledger(topic));
      SubscribeCachesOnce(old(State()), rpc, addr, identifier, topic, metadata, num, fee, height, chain);
    }

    /** The part of `subscribe` after `startHeart`, on the cached entry `obj`. */
    method Renew(topic: string, metadata: string, obj: Topic, f: real, n: nat, h: int, l: TopicLedger)
      modifies this
      ensures State() == RenewState(old(State()), rpc, addr, identifier, topic, metadata, obj, f, n, h, l)
    {
      var next := h + n + 1;
      var subs := l.subscribers;
      var member := addr in subs;
      if member && l.expiresAt != 0 {
        next := l.expiresAt;
      }
      assert next == NextBlock(member, l.expiresAt, h, n);
      topics := Set(topics, topic, obj.(next := Some(next)));
      if !member {
        calls := calls + [SubscribeCall(NknTransport.SubscribeRequest(rpc, identifier, topic, metadata, Some(n), Some(f)))];
      }
    }

    method Unsubscribe(topic: string)
      requires Valid()
      modifies this
      ensures State() == UnsubscribeState(old(State()), rpc, topic)
      ensures Valid()
    {
      var obj := Get(topics, topic).GetOr(Topic(topic, "", 0.0, rpc.numBlocks, None, false));
      SetUnique(topics, topic, obj.(delete := true));
      topics := Set(topics, topic, obj.(delete := true));
      StartHeart();
    }

    method Heartbeat(chain: Chain)
      requires Valid()
      modifies this
      ensures State() == BeatState(old(State()), rpc, addr, identifier, chain)
      ensures Valid()
    {
      var has := HasTopics();
      if !has {
        timerActive := false;
        return;
      }
      var height := chain.height;
      var keys := Keys(topics);
      var i := 0;
      while i < |keys|
        invariant 0 <= i <= |keys|
        invariant Valid()
        invariant BeatState(old(State()), rpc, addr, identifier, chain)
               == BeatKeys(State(), rpc, addr, identifier, chain, keys[i..])
      {
        assert keys[i..][0] == keys[i] && keys[i..][1..] == keys[i + 1..];
        BeatTopic(keys[i], height, chain);
        i := i + 1;
      }
    }

    /** One turn of the `for (const topic in this.topics)` loop of `heartbeat`. */
    method BeatTopic(k: string, height: int, chain: Chain)
      requires height == chain.height
      requires Valid()
      modifies this
      ensures State() == BeatOne(old(State()), rpc, addr, identifier, chain, k)
      ensures Valid()
    {
      match Get(topics, k) {
        case None =>
        case Some(obj) =>
          if obj.delete {
            var res := LedgerUnsubscribe(addr, chain.ledger(k));
            if res.sentUnsubscribe {
              calls := calls + [UnsubscribeCall(k)];
            }
            if res.outcome == NknTransport.Unsubscribed {
              DeleteUnique(topics, k);
              topics := Delete(topics, k);
            }
          } else {
            Subscribe(k, obj.metadata, Some(obj.num), Some(obj.fee), Some(height), chain);
          }
      }
    }

    method Start(opts: StartTopics, chain: Chain)
      requires Valid()
      modifies this
      ensures State() == StartHeartState(StartState(old(State()), rpc, addr, identifier, chain, StartList(opts)))
      ensures Valid()
    {
      var list := StartList(opts);
      var i := 0;
      while i < |list|
        invariant 0 <= i <= |list|
        invariant Valid()
        invariant StartState(old(State()), rpc, addr, identifier, chain, list)
               == StartState(State(), rpc, addr, identifier, chain, list[i..])
      {
        assert list[i..][0] == list[i] && list[i..][1..] == list[i + 1..];
        Subscribe(list[i].0, list[i].1, None, None, None, chain);
        i := i + 1;
      }
      StartHeart();
    }
  }
}
