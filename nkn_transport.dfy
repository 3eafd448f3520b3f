/**
 * The NKN transport's own logic: option defaults, the bounded send retry,
 * the fee and block-count resolution of a ledger subscription, the decision
 * whether an unsubscribe happened, and the normalisation and flattening of a
 * subscriber query. The NKN client and wallet are external: their answers
 * are parameters.
 */
module NknTransport {
  import opened Wrappers
  import opened Dicts
  import opened Strings

  const MaxSendRetries: nat := 3
  const NumberBlocks: nat := 2
  const DefaultFee: real := 0.0

  /** The start of the error message of a send that timed out on every sub-client. */
  const TimeoutPrefix: string := "failed to send with any client" + ": Error: Message timeout"

  // ---------------------------------------------------------------------------
  // _connect: option defaults

  /** The transport options `_connect` reads; `None` is an absent key. */
  datatype TransportOptions = TransportOptions(fee: Option<real>, numBlocks: Option<nat>, maxRetries: Option<nat>)

  datatype Config = Config(fee: real, numBlocks: nat, maxRetries: nat)

  /** `this.opts.x || DEFAULT`: an absent or zero option falls back to its default. */
  function Configure(opts: TransportOptions): (c: Config)
    ensures c.fee == if opts.fee.Some? && opts.fee.value != 0.0 then opts.fee.value else DefaultFee
    ensures c.numBlocks == if opts.numBlocks.Some? && opts.numBlocks.value != 0 then opts.numBlocks.value else NumberBlocks
    ensures c.maxRetries == if opts.maxRetries.Some? && opts.maxRetries.value != 0 then opts.maxRetries.value else MaxSendRetries
    ensures c.numBlocks > 0 && c.maxRetries > 0
  {
    Config(
      match opts.fee case Some(f) => (if f != 0.0 then f else DefaultFee) case None => DefaultFee,
      match opts.numBlocks case Some(n) => (if n != 0 then n else NumberBlocks) case None => NumberBlocks,
      match opts.maxRetries case Some(n) => (if n != 0 then n else MaxSendRetries) case None => MaxSendRetries)
  }

  // ---------------------------------------------------------------------------
  // _send: the bounded retry

  /** What one `client.send(dest, payload)` call does. */
  datatype Attempt = Delivered(response: string) | Rejected(message: string)

  /** The error `_send` raises once its budget is spent. */
  function Exhausted(maxRetries: nat): (r: string)
    ensures !IsTimeout(r)
  {
    var r := "Send failed after " + NatToString(maxRetries) + " tries";
    assert r[0] == 'S' && TimeoutPrefix[0] == 'f';
    assert |r| >= |TimeoutPrefix| ==> r[..|TimeoutPrefix|][0] == r[0];
    r
  }

  /** A rejection counts as a timeout when its message begins with the timeout prefix. */
  predicate IsTimeout(message: string)
    ensures IsTimeout(message) <==> |message| >= |TimeoutPrefix| && message == TimeoutPrefix + message[|TimeoutPrefix|..]
  {
    StartsWith(message, TimeoutPrefix)
  }

  /**
   * The outcome of `send()` called with `tries == k`, and the number of
   * client calls made from there on; `client(k)` is what the `k`-th call does.
   */
  function SendFrom(client: nat -> Attempt, maxRetries: nat, k: nat): (r: (Result<string, string>, nat))
    requires k >= 1
    ensures r.1 >= 1
    ensures r.0.Ok? ==> client(k + r.1 - 1) == Delivered(r.0.value)
    decreases maxRetries - k
  {
    match client(k)
    case Delivered(response) => (Ok(response), 1)
    case Rejected(message) =>
      if k + 1 > maxRetries then (Err(Exhausted(maxRetries)), 1)
      else if IsTimeout(message) then
        var (res, n) := SendFrom(client, maxRetries, k + 1);
        (res, n + 1)
      else (Err(message), 1)
  }

  /** `_send(dest, payload)`: `send()` with `tries = 1`. */
  function SendResult(client: nat -> Attempt, maxRetries: nat): (r: (Result<string, string>, nat))
    ensures 1 <= r.1 <= if maxRetries <= 1 then 1 else maxRetries
    ensures r.0.Ok? ==> client(r.1) == Delivered(r.0.value)
  {
    SendAttemptsBounded(client, maxRetries, 1);
    SendFrom(client, maxRetries, 1)
  }

  /**
   * `_send` as the loop its recursion unrolls to: call the client; on a
   * rejection bump `tries`, give up past `maxRetries`, retry on a timeout,
   * rethrow anything else.
   */
  method Send(client: nat -> Attempt, maxRetries: nat) returns (result: Result<string, string>, attempts: nat)
    ensures (result, attempts) == SendResult(client, maxRetries)
  {
    var tries := 1;
    attempts := 0;
    while true
      invariant tries >= 1 && attempts == tries - 1
      invariant (tries == 1 || tries <= maxRetries)
      invariant SendResult(client, maxRetries) ==
                (SendFrom(client, maxRetries, tries).0, attempts + SendFrom(client, maxRetries, tries).1)
      decreases maxRetries + 1 - tries
    {
      var outcome := client(tries);
      attempts := attempts + 1;
      match outcome {
        case Delivered(response) =>
          result := Ok(response);
          return;
        case Rejected(message) =>
          tries := tries + 1;
          if tries > maxRetries {
            result := Err(Exhausted(maxRetries));
            return;
          }
          if !IsTimeout(message) {
            result := Err(message);
            return;
          }
      }
    }
  }

  /** At most `maxRetries` client calls are made (one when `maxRetries` is 0). */
  lemma {:induction false} SendAttemptsBounded(client: nat -> Attempt, maxRetries: nat, k: nat)
    requires 1 <= k && (k == 1 || k <= maxRetries)
    ensures SendFrom(client, maxRetries, k).1 <= if maxRetries <= k then 1 else maxRetries - k + 1
    decreases maxRetries - k
  {
    match client(k)
    case Delivered(_) =>
    case Rejected(message) =>
      if k + 1 <= maxRetries && IsTimeout(message) {
        SendAttemptsBounded(client, maxRetries, k + 1);
      }
  }

  /** A send whose every call times out is tried exactly `maxRetries` times, then fails as exhausted. */
  lemma {:induction false} AlwaysTimingOut(client: nat -> Attempt, maxRetries: nat, k: nat)
    requires 1 <= k <= maxRetries || k == 1
    requires forall j :: j >= 1 ==> client(j).Rejected? && IsTimeout(client(j).message)
    ensures SendFrom(client, maxRetries, k) ==
            (Err(Exhausted(maxRetries)), if maxRetries <= k then 1 else maxRetries - k + 1)
    decreases maxRetries - k
  {
    if k + 1 <= maxRetries {
      AlwaysTimingOut(client, maxRetries, k + 1);
    }
  }

  /**
   * Within the budget, the first delivery is returned unchanged and the first
   * non-timeout rejection is rethrown unchanged; on the call that spends the
   * budget any rejection becomes the exhausted error.
   */
  lemma {:induction false} FirstDecisiveCall(client: nat -> Attempt, maxRetries: nat, k: nat, j: nat)
    requires 1 <= k <= j
    requires forall i :: k <= i < j ==> client(i).Rejected? && IsTimeout(client(i).message)
    requires j <= maxRetries || j == 1
    requires client(j).Delivered? || !IsTimeout(client(j).message) || j >= maxRetries
    ensures SendFrom(client, maxRetries, k) ==
            (if client(j).Delivered? then Ok(client(j).response)
             else if j + 1 > maxRetries then Err(Exhausted(maxRetries))
             else Err(client(j).message),
             j - k + 1)
    decreases j - k
  {
    if k < j {
      FirstDecisiveCall(client, maxRetries, k + 1, j);
    }
  }

  /** The case the retry test describes: one allowed try, a timeout, the exhausted error. */
  lemma OneTryTimeout()
    ensures SendResult(_ => Rejected("Message timeout"), 1) == (Err("Send failed after 1 tries"), 1)
  {
    var client: nat -> Attempt := _ => Rejected("Message timeout");
    assert client(1) == Rejected("Message timeout");
    assert DigitChar(1) == '1';
    assert Exhausted(1) == "Send failed after 1 tries";
  }

  // ---------------------------------------------------------------------------
  // subscribe and unsubscribe

  /** The ledger transaction `subscribe` asks the wallet for. */
  datatype SubscribeTx = SubscribeTx(topic: string, num: nat, identifier: string, metadata: string, fee: real)

  /** `!_.isNil(fee) ? fee : !_.isNil(this.fee) ? this.fee : 0` */
  function ResolveFee(fee: Option<real>, transportFee: Option<real>): (f: real)
    ensures fee.Some? ==> f == fee.value
    ensures fee.None? && transportFee.Some? ==> f == transportFee.value
    ensures fee.None? && transportFee.None? ==> f == 0.0
  {
    match fee
    case Some(v) => v
    case None => transportFee.GetOr(0.0)
  }

  /**
   * `subscribe(topic, metadata, num, fee)`: the transaction submitted, with
   * `num || this.numBlocks` blocks. A ledger error is logged and swallowed, so
   * the caller sees no outcome either way.
   */
  function SubscribeRequest(config: Config, identifier: string, topic: string, metadata: string,
                            num: Option<nat>, fee: Option<real>): (tx: SubscribeTx)
    ensures tx.topic == topic && tx.identifier == identifier && tx.metadata == metadata
    ensures tx.num == if num.Some? && num.value != 0 then num.value else config.numBlocks
    ensures tx.num > 0 <== config.numBlocks > 0
    ensures tx.fee == ResolveFee(fee, Some(config.fee))
  {
    SubscribeTx(topic, if num.Some? && num.value != 0 then num.value else config.numBlocks,
                identifier, metadata, ResolveFee(fee, Some(config.fee)))
  }

  /** An explicit fee of 0 is kept: only a missing fee falls back. */
  lemma ExplicitZeroFeeKept(config: Config, identifier: string, topic: string, metadata: string, num: Option<nat>)
    ensures SubscribeRequest(config, identifier, topic, metadata, num, Some(0.0)).fee == 0.0
  {
  }

  /** What `unsubscribe` resolves with: `true`, or whatever the logger returned. */
  datatype UnsubOutcome = Unsubscribed | Logged(reason: string)

  /** The outcome and the ledger calls `unsubscribe` made. */
  datatype UnsubResult = UnsubResult(outcome: UnsubOutcome, askedSubscription: bool, sentUnsubscribe: bool)

  /**
   * `unsubscribe(topic)` given the ledger's answers: the subscriber list
   * (confirmed and pending), the `expiresAt` of our own subscription, and
   * whether the unsubscribe transaction is accepted.
   */
  function UnsubscribeDecision(addr: string, subscribers: seq<string>, expiresAt: int, accepted: bool): (r: UnsubResult)
    ensures r.outcome == Unsubscribed <==> addr in subscribers && expiresAt != 0 && accepted
    ensures r.askedSubscription <==> addr in subscribers
    ensures r.sentUnsubscribe <==> addr in subscribers && expiresAt != 0
  {
    if addr !in subscribers then UnsubResult(Logged("can't unsubscribe -- address not found"), false, false)
    else if expiresAt == 0 then UnsubResult(Logged("can't unsubscribe -- address in tx pool"), true, false)
    else if accepted then UnsubResult(Unsubscribed, true, true)
    else UnsubResult(Logged("unsub error"), true, true)
  }

  // ---------------------------------------------------------------------------
  // getSubscribers

  /** The second argument of `getSubscribers`: a boolean, or an object whose keys may be absent. */
  datatype SubscribersOpts =
    | MetaFlag(meta: bool)
    | OptsObject(metaOpt: Option<bool>, txPool: Option<bool>, offset: Option<nat>, limit: Option<nat>)

  /** The query sent to the wallet: `meta` is always requested. */
  datatype Query = Query(meta: bool, txPool: bool, offset: nat, limit: nat)

  /** `opts` after the boolean shorthand and `_.defaults`, and the caller's own `meta`. */
  function Normalize(opts: SubscribersOpts): (r: (Query, bool))
    ensures r.0.meta
    ensures opts.MetaFlag? ==> r == (Query(true, true, 0, 1000), opts.meta)
    ensures opts.OptsObject? ==>
      && r.1 == opts.metaOpt.GetOr(false)
      && r.0.txPool == opts.txPool.GetOr(true)
      && r.0.offset == opts.offset.GetOr(0)
      && r.0.limit == opts.limit.GetOr(1000)
  {
    match opts
    case MetaFlag(m) => (Query(true, true, 0, 1000), m)
    case OptsObject(m, t, o, l) => (Query(true, t.GetOr(true), o.GetOr(0), l.GetOr(1000)), m.GetOr(false))
  }

  /** The wallet's answer to a query with `meta`: address -> metadata, confirmed and pending. */
  datatype Response = Response(subscribers: Dict<string>, subscribersInTxPool: Dict<string>)

  datatype Subscribers =
    | Raw(response: Response)
    | Addrs(addrs: seq<string>)
    | WithMeta(entries: seq<(string, string)>)

  /** The nested loop: confirmed entries, then pending entries, each in key order. */
  method Flatten(res: Response) returns (arr: seq<(string, string)>)
    ensures arr == res.subscribers + res.subscribersInTxPool
  {
    arr := [];
    var maps := [res.subscribers, res.subscribersInTxPool];
    var m := 0;
    while m < 2
      invariant 0 <= m <= 2
      invariant arr == if m == 0 then [] else if m == 1 then maps[0] else maps[0] + maps[1]
    {
      var map_ := maps[m];
      var i := 0;
      ghost var before := arr;
      while i < |map_|
        invariant 0 <= i <= |map_|
        invariant arr == before + map_[..i]
      {
        arr := arr + [(map_[i].0, map_[i].1)];
        assert map_[..i + 1] == map_[..i] + [map_[i]];
        i := i + 1;
      }
      assert map_[..|map_|] == map_;
      m := m + 1;
    }
  }

  /** `getSubscribers(topic, opts)`, given the wallet's answer to the normalised query. */
  method GetSubscribers(opts: SubscribersOpts, res: Response) returns (query: Query, r: Subscribers)
    ensures query == Normalize(opts).0
    ensures !query.txPool ==> r == Raw(res)
    ensures query.txPool && Normalize(opts).1 ==> r == WithMeta(res.subscribers + res.subscribersInTxPool)
    ensures query.txPool && !Normalize(opts).1 ==> r == Addrs(Keys(res.subscribers) + Keys(res.subscribersInTxPool))
  {
    var meta;
    query, meta := Normalize(opts).0, Normalize(opts).1;
    if !query.meta || !query.txPool {
      r := Raw(res);
      return;
    }
    var arr := Flatten(res);
    if !meta {
      r := Addrs(Keys(arr));
      KeysAppend(res.subscribers, res.subscribersInTxPool);
    } else {
      r := WithMeta(arr);
    }
  }

  lemma KeysAppend(a: Dict<string>, b: Dict<string>)
    ensures Keys(a + b) == Keys(a) + Keys(b)
  {
  }

  /**
   * The list `unsubscribe` checks (`getSubscribers(topic, false)`) holds every
   * confirmed and every pending subscriber, confirmed ones first.
   */
  lemma MemberListComplete(res: Response, a: string)
    ensures var flat := Keys(res.subscribers) + Keys(res.subscribersInTxPool);
      && (a in flat <==> a in Keys(res.subscribers) || a in Keys(res.subscribersInTxPool))
      && flat[..|res.subscribers|] == Keys(res.subscribers)
  {
  }

  /** `unsubscribe(topic)` from the wallet's raw answers. */
  function Unsubscribe(addr: string, res: Response, expiresAt: int, accepted: bool): (r: UnsubResult)
    ensures r.outcome == Unsubscribed <==>
            (addr in Keys(res.subscribers) || addr in Keys(res.subscribersInTxPool)) && expiresAt != 0 && accepted
  {
    UnsubscribeDecision(addr, Keys(res.subscribers) + Keys(res.subscribersInTxPool), expiresAt, accepted)
  }
}
