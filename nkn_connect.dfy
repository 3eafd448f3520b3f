/**
 * The connection orchestrator (`NknConnect`): resolves its options, buffers
 * the handlers registered before a client exists and hands them to the client
 * once it does, and runs `connect`: a multi-client whose sub-clients each race
 * a timer, a quorum gate that reports the late-connecting nodes once enough of
 * them arrived, and a retry with four more sub-clients whenever the
 * multi-client as a whole fails.
 *
 * The NKN multi-client is external: its handler lists and readiness are
 * modelled as a `Client` value, and what its sub-clients do is the sequence of
 * event methods called on a `ConnectRun`.
 */
module NknConnect {
  import opened Wrappers
  import Races

  // ---------------------------------------------------------------------------
  // Options

  /** A callback passed by the user, identified by a number. */
  type Handler = nat

  /** The constructor's options; `None` is an absent key. */
  datatype ConnectOptions = ConnectOptions(
    numSubClients: Option<nat>,
    connectTimeout: Option<nat>,
    threshold: Option<real>,
    suppressLogs: Option<bool>,
    onNodes: Option<Handler>,
    onNode: seq<Handler>)  // `opts.onNode`, a function or an array of them

  datatype Options = Options(
    numSubClients: nat,
    connectTimeout: nat,
    threshold: real,
    suppressLogs: bool,
    onNodes: Option<Handler>,
    onNode: seq<Handler>)

  /**
   * `{ numSubClients: opts.numSubClients || 6, connectTimeout: opts.connectTimeout || 1200,
   * threshold: 0.8, suppressLogs: false, ...opts }`: the spread copies every
   * given key over the defaults, so a given value wins even when it is falsy.
   */
  function ResolveOptions(given: ConnectOptions): (o: Options)
    ensures given.numSubClients.Some? ==> o.numSubClients == given.numSubClients.value
    ensures given.numSubClients.None? ==> o.numSubClients == 6
    ensures given.connectTimeout.Some? ==> o.connectTimeout == given.connectTimeout.value
    ensures given.connectTimeout.None? ==> o.connectTimeout == 1200
    ensures given.threshold.Some? ==> o.threshold == given.threshold.value
    ensures given.threshold.None? ==> o.threshold == 0.8
    ensures given.suppressLogs.Some? ==> o.suppressLogs == given.suppressLogs.value
    ensures given.suppressLogs.None? ==> !o.suppressLogs
    ensures o.onNodes == given.onNodes && o.onNode == given.onNode
  {
    var numSubClients := match given.numSubClients case Some(n) => if n != 0 then n else 6 case None => 6;
    var connectTimeout := match given.connectTimeout case Some(t) => if t != 0 then t else 1200 case None => 1200;
    // `...opts` then overwrites each default with the given value
    Options(
      given.numSubClients.GetOr(numSubClients),
      given.connectTimeout.GetOr(connectTimeout),
      given.threshold.GetOr(0.8),
      given.suppressLogs.GetOr(false),
      given.onNodes,
      given.onNode)
  }

  /** The `||` fallback never applies: an explicit 0 is kept. */
  lemma ExplicitZeroKept(given: ConnectOptions)
    requires given.numSubClients == Some(0)
    ensures ResolveOptions(given).numSubClients == 0
  {
  }

  // ---------------------------------------------------------------------------
  // Handler buffering

  /** What the model needs of an NKN client: the handlers attached to it and its readiness. */
  datatype Client = Client(
    messageHandlers: seq<Handler>,
    wsErrorHandlers: seq<Handler>,
    isReady: bool,
    replayOnConnect: bool)  // `init` registered the replay of `connectHandlers` with `client.onConnect`

  class Connector {
    const opts: Options
    var client: Option<Client>
    var messageHandlers: seq<Handler>
    var connectHandlers: seq<Handler>
    var wsErrorHandlers: seq<Handler>
    /** The connect handlers called so far, in call order. */
    var invoked: seq<Handler>

    constructor (given: ConnectOptions)
      ensures opts == ResolveOptions(given)
      ensures client == None && messageHandlers == [] && connectHandlers == [] && wsErrorHandlers == []
      ensures invoked == []
    {
      opts := ResolveOptions(given);
      client := None;
      messageHandlers, connectHandlers, wsErrorHandlers := [], [], [];
      invoked := [];
    }

    /** `onMessage(fn)`: attach to the client if there is one, else queue. */
    method OnMessage(fn: Handler)
      modifies this
      ensures old(client).Some? ==>
        client == Some(old(client).value.(messageHandlers := old(client).value.messageHandlers + [fn]))
        && messageHandlers == old(messageHandlers)
      ensures old(client).None? ==> client == None && messageHandlers == old(messageHandlers) + [fn]
      ensures connectHandlers == old(connectHandlers) && wsErrorHandlers == old(wsErrorHandlers)
      ensures invoked == old(invoked)
    {
      if client.Some? {
        client := Some(client.value.(messageHandlers := client.value.messageHandlers + [fn]));
      } else {
        messageHandlers := messageHandlers + [fn];
      }
    }

    /** `onWsError(fn)`: attach to the client if there is one, else queue. */
    method OnWsError(fn: Handler)
      modifies this
      ensures old(client).Some? ==>
        client == Some(old(client).value.(wsErrorHandlers := old(client).value.wsErrorHandlers + [fn]))
        && wsErrorHandlers == old(wsErrorHandlers)
      ensures old(client).None? ==> client == None && wsErrorHandlers == old(wsErrorHandlers) + [fn]
      ensures connectHandlers == old(connectHandlers) && messageHandlers == old(messageHandlers)
      ensures invoked == old(invoked)
    {
      if client.Some? {
        client := Some(client.value.(wsErrorHandlers := client.value.wsErrorHandlers + [fn]));
      } else {
        wsErrorHandlers := wsErrorHandlers + [fn];
      }
    }

    /** `onConnect(fn)`: call it now if the client is ready, else queue it. */
    method OnConnect(fn: Handler)
      modifies this
      ensures var ready := old(client).Some? && old(client).value.isReady;
        && (ready ==> invoked == old(invoked) + [fn] && connectHandlers == old(connectHandlers))
        && (!ready ==> invoked == old(invoked) && connectHandlers == old(connectHandlers) + [fn])
      ensures client == old(client) && messageHandlers == old(messageHandlers) && wsErrorHandlers == old(wsErrorHandlers)
    {
      if client.Some? && client.value.isReady {
        invoked := invoked + [fn];
      } else {
        connectHandlers := connectHandlers + [fn];
      }
    }

    /**
     * `init()`, given the client `connect` resolved with: attach the queued
     * message and websocket-error handlers in order, then call the queued
     * connect handlers now if the client is ready, or on its connect otherwise.
     */
    method Init(c: Client)
      modifies this
      ensures client == Some(c.(messageHandlers := c.messageHandlers + messageHandlers,
                                wsErrorHandlers := c.wsErrorHandlers + wsErrorHandlers,
                                replayOnConnect := c.replayOnConnect || !c.isReady))
      ensures invoked == if c.isReady then old(invoked) + connectHandlers else old(invoked)
      ensures messageHandlers == old(messageHandlers) && wsErrorHandlers == old(wsErrorHandlers)
      ensures connectHandlers == old(connectHandlers)
    {
      var attached := c;
      var i := 0;
      while i < |messageHandlers|
        invariant 0 <= i <= |messageHandlers|
        invariant attached == c.(messageHandlers := c.messageHandlers + messageHandlers[..i])
      {
        attached := attached.(messageHandlers := attached.messageHandlers + [messageHandlers[i]]);
        assert messageHandlers[..i + 1] == messageHandlers[..i] + [messageHandlers[i]];
        i := i + 1;
      }
      assert messageHandlers[..|messageHandlers|] == messageHandlers;
      i := 0;
      while i < |wsErrorHandlers|
        invariant 0 <= i <= |wsErrorHandlers|
        invariant attached == c.(messageHandlers := c.messageHandlers + messageHandlers,
                                 wsErrorHandlers := c.wsErrorHandlers + wsErrorHandlers[..i])
      {
        attached := attached.(wsErrorHandlers := attached.wsErrorHandlers + [wsErrorHandlers[i]]);
        assert wsErrorHandlers[..i + 1] == wsErrorHandlers[..i] + [wsErrorHandlers[i]];
        i := i + 1;
      }
      assert wsErrorHandlers[..|wsErrorHandlers|] == wsErrorHandlers;
      if attached.isReady {
        invoked := invoked + connectHandlers;
      } else {
        attached := attached.(replayOnConnect := true);
      }
      client := Some(attached);
    }

    /**
     * The client connects: it becomes ready and, if `init` registered the
     * replay, every queued connect handler is called, including those queued
     * after `init`.
     */
    method ClientConnected()
      modifies this
      ensures old(client).Some? ==> client == Some(old(client).value.(isReady := true))
      ensures old(client).None? ==> client == None
      ensures invoked == if old(client).Some? && old(client).value.replayOnConnect
                         then old(invoked) + connectHandlers else old(invoked)
      ensures messageHandlers == old(messageHandlers) && wsErrorHandlers == old(wsErrorHandlers)
      ensures connectHandlers == old(connectHandlers)
    {
      if client.Some? {
        if client.value.replayOnConnect {
          invoked := invoked + connectHandlers;
        }
        client := Some(client.value.(isReady := true));
      }
    }
  }

  /**
   * Message handlers registered before and after `init` all end up attached
   * to the client, each exactly once and in registration order.
   */
  method MessageHandlersInOrder(given: ConnectOptions, c: Client, before: seq<Handler>, after: seq<Handler>)
    returns (conn: Connector)
    ensures conn.client.Some?
    ensures conn.client.value.messageHandlers == c.messageHandlers + before + after
  {
    conn := new Connector(given);
    var i := 0;
    while i < |before|
      invariant 0 <= i <= |before|
      invariant conn.client == None && conn.messageHandlers == before[..i]
      modifies conn
    {
      conn.OnMessage(before[i]);
      assert before[..i + 1] == before[..i] + [before[i]];
      i := i + 1;
    }
    assert before[..|before|] == before;
    conn.Init(c);
    i := 0;
    while i < |after|
      invariant 0 <= i <= |after|
      invariant conn.client.Some? && conn.client.value.messageHandlers == c.messageHandlers + before + after[..i]
      modifies conn
    {
      conn.OnMessage(after[i]);
      assert after[..i + 1] == after[..i] + [after[i]];
      i := i + 1;
    }
    assert after[..|after|] == after;
  }

  /**
   * Connect handlers registered before `init`, between `init` and the
   * client's connect, and after it are each called exactly once, in
   * registration order, once the client is ready.
   */
  method ConnectHandlersInOrder(given: ConnectOptions, c: Client, before: seq<Handler>, waiting: seq<Handler>,
                                after: seq<Handler>)
    returns (conn: Connector)
    requires !c.isReady && !c.replayOnConnect
    ensures conn.invoked == before + waiting + after
  {
    conn := new Connector(given);
    var i := 0;
    while i < |before|
      invariant 0 <= i <= |before|
      invariant conn.client == None && conn.connectHandlers == before[..i] && conn.invoked == []
      modifies conn
    {
      conn.OnConnect(before[i]);
      assert before[..i + 1] == before[..i] + [before[i]];
      i := i + 1;
    }
    assert before[..|before|] == before;
    conn.Init(c);
    i := 0;
    while i < |waiting|
      invariant 0 <= i <= |waiting|
      invariant conn.client.Some? && !conn.client.value.isReady && conn.client.value.replayOnConnect
      invariant conn.connectHandlers == before + waiting[..i] && conn.invoked == []
      modifies conn
    {
      conn.OnConnect(waiting[i]);
      assert waiting[..i + 1] == waiting[..i] + [waiting[i]];
      i := i + 1;
    }
    assert waiting[..|waiting|] == waiting;
    conn.ClientConnected();
    i := 0;
    while i < |after|
      invariant 0 <= i <= |after|
      invariant conn.client.Some? && conn.client.value.isReady
      invariant conn.invoked == before + waiting + after[..i]
      modifies conn
    {
      conn.OnConnect(after[i]);
      assert after[..i + 1] == after[..i] + [after[i]];
      i := i + 1;
    }
    assert after[..|after|] == after;
  }

  // ---------------------------------------------------------------------------
  // connect: the quorum gate and the per-node races

  /** An entry of `opts.onNode`: a user callback, or the quorum gate `connect` pushes, with its `connected` flag. */
  datatype NodeCallback = User(h: Handler) | Gate(connected: bool)

  /** A call made by a late connect: a user `onNode(node, nodes)`, or `onNodes(nodes)` by a gate. */
  datatype Call = UserCall(h: Handler, node: string, count: nat) | OnNodesCall(nodes: seq<string>)

  /**
   * `nodes.length / numSubClients >= threshold` in floating point: with no
   * sub-clients the ratio is Infinity when nodes exist and NaN otherwise.
   */
  predicate QuorumReached(count: nat, numSubClients: nat, threshold: real)
    ensures 0 < numSubClients <= count && threshold <= 1.0 ==> QuorumReached(count, numSubClients, threshold)
    ensures count == 0 && (numSubClients == 0 || threshold > 0.0) ==> !QuorumReached(count, numSubClients, threshold)
  {
    if numSubClients == 0 then count > 0
    else (count as real) / (numSubClients as real) >= threshold
  }

  function CountGates(cbs: seq<NodeCallback>): nat {
    if cbs == [] then 0 else (if cbs[0].Gate? then 1 else 0) + CountGates(cbs[1..])
  }

  function CountFired(cbs: seq<NodeCallback>): nat {
    if cbs == [] then 0 else (if cbs[0] == Gate(true) then 1 else 0) + CountFired(cbs[1..])
  }

  function CountOnNodes(calls: seq<Call>): nat {
    if calls == [] then 0 else (if calls[0].OnNodesCall? then 1 else 0) + CountOnNodes(calls[1..])
  }

  lemma {:induction false} FiredAtMostGates(cbs: seq<NodeCallback>)
    ensures CountFired(cbs) <= CountGates(cbs)
  {
    if cbs != [] {
      FiredAtMostGates(cbs[1..]);
    }
  }

  lemma {:induction false} CountOnNodesAppend(a: seq<Call>, b: seq<Call>)
    ensures CountOnNodes(a + b) == CountOnNodes(a) + CountOnNodes(b)
  {
    if a != [] {
      assert (a + b)[1..] == a[1..] + b;
      CountOnNodesAppend(a[1..], b);
    } else {
      assert a + b == b;
    }
  }

  /**
   * `for (const cb of _.toArr(this.opts.onNode)) cb(node, nodes)`: each user
   * callback is called; a gate whose flag is still down calls `onNodes` and
   * raises its flag once the quorum is reached.
   */
  function Notify(cbs: seq<NodeCallback>, node: string, nodes: seq<string>, numSubClients: nat, threshold: real)
    : (r: (seq<NodeCallback>, seq<Call>))
    ensures |r.0| == |cbs| && CountGates(r.0) == CountGates(cbs)
    ensures forall i :: 0 <= i < |cbs| ==> r.0[i].Gate? == cbs[i].Gate?
    ensures CountFired(r.0) == CountFired(cbs) + CountOnNodes(r.1)
    ensures forall c :: c in r.1 && c.OnNodesCall? ==> c.nodes == nodes && QuorumReached(|nodes|, numSubClients, threshold)
    ensures forall i :: 0 <= i < |cbs| && cbs[i].User? ==> UserCall(cbs[i].h, node, |nodes|) in r.1
    ensures QuorumReached(|nodes|, numSubClients, threshold) ==> CountFired(r.0) == CountGates(cbs)
    ensures !QuorumReached(|nodes|, numSubClients, threshold) ==> r.0 == cbs
  {
    if cbs == [] then ([], [])
    else
      var (rest, calls) := Notify(cbs[1..], node, nodes, numSubClients, threshold);
      match cbs[0]
      case User(h) => ([User(h)] + rest, [UserCall(h, node, |nodes|)] + calls)
      case Gate(connected) =>
        if !connected && QuorumReached(|nodes|, numSubClients, threshold)
        then ([Gate(true)] + rest, [OnNodesCall(nodes)] + calls)
        else ([Gate(connected)] + rest, calls)
  }

  function StartRaces(n: nat): (races: seq<Races.Race<Option<string>>>)
    ensures |races| == n
    ensures forall i :: 0 <= i < n ==> races[i] == Races.Start()
  {
    seq(n, _ => Races.Start())
  }

  predicate AllSettled(races: seq<Races.Race<Option<string>>>) {
    forall i :: 0 <= i < |races| ==> races[i].outcome.Some?
  }

  /** The callbacks after `connect()` runs once more: with `onNodes`, one more gate. */
  function WithGate(cbs: seq<NodeCallback>, onNodes: Option<Handler>): (r: seq<NodeCallback>)
    ensures CountFired(r) == CountFired(cbs)
    ensures CountGates(r) == CountGates(cbs) + (if onNodes.Some? then 1 else 0)
  {
    if onNodes.Some? then AppendGate(cbs) else cbs
  }

  function AppendGate(cbs: seq<NodeCallback>): (r: seq<NodeCallback>)
    ensures r == cbs + [Gate(false)]
    ensures CountFired(r) == CountFired(cbs) && CountGates(r) == CountGates(cbs) + 1
  {
    if cbs == [] then [Gate(false)]
    else
      assert (cbs + [Gate(false)])[1..] == cbs[1..] + [Gate(false)];
      [cbs[0]] + AppendGate(cbs[1..])
  }

  /**
   * One `connect()` chain. Every attempt keeps its own multi-client: an
   * aggregate failure neither closes the failed one nor stops its
   * sub-clients, so each attempt's `handleNode` races and its `nodes` list
   * stay live. Every attempt shares the `opts.onNode` list and reads the
   * current `opts.numSubClients`, and the calls made so far are recorded.
   */
  class ConnectRun {
    const threshold: real
    const onNodes: Option<Handler>
    /** `opts.numSubClients`, raised by 4 on every aggregate failure. */
    var numSubClients: nat
    /** `opts.onNode` after `_.toArr`, with the gates pushed by `connect`. */
    var callbacks: seq<NodeCallback>
    /** Which `connect()` call is current: 0 for the first. */
    var attempt: nat
    /** Per attempt, that attempt's `nodes`: its late-connecting nodes. */
    var nodes: seq<seq<string>>
    /** Per attempt, that attempt's `handleNode` promises. */
    var races: seq<seq<Races.Race<Option<string>>>>
    /** Whether the current attempt's multi-client is ready. */
    var clientReady: bool
    /** The attempt whose client the outermost `connect()` promise resolved with. */
    var resolved: Option<nat>
    var calls: seq<Call>

    ghost predicate Valid()
      reads this
    {
      && |races| == attempt + 1 && |nodes| == attempt + 1
      && |races[attempt]| == numSubClients
      && (forall a, i :: 0 <= a < |races| && 0 <= i < |races[a]| ==> Races.Valid(races[a][i]))
      && CountGates(callbacks) == (if onNodes.Some? then attempt + 1 else 0)
      && CountFired(callbacks) == CountOnNodes(calls)
    }

    /** The first `connect()`, with the options `init` passes it. */
    constructor (opts: Options)
      ensures Valid()
      ensures threshold == opts.threshold && onNodes == opts.onNodes && numSubClients == opts.numSubClients
      ensures callbacks == WithGate(UserCallbacks(opts.onNode), opts.onNodes)
      ensures attempt == 0 && nodes == [[]] && races == [StartRaces(opts.numSubClients)]
      ensures !clientReady && resolved == None && calls == []
    {
      threshold, onNodes, numSubClients := opts.threshold, opts.onNodes, opts.numSubClients;
      UserCallbacksNoGates(opts.onNode);
      callbacks := WithGate(UserCallbacks(opts.onNode), opts.onNodes);
      attempt, nodes, races := 0, [[]], [StartRaces(opts.numSubClients)];
      clientReady, resolved, calls := false, None, [];
    }

    /**
     * `Promise.all(arr).then(...)` of the current attempt: resolve once every
     * one of its races settled and its client is ready. An earlier attempt's
     * promise already took `resolve(this.connect())`, so its own `resolve`
     * calls change nothing.
     */
    method Complete()
      requires |races| == attempt + 1
      modifies this
      ensures numSubClients == old(numSubClients) && callbacks == old(callbacks) && attempt == old(attempt)
      ensures nodes == old(nodes) && races == old(races) && clientReady == old(clientReady) && calls == old(calls)
      ensures resolved == if old(resolved).None? && AllSettled(races[attempt]) && clientReady then Some(attempt) else old(resolved)
    {
      if resolved.None? && AllSettled(races[attempt]) && clientReady {
        resolved := Some(attempt);
      }
    }

    /** The `connectTimeout` timer of sub-client `sub` of attempt `a` fires. */
    method SubTimer(a: nat, sub: nat)
      requires Valid() && a <= attempt && sub < |races[a]|
      modifies this
      ensures Valid()
      ensures races == old(races)[a := old(races)[a][sub := Races.Expire(old(races)[a][sub], None)]]
      ensures nodes == old(nodes) && callbacks == old(callbacks) && calls == old(calls)
      ensures numSubClients == old(numSubClients) && attempt == old(attempt)
    {
      races := races[a := races[a][sub := Races.Expire(races[a][sub], None)]];
      Complete();
    }

    /** Sub-client `sub` of attempt `a` fails to connect: settles `false` unless its timer already fired. */
    method SubConnectFailed(a: nat, sub: nat)
      requires Valid() && a <= attempt && sub < |races[a]|
      modifies this
      ensures Valid()
      ensures races == if Races.Late(old(races)[a][sub]) then old(races)
                       else old(races)[a := old(races)[a][sub := Races.Settle(old(races)[a][sub], None)]]
      ensures nodes == old(nodes) && callbacks == old(callbacks) && calls == old(calls)
      ensures numSubClients == old(numSubClients) && attempt == old(attempt)
    {
      if !Races.Late(races[a][sub]) {
        races := races[a := races[a][sub := Races.Settle(races[a][sub], None)]];
      }
      Complete();
    }

    /**
     * Sub-client `sub` of attempt `a` connects to `node`. Before its timeout
     * it settles with the node and nothing else happens; after its timeout
     * the node is appended to attempt `a`'s `nodes` and every `onNode`
     * callback, the gates of later attempts included, is called with it and
     * that list, against the current `numSubClients`.
     */
    method SubConnect(a: nat, sub: nat, node: string)
      requires Valid() && a <= attempt && sub < |races[a]|
      modifies this
      ensures Valid()
      ensures !Races.Late(old(races)[a][sub]) ==>
        && races == old(races)[a := old(races)[a][sub := Races.Settle(old(races)[a][sub], Some(node))]]
        && nodes == old(nodes) && callbacks == old(callbacks) && calls == old(calls)
      ensures Races.Late(old(races)[a][sub]) ==>
        && races == old(races) && nodes == old(nodes)[a := old(nodes)[a] + [node]]
        && var (cbs, made) := Notify(old(callbacks), node, old(nodes)[a] + [node], numSubClients, threshold);
           callbacks == cbs && calls == old(calls) + made
      ensures numSubClients == old(numSubClients) && attempt == old(attempt)
    {
      if Races.Late(races[a][sub]) {
        var late := nodes[a] + [node];
        nodes := nodes[a := late];
        var (cbs, made) := Notify(callbacks, node, late, numSubClients, threshold);
        CountOnNodesAppend(calls, made);
        callbacks := cbs;
        calls := calls + made;
      } else {
        races := races[a := races[a][sub := Races.Settle(races[a][sub], Some(node))]];
      }
      Complete();
    }

    /** The current attempt's multi-client becomes ready (`client.onConnect`). */
    method ClientReady()
      requires Valid()
      modifies this
      ensures Valid() && clientReady
      ensures races == old(races) && nodes == old(nodes) && callbacks == old(callbacks) && calls == old(calls)
      ensures numSubClients == old(numSubClients) && attempt == old(attempt)
    {
      clientReady := true;
      Complete();
    }

    /**
     * `client.onConnectFailed` of the current attempt: `opts.numSubClients
     * += 4` and `connect()` again, which (with `onNodes`) pushes one more
     * gate, with its own flag, onto the shared `opts.onNode`. The failed
     * attempt's races and nodes are kept.
     */
    method ConnectFailed()
      requires Valid()
      modifies this
      ensures Valid()
      ensures numSubClients == old(numSubClients) + 4 && attempt == old(attempt) + 1
      ensures callbacks == WithGate(old(callbacks), onNodes)
      ensures nodes == old(nodes) + [[]] && races == old(races) + [StartRaces(numSubClients)] && !clientReady
      ensures resolved == old(resolved) && calls == old(calls)
    {
      numSubClients := numSubClients + 4;
      attempt := attempt + 1;
      callbacks := WithGate(callbacks, onNodes);
      nodes, races, clientReady := nodes + [[]], races + [StartRaces(numSubClients)], false;
    }

    /**
     * `onNodes` is called at most once per `connect()` call made so far: once
     * in a run without aggregate failures.
     */
    lemma OnNodesBounded()
      requires Valid()
      ensures CountOnNodes(calls) <= attempt + 1
      ensures onNodes.None? ==> CountOnNodes(calls) == 0
    {
      FiredAtMostGates(callbacks);
    }
  }

  /** `_.toArr(opts.onNode || [])`: the user's callbacks. */
  function UserCallbacks(hs: seq<Handler>): (cbs: seq<NodeCallback>)
    ensures |cbs| == |hs|
    ensures forall i :: 0 <= i < |hs| ==> cbs[i] == User(hs[i])
  {
    seq(|hs|, i requires 0 <= i < |hs| => User(hs[i]))
  }

  lemma {:induction false} UserCallbacksNoGates(hs: seq<Handler>)
    ensures CountGates(UserCallbacks(hs)) == 0 && CountFired(UserCallbacks(hs)) == 0
  {
    if hs != [] {
      UserCallbacksNoGates(hs[1..]);
      assert UserCallbacks(hs)[1..] == UserCallbacks(hs[1..]);
    }
  }

  /**
   * After one aggregate failure the two gates both call `onNodes` on the
   * first late connect that reaches the quorum: it is called twice, with the
   * same nodes.
   */
  lemma RetryCallsOnNodesTwice(node: string, nodes: seq<string>, numSubClients: nat, threshold: real)
    requires QuorumReached(|nodes|, numSubClients, threshold)
    ensures Notify([Gate(false), Gate(false)], node, nodes, numSubClients, threshold).1
            == [OnNodesCall(nodes), OnNodesCall(nodes)]
  {
    var one := [Gate(false)];
    var two := [Gate(false), Gate(false)];
    assert one[1..] == [] && two[1..] == one;
    assert Notify([], node, nodes, numSubClients, threshold) == ([], []);
    var r1 := Notify(one[1..], node, nodes, numSubClients, threshold);
    assert r1 == ([], []);
    assert Notify(one, node, nodes, numSubClients, threshold) == ([Gate(true)] + r1.0, [OnNodesCall(nodes)] + r1.1);
    assert [Gate(true)] + r1.0 == [Gate(true)];
    assert [OnNodesCall(nodes)] + r1.1 == [OnNodesCall(nodes)];
  }

  /** A gate whose quorum was reached stays quiet on every later late connect. */
  lemma FiredGateStaysQuiet(node: string, nodes: seq<string>, numSubClients: nat, threshold: real)
    ensures Notify([Gate(true)], node, nodes, numSubClients, threshold) == ([Gate(true)], [])
  {
  }
}
