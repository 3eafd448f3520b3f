/**
 * The seed generator and tester (`Seeder`): derives a batch of client seeds
 * from a hash chain of entropy, connects each seed's multi-client, scores
 * every seed by which sub-clients reached which nodes, and picks the best.
 *
 * The crypto primitives and the network are inputs: `Crypto` holds the
 * primitives as functions, and a client's network behaviour is the sequence
 * of callbacks its sub-clients receive.
 */
module NknSeeder {
  import opened Wrappers
  import opened Dicts
  import opened Strings
  import opened Lists
  import Sorting
  import Races

  /** `SEED_LENGTH`: bytes of the hkdf output kept for the identifier. */
  const SeedLength: nat := 8
  /** `Seeder.numClients`, `Seeder.numSeeds`, `Seeder.numWords`, `Seeder.connectTimeout`. */
  const NumClients: nat := 4
  const NumSeeds: nat := 4
  const NumWords: nat := 12
  const ConnectTimeout: nat := 4000

  /** The crypto and mnemonic primitives, modelled as uninterpreted functions. */
  datatype Crypto = Crypto(
    byteLength: nat -> nat,                       // Mnemonic.getByteLength(numWords)
    getEntropy: (string, nat) -> seq<Byte>,       // Crypto.getEntropy(preimg, bytes)
    hash: (seq<Byte>, nat) -> seq<Byte>,          // Crypto.hash(entropy, bytes, false)
    toMnemonic: seq<Byte> -> string,              // Mnemonic.entropyToMnemonic
    toSeed: string -> seq<Byte>,                  // Mnemonic.mnemonicToSeed
    hkdf: seq<Byte> -> (seq<Byte>, seq<Byte>),    // the two decoded outputs of Crypto.hkdf(seed, null, 2)
    encode: seq<Byte> -> string)                  // _.encode

  datatype Seed = Seed(entropy: seq<Byte>, phrase: string, seed: seq<Byte>, id: string, hex: string)

  /** `createSeed`: the id is the encoding of the first `SEED_LENGTH` bytes of the first hkdf output. */
  function CreateSeed(c: Crypto, entropy: seq<Byte>): (s: Seed)
    ensures s.entropy == entropy
    ensures s.phrase == c.toMnemonic(entropy) && s.seed == c.toSeed(s.phrase)
    ensures var out := c.hkdf(s.seed).0;
            s.id == c.encode(if |out| <= SeedLength then out else out[..SeedLength])
    ensures s.hex == ToHex(c.hkdf(s.seed).1)
  {
    var phrase := c.toMnemonic(entropy);
    var seed := c.toSeed(phrase);
    var (out, hex) := c.hkdf(seed);
    Seed(entropy, phrase, seed, c.encode(if |out| <= SeedLength then out else out[..SeedLength]), ToHex(hex))
  }

  /** Two seeds whose first hkdf outputs agree on their first 8 bytes share an id. */
  lemma SameIdPrefixSameId(c: Crypto, e1: seq<Byte>, e2: seq<Byte>)
    requires var o1, o2 := c.hkdf(c.toSeed(c.toMnemonic(e1))).0, c.hkdf(c.toSeed(c.toMnemonic(e2))).0;
             |o1| >= SeedLength && |o2| >= SeedLength && o1[..SeedLength] == o2[..SeedLength]
    ensures CreateSeed(c, e1).id == CreateSeed(c, e2).id
  {
    var s1, s2 := CreateSeed(c, e1), CreateSeed(c, e2);
    var o1, o2 := c.hkdf(s1.seed).0, c.hkdf(s2.seed).0;
    assert (if |o1| <= SeedLength then o1 else o1[..SeedLength]) == o1[..SeedLength];
    assert (if |o2| <= SeedLength then o2 else o2[..SeedLength]) == o2[..SeedLength];
  }

  /** The entropy after `n` hash steps from the initial entropy. */
  function Chain(c: Crypto, e0: seq<Byte>, bytes: nat, n: nat): seq<Byte> {
    if n == 0 then e0 else c.hash(Chain(c, e0, bytes, n - 1), bytes)
  }

  // ---------------------------------------------------------------------------
  // Sub-client prefixes

  /** The identifier prefix of sub-client `i` of a multi-client: `__i__`. */
  function SubPrefix(i: nat): string {
    "__" + NatToString(i) + "__"
  }

  /** `+prefix.replace(/_/g, '')`; `None` is NaN. */
  function PrefixIndex(prefix: string): Option<nat> {
    ParseDigits(RemoveChar(prefix, '_'))
  }

  /**
   * Stripping the underscores from a sub-client's prefix gives back its
   * number, so the tallies below record the number itself.
   */
  lemma {:induction false} PrefixIndexRoundTrip(i: nat)
    ensures PrefixIndex(SubPrefix(i)) == Some(i)
  {
    var digits := NatToString(i);
    assert '_' !in digits by {
      forall k | 0 <= k < |digits|
        ensures digits[k] != '_'
      {
        assert IsDigit(digits[k]);
      }
    }
    RemoveCharConcat("__" + digits, "__", '_');
    RemoveCharConcat("__", digits, '_');
    assert RemoveChar("__", '_') == [] by {
      assert "__"[1..] == "_";
      assert "_"[1..] == [];
    }
    assert RemoveChar("__" + digits + "__", '_') == digits;
    ParsePrinted(i);
  }

  // ---------------------------------------------------------------------------
  // testClient: one multi-client, its sub-clients racing their timers

  /** What a seed's item records: node address -> sub-client number, for good and bad nodes. */
  datatype Tally = Tally(good: Dict<nat>, bad: Dict<nat>, obj: Seed)

  /** One callback received by sub-client `sub`. */
  datatype SubEvent =
    | Connected(rpcAddr: string) // `node.onConnect`
    | WsError(url: string)       // `node.onWsError`, with `event.target.url`
    | TimerFired                 // the `connectTimeout` timer

  datatype ClientEvent = ClientEvent(sub: nat, event: SubEvent)

  datatype ClientState = ClientState(tally: Tally, races: seq<Races.Race<Option<string>>>)

  predicate RacesValid(races: seq<Races.Race<Option<string>>>) {
    forall i :: 0 <= i < |races| ==> Races.Valid(races[i])
  }

  /** Every recorded sub-client number is below `numSub`. */
  predicate Bounded(d: Dict<nat>, numSub: nat) {
    forall p :: p in d ==> p.1 < numSub
  }

  /** The node address of a websocket error: scheme stripped, first `30004` replaced by `30005`. */
  function WsErrorAddr(url: string): (addr: string)
    ensures var s := StripPrefix(url, "wss://");
      && (IndexOf(s, "30004").None? ==> addr == s)
      && (IndexOf(s, "30004").Some? ==>
            var i := IndexOf(s, "30004").value;
            addr == s[..i] + "30005" + s[i + 5..] && OccursAt(addr, "30005", i))
  {
    ReplaceFirst(StripPrefix(url, "wss://"), "30004", "30005")
  }

  /** One callback. An event for a sub-client that does not exist changes nothing. */
  function Step(st: ClientState, e: ClientEvent): (r: ClientState)
    requires RacesValid(st.races)
    ensures RacesValid(r.races) && |r.races| == |st.races|
    ensures r.tally.obj == st.tally.obj
    ensures forall j :: 0 <= j < |st.races| && j != e.sub ==> r.races[j] == st.races[j]
  {
    if e.sub >= |st.races| then st
    else
      var race := st.races[e.sub];
      match e.event
      case TimerFired =>
        st.(races := st.races[e.sub := Races.Expire(race, None)])
      case WsError(url) =>
        var addr := WsErrorAddr(url);
        var tally := st.tally.(bad := Set(st.tally.bad, addr, e.sub), good := Delete(st.tally.good, addr));
        ClientState(tally, if Races.Late(race) then st.races else st.races[e.sub := Races.Settle(race, None)])
      case Connected(rpcAddr) =>
        if Races.Late(race) then st
        else ClientState(st.tally.(good := Set(st.tally.good, rpcAddr, e.sub)),
                         st.races[e.sub := Races.Settle(race, Some(rpcAddr))])
  }

  function StartRaces(numSub: nat): (races: seq<Races.Race<Option<string>>>)
    ensures |races| == numSub && RacesValid(races)
    ensures forall i :: 0 <= i < numSub ==> races[i] == Races.Start()
  {
    seq(numSub, _ => Races.Start())
  }

  /** The client's state after the callbacks `events`, in the order they ran. */
  function Run(tally: Tally, numSub: nat, events: seq<ClientEvent>): (r: ClientState)
    ensures RacesValid(r.races) && |r.races| == numSub
    ensures r.tally.obj == tally.obj
  {
    if events == [] then ClientState(tally, StartRaces(numSub))
    else Step(Run(tally, numSub, events[..|events| - 1]), events[|events| - 1])
  }

  /** One more callback is one more step. */
  lemma RunStep(tally: Tally, numSub: nat, events: seq<ClientEvent>, k: nat)
    requires k < |events|
    ensures Run(tally, numSub, events[..k + 1]) == Step(Run(tally, numSub, events[..k]), events[k])
  {
    assert events[..k + 1][..k] == events[..k];
  }

  /** What each sub-client's promise resolves with; one never resolved is resolved `false` by its timer. */
  function Results(st: ClientState): (r: seq<Option<string>>)
    ensures |r| == |st.races|
  {
    seq(|st.races|, i requires 0 <= i < |st.races| => match st.races[i].outcome
                                                       case Some(v) => v
                                                       case None => None)
  }

  /** The item `testClient` works on: the stored one for this id, else a fresh one. */
  function ItemFor(store: Dict<Tally>, obj: Seed): (t: Tally)
    ensures Get(store, obj.id).None? ==> t == Tally([], [], obj)
    ensures Get(store, obj.id).Some? ==> t == Get(store, obj.id).value
  {
    match Get(store, obj.id)
    case Some(t) => t
    case None => Tally([], [], obj)
  }

  /** `testClient`'s effect on `store`: the item for `obj.id`, after the callbacks. */
  function ClientRun(store: Dict<Tally>, obj: Seed, numSub: nat, events: seq<ClientEvent>): (r: Dict<Tally>)
    ensures Keys(r) == if obj.id in Keys(store) then Keys(store) else Keys(store) + [obj.id]
    ensures Get(r, obj.id).Some? && Get(r, obj.id).value.obj == ItemFor(store, obj).obj
    ensures forall k :: k != obj.id ==> Get(r, k) == Get(store, k)
  {
    Set(store, obj.id, Run(ItemFor(store, obj), numSub, events).tally)
  }

  // ---- Properties of one client

  /** A websocket error records its node as bad (for that sub-client) and removes it from good. */
  lemma WsErrorRecordsBad(st: ClientState, sub: nat, url: string)
    requires RacesValid(st.races) && sub < |st.races|
    ensures var r := Step(st, ClientEvent(sub, WsError(url)));
      && Get(r.tally.bad, WsErrorAddr(url)) == Some(sub)
      && WsErrorAddr(url) !in Keys(r.tally.good)
      && forall a :: a != WsErrorAddr(url) ==>
           Get(r.tally.good, a) == Get(st.tally.good, a) && Get(r.tally.bad, a) == Get(st.tally.bad, a)
  {
  }

  /**
   * A connect before the timeout records `rpcAddr` as good and changes nothing
   * else in the item; a connect after the timeout changes nothing at all.
   */
  lemma ConnectRecordsGood(st: ClientState, sub: nat, rpcAddr: string)
    requires RacesValid(st.races) && sub < |st.races|
    ensures var r := Step(st, ClientEvent(sub, Connected(rpcAddr)));
      if Races.Late(st.races[sub]) then r == st
      else
        && Get(r.tally.good, rpcAddr) == Some(sub)
        && r.tally.bad == st.tally.bad
        && forall a :: a != rpcAddr ==> Get(r.tally.good, a) == Get(st.tally.good, a)
  {
  }

  /** The value the promise of a sub-client settles with if `e` is its first callback. */
  function SettleValue(e: SubEvent): Option<string> {
    match e
    case Connected(rpcAddr) => Some(rpcAddr)
    case _ => None
  }

  predicate Untouched(events: seq<ClientEvent>, sub: nat) {
    forall k :: 0 <= k < |events| ==> events[k].sub != sub
  }

  lemma {:induction false} UntouchedStaysStarted(tally: Tally, numSub: nat, events: seq<ClientEvent>, sub: nat)
    requires sub < numSub && Untouched(events, sub)
    ensures Run(tally, numSub, events).races[sub] == Races.Start()
  {
    if events != [] {
      UntouchedStaysStarted(tally, numSub, events[..|events| - 1], sub);
    }
  }

  lemma {:induction false} SettledStays(tally: Tally, numSub: nat, events: seq<ClientEvent>, n: nat, sub: nat)
    requires sub < numSub && n <= |events|
    requires Run(tally, numSub, events[..n]).races[sub].outcome.Some?
    ensures Run(tally, numSub, events).races[sub].outcome == Run(tally, numSub, events[..n]).races[sub].outcome
  {
    if n < |events| {
      var init := events[..|events| - 1];
      assert init[..n] == events[..n];
      SettledStays(tally, numSub, init, n, sub);
    } else {
      assert events[..n] == events;
    }
  }

  /**
   * Each sub-client's promise settles exactly once, with the value of its
   * first callback: `rpcAddr` for a connect, `false` for the timeout or a
   * websocket error. Later callbacks, such as a slow connect, do not change it.
   */
  lemma FirstCallbackSettles(tally: Tally, numSub: nat, events: seq<ClientEvent>, k: nat)
    requires k < |events| && events[k].sub < numSub
    requires Untouched(events[..k], events[k].sub)
    ensures Results(Run(tally, numSub, events))[events[k].sub] == SettleValue(events[k].event)
  {
    var sub := events[k].sub;
    UntouchedStaysStarted(tally, numSub, events[..k], sub);
    assert events[..k + 1][..k] == events[..k];
    SettledStays(tally, numSub, events, k + 1, sub);
  }

  /** Only sub-clients of this client are recorded. */
  lemma {:induction false} RunBounded(tally: Tally, numSub: nat, events: seq<ClientEvent>)
    requires Bounded(tally.good, numSub) && Bounded(tally.bad, numSub)
    ensures var r := Run(tally, numSub, events);
            Bounded(r.tally.good, numSub) && Bounded(r.tally.bad, numSub)
  {
    if events != [] {
      var prev := Run(tally, numSub, events[..|events| - 1]);
      RunBounded(tally, numSub, events[..|events| - 1]);
      StepBounded(prev, events[|events| - 1], numSub);
    }
  }

  lemma StepBounded(st: ClientState, e: ClientEvent, numSub: nat)
    requires RacesValid(st.races) && |st.races| == numSub
    requires Bounded(st.tally.good, numSub) && Bounded(st.tally.bad, numSub)
    ensures Bounded(Step(st, e).tally.good, numSub) && Bounded(Step(st, e).tally.bad, numSub)
  {
    if e.sub < numSub {
      match e.event
      case WsError(url) => SetEntries(st.tally.bad, WsErrorAddr(url), e.sub);
      case Connected(rpcAddr) => SetEntries(st.tally.good, rpcAddr, e.sub);
      case TimerFired =>
    }
  }

  // ---------------------------------------------------------------------------
  // testSeeds: scoring and ordering

  /** `Σ (numClients - index)` over the entries of a good or bad map. */
  function Total(d: Dict<nat>, numClients: nat): (r: int)
    ensures d == [] ==> r == 0
    ensures r <= |d| * numClients
  {
    if d == [] then 0
    else
      var r := Total(d[..|d| - 1], numClients) + (numClients - d[|d| - 1].1);
      assert (|d| - 1) * numClients + numClients == |d| * numClients;
      r
  }

  /**
   * When every recorded sub-client number is below `numClients`, each entry
   * scores at least 1 and at most `numClients`: the score is positive exactly
   * when the map is non-empty.
   */
  lemma {:induction false} TotalBounds(d: Dict<nat>, numClients: nat)
    requires Bounded(d, numClients)
    ensures |d| <= Total(d, numClients) <= |d| * numClients
    ensures Total(d, numClients) > 0 <==> d != []
  {
    if d != [] {
      assert d[|d| - 1] in d;
      assert forall p :: p in d[..|d| - 1] ==> p in d;
      TotalBounds(d[..|d| - 1], numClients);
      assert (|d| - 1) * numClients + numClients == |d| * numClients;
    }
  }

  /** The record `testSeeds` returns per seed id: the item plus its `goodn` and `badn`. */
  datatype Node = Node(id: string, tally: Tally, goodn: int, badn: int)

  function Score(entry: (string, Tally), numClients: nat): (n: Node)
    ensures n.id == entry.0 && n.tally == entry.1
    ensures n.goodn == Total(entry.1.good, numClients) && n.badn == Total(entry.1.bad, numClients)
    ensures Bounded(entry.1.good, numClients) ==> (n.goodn > 0 <==> entry.1.good != [])
  {
    var n := Node(entry.0, entry.1, Total(entry.1.good, numClients), Total(entry.1.bad, numClients));
    if Bounded(entry.1.good, numClients) then TotalBounds(entry.1.good, numClients); n else n
  }

  function ScoreAll(store: Dict<Tally>, numClients: nat): (nodes: seq<Node>)
    ensures |nodes| == |store|
    ensures forall i :: 0 <= i < |store| ==> nodes[i] == Score(store[i], numClients)
  {
    seq(|store|, i requires 0 <= i < |store| => Score(store[i], numClients))
  }

  /** The comparator of `testSeeds`: higher `goodn` first, then lower `badn`. */
  function Compare(a: Node, b: Node): (r: int)
    ensures r in {-1, 0, 1}
  {
    if a.goodn > b.goodn then -1
    else if a.goodn < b.goodn then 1
    else if a.badn > b.badn then 1
    else if a.badn < b.badn then -1
    else 0
  }

  predicate NodeBefore(a: Node, b: Node)
    ensures a.goodn > b.goodn ==> NodeBefore(a, b)
    ensures NodeBefore(a, b) ==> a.goodn >= b.goodn
  {
    Compare(a, b) < 0
  }

  /** The comparator is consistent: swapping the arguments negates it, and 0 means equal scores. */
  lemma CompareConsistent(a: Node, b: Node)
    ensures Compare(a, b) == -Compare(b, a)
    ensures Compare(a, b) == 0 <==> a.goodn == b.goodn && a.badn == b.badn
    ensures NodeBefore(a, b) <==> a.goodn > b.goodn || (a.goodn == b.goodn && a.badn < b.badn)
  {
  }

  lemma NodeBeforeOrders()
    ensures Sorting.StrictWeakOrder(NodeBefore)
  {
  }

  /** The scores of a test: stored items in insertion order, scored, then sorted. */
  function RankedNodes(store: Dict<Tally>, numClients: nat): seq<Node> {
    Sorting.Sort(ScoreAll(store, numClients), NodeBefore)
  }

  /** `testSeeds`'s effect on its `store`: each seed's client run in turn. */
  function RunSeeds(seeds: seq<Seed>, numClients: nat, net: nat -> seq<ClientEvent>): (r: Dict<Tally>)
    ensures |r| <= |seeds|
    ensures seeds != [] ==> seeds[|seeds| - 1].id in Keys(r)
  {
    if seeds == [] then []
    else ClientRun(RunSeeds(seeds[..|seeds| - 1], numClients, net), seeds[|seeds| - 1],
                   numClients, net(|seeds| - 1))
  }

  function TestSeedsResult(seeds: seq<Seed>, numClients: nat, net: nat -> seq<ClientEvent>): (r: seq<Node>)
    ensures |r| <= |seeds|
    ensures Sorting.Sorted(r, NodeBefore)
  {
    NodeBeforeOrders();
    Sorting.SortSorted(ScoreAll(RunSeeds(seeds, numClients, net), numClients), NodeBefore);
    RankedNodes(RunSeeds(seeds, numClients, net), numClients)
  }

  function SeedId(s: Seed): string { s.id }

  function NodeId(n: Node): string { n.id }

  /** One more seed is one more client run. */
  lemma RunSeedsStep(seeds: seq<Seed>, i: nat, numClients: nat, net: nat -> seq<ClientEvent>)
    requires i < |seeds|
    ensures RunSeeds(seeds[..i + 1], numClients, net)
         == ClientRun(RunSeeds(seeds[..i], numClients, net), seeds[i], numClients, net(i))
  {
    assert seeds[..i + 1][..i] == seeds[..i];
  }

  /** The ids `testSeeds` stores are exactly the ids of the seeds, each once. */
  lemma {:induction false} RunSeedsKeys(seeds: seq<Seed>, numClients: nat, net: nat -> seq<ClientEvent>)
    ensures var store := RunSeeds(seeds, numClients, net);
      && Unique(store)
      && forall id :: id in Keys(store) <==> id in Project(seeds, SeedId)
  {
    if seeds != [] {
      var init := seeds[..|seeds| - 1];
      var last := seeds[|seeds| - 1];
      var prev := RunSeeds(init, numClients, net);
      var store := ClientRun(prev, last, numClients, net(|seeds| - 1));
      RunSeedsKeys(init, numClients, net);
      SetUnique(prev, last.id, Run(ItemFor(prev, last), numClients, net(|seeds| - 1)).tally);
      ProjectLast(seeds, SeedId);
      assert forall id :: id in Keys(store) <==> id in Keys(prev) || id == last.id;
    }
  }

  /**
   * A repeated id reuses the stored item: the record of an id is the item of
   * the first seed with that id, added to by every later one.
   */
  lemma {:induction false} RunSeedsReuse(seeds: seq<Seed>, numClients: nat, net: nat -> seq<ClientEvent>, id: string)
    requires id in Project(seeds, SeedId)
    ensures Get(RunSeeds(seeds, numClients, net), id).Some?
    ensures Get(RunSeeds(seeds, numClients, net), id).value.obj == First(seeds, SeedId, id)
  {
    var init := seeds[..|seeds| - 1];
    var last := seeds[|seeds| - 1];
    assert seeds == init + [last] by {
      assert |init + [last]| == |seeds|;
      assert forall k :: 0 <= k < |seeds| ==> (init + [last])[k] == seeds[k];
    }
    var prev := RunSeeds(init, numClients, net);
    var store := ClientRun(prev, last, numClients, net(|seeds| - 1));
    assert RunSeeds(seeds, numClients, net) == store;
    ProjectLast(seeds, SeedId);
    RunSeedsKeys(init, numClients, net);
    if id != last.id {
      assert id in Project(init, SeedId);
      RunSeedsReuse(init, numClients, net, id);
      assert Get(store, id) == Get(prev, id);
      FirstOfPrefix(init, [last], SeedId, id);
    } else if id in Project(init, SeedId) {
      RunSeedsReuse(init, numClients, net, id);
      assert ItemFor(prev, last) == Get(prev, id).value;
      FirstOfPrefix(init, [last], SeedId, id);
    } else {
      assert ItemFor(prev, last).obj == last;
      FirstOfNew(init, last, SeedId);
    }
  }

  /** Every record only holds sub-client numbers of the run that made it. */
  lemma {:induction false} RunSeedsBounded(seeds: seq<Seed>, numClients: nat, net: nat -> seq<ClientEvent>)
    ensures forall p :: p in RunSeeds(seeds, numClients, net) ==>
              Bounded(p.1.good, numClients) && Bounded(p.1.bad, numClients)
  {
    if seeds != [] {
      var init := seeds[..|seeds| - 1];
      var last := seeds[|seeds| - 1];
      var prev := RunSeeds(init, numClients, net);
      RunSeedsBounded(init, numClients, net);
      var item := ItemFor(prev, last);
      if Get(prev, last.id).Some? {
        assert (last.id, item) in prev;
      }
      RunBounded(item, numClients, net(|seeds| - 1));
      SetEntries(prev, last.id, Run(item, numClients, net(|seeds| - 1)).tally);
    }
  }

  /**
   * The result of `testSeeds`: one node per distinct seed id, sorted by the
   * comparator (a stable sort), with `goodn > 0` exactly for the seeds that
   * reached at least one node.
   */
  lemma TestSeedsSpec(seeds: seq<Seed>, numClients: nat, net: nat -> seq<ClientEvent>)
    ensures var nodes := TestSeedsResult(seeds, numClients, net);
      && DistinctBy(nodes, NodeId)
      && (forall id :: id in Project(nodes, NodeId) <==> id in Project(seeds, SeedId))
      && Sorting.Sorted(nodes, NodeBefore)
      && (forall x :: x in nodes ==> (x.goodn > 0 <==> x.tally.good != []) && x.badn >= 0)
  {
    var store := RunSeeds(seeds, numClients, net);
    var scored := ScoreAll(store, numClients);
    var nodes := TestSeedsResult(seeds, numClients, net);
    RunSeedsKeys(seeds, numClients, net);
    RunSeedsBounded(seeds, numClients, net);
    ScoreAllIds(store, numClients);
    UniqueDistinct(store);
    Sorting.SortDistinct(scored, NodeBefore, NodeId);
    Sorting.SortMembers(scored, NodeBefore, NodeId);
    NodeBeforeOrders();
    Sorting.SortSorted(scored, NodeBefore);
    ScoreAllCounts(store, numClients);
  }

  /** A scored node counts good nodes exactly when its tally holds some, and never negative bad ones. */
  lemma ScoreAllCounts(store: Dict<Tally>, numClients: nat)
    requires forall p :: p in store ==> Bounded(p.1.good, numClients) && Bounded(p.1.bad, numClients)
    ensures forall x :: x in ScoreAll(store, numClients) ==> (x.goodn > 0 <==> x.tally.good != []) && x.badn >= 0
  {
    var scored := ScoreAll(store, numClients);
    forall x | x in scored
      ensures (x.goodn > 0 <==> x.tally.good != []) && x.badn >= 0
    {
      var i :| 0 <= i < |scored| && scored[i] == x;
      assert store[i] in store;
      TotalBounds(store[i].1.good, numClients);
      TotalBounds(store[i].1.bad, numClients);
    }
  }

  /** Scoring keeps the stored ids, in order. */
  lemma ScoreAllIds(store: Dict<Tally>, numClients: nat)
    ensures Project(ScoreAll(store, numClients), NodeId) == Keys(store)
  {
    var ids := Project(ScoreAll(store, numClients), NodeId);
    forall i | 0 <= i < |store|
      ensures ids[i] == Keys(store)[i]
    {
    }
  }

  lemma {:induction false} UniqueDistinct(store: Dict<Tally>)
    requires Unique(store)
    ensures forall i, j :: 0 <= i < j < |store| ==> store[i].0 != store[j].0
  {
    if store != [] {
      assert Keys(store) == [store[0].0] + Keys(store[1..]);
      UniqueDistinct(store[1..]);
      forall j | 0 < j < |store|
        ensures store[0].0 != store[j].0
      {
        assert Keys(store[1..])[j - 1] == store[j].0;
      }
    }
  }

  /** `arr.reduce((acc, cur) => acc.concat(_.keys(cur.good)), [])` */
  function GoodAddrs(nodes: seq<Node>): seq<string> {
    if nodes == [] then [] else GoodAddrs(nodes[..|nodes| - 1]) + Keys(nodes[|nodes| - 1].tally.good)
  }

  /** The collected addresses are exactly the good addresses of all the nodes. */
  lemma {:induction false} GoodAddrsMembers(nodes: seq<Node>, a: string)
    ensures a in GoodAddrs(nodes) <==> exists i :: 0 <= i < |nodes| && a in Keys(nodes[i].tally.good)
  {
    if nodes != [] {
      var init := nodes[..|nodes| - 1];
      GoodAddrsMembers(init, a);
      if a in GoodAddrs(init) {
        var i :| 0 <= i < |init| && a in Keys(init[i].tally.good);
        assert nodes[i] == init[i];
      }
      if exists i :: 0 <= i < |nodes| && a in Keys(nodes[i].tally.good) {
        var i :| 0 <= i < |nodes| && a in Keys(nodes[i].tally.good);
        if i < |init| {
          assert init[i] == nodes[i];
        }
      }
    }
  }

  /** `arr.filter(o => !!o.goodn)` */
  function Survivors(nodes: seq<Node>): (r: seq<Node>)
    ensures |r| <= |nodes|
    ensures forall x :: x in r <==> x in nodes && x.goodn != 0
  {
    if nodes == [] then []
    else
      assert nodes == [nodes[0]] + nodes[1..];
      (if nodes[0].goodn != 0 then [nodes[0]] else []) + Survivors(nodes[1..])
  }

  /**
   * The filter keeps every node with a non-zero `goodn` as often as it occurs
   * and no other, so its length is the number of such nodes.
   */
  lemma {:induction false} SurvivorsCount(nodes: seq<Node>)
    ensures forall x :: multiset(Survivors(nodes))[x] == if x.goodn != 0 then multiset(nodes)[x] else 0
  {
    if nodes != [] {
      assert nodes == [nodes[0]] + nodes[1..];
      SurvivorsCount(nodes[1..]);
    }
  }

  /** The filter keeps the input order: filtering a concatenation concatenates the filtered parts. */
  lemma {:induction false} SurvivorsConcat(a: seq<Node>, b: seq<Node>)
    ensures Survivors(a + b) == Survivors(a) + Survivors(b)
  {
    if a != [] {
      assert (a + b)[0] == a[0];
      assert (a + b)[1..] == a[1..] + b;
      SurvivorsConcat(a[1..], b);
    } else {
      assert a + b == b;
    }
  }

  // ---------------------------------------------------------------------------
  // getSeeds: a batch of seeds from a hash chain

  /** The seeds `getSeeds(n)` makes: seed `i` comes from the entropy after `i + 1` hash steps. */
  function Batch(c: Crypto, preimg: string, numWords: nat, n: nat): (seeds: seq<Seed>)
    ensures |seeds| == n
  {
    var bytes := c.byteLength(numWords);
    var e0 := c.getEntropy(preimg, bytes);
    seq(n, i requires 0 <= i < n => CreateSeed(c, Chain(c, e0, bytes, i + 1)))
  }

  /**
   * The entropies form a hash chain: the first is the hash of the initial
   * entropy and each next one is the hash of the one before.
   */
  lemma BatchIsChain(c: Crypto, preimg: string, numWords: nat, n: nat)
    ensures var seeds := Batch(c, preimg, numWords, n);
            var bytes := c.byteLength(numWords);
      && (n > 0 ==> seeds[0].entropy == c.hash(c.getEntropy(preimg, bytes), bytes))
      && forall i :: 0 < i < n ==> seeds[i].entropy == c.hash(seeds[i - 1].entropy, bytes)
  {
    var seeds := Batch(c, preimg, numWords, n);
    var bytes := c.byteLength(numWords);
    var e0 := c.getEntropy(preimg, bytes);
    assert Chain(c, e0, bytes, 1) == c.hash(e0, bytes);
    forall i | 0 <= i < n
      ensures seeds[i].entropy == Chain(c, e0, bytes, i + 1)
    {
      assert seeds[i] == CreateSeed(c, Chain(c, e0, bytes, i + 1));
    }
    forall i | 0 < i < n
      ensures seeds[i].entropy == c.hash(seeds[i - 1].entropy, bytes)
    {
      assert seeds[i].entropy == Chain(c, e0, bytes, i + 1);
      assert seeds[i - 1].entropy == Chain(c, e0, bytes, i);
    }
  }

  /** A shorter batch from the same pre-image is a prefix of a longer one. */
  lemma BatchPrefix(c: Crypto, preimg: string, numWords: nat, m: nat, n: nat)
    requires m <= n
    ensures Batch(c, preimg, numWords, m) == Batch(c, preimg, numWords, n)[..m]
  {
  }

  // ---------------------------------------------------------------------------
  // The Seeder object

  /** The constructor options; `None` is an absent key. */
  datatype SeederOptions = SeederOptions(numSeeds: Option<nat>, numWords: Option<nat>, connectTimeout: Option<nat>)

  /** Which `testSeeds` call of `generate` a network input belongs to. */
  datatype Round = FirstTest | RetryTest | FinalTest

  class Seeder {
    const numSeeds: nat
    const numWords: nat
    /** Only arms the sub-client timers, whose firing is part of the network input. */
    const connectTimeout: nat

    constructor (opts: SeederOptions)
      ensures numSeeds == OrFallback(opts.numSeeds, NumSeeds)
      ensures numWords == OrFallback(opts.numWords, NumWords)
      ensures connectTimeout == OrFallback(opts.connectTimeout, ConnectTimeout)
    {
      numSeeds := OrFallback(opts.numSeeds, NumSeeds);
      numWords := OrFallback(opts.numWords, NumWords);
      connectTimeout := OrFallback(opts.connectTimeout, ConnectTimeout);
    }

    /** `getSeeds(num, preimg)`: `num || numSeeds` seeds, hashing the entropy once per seed. */
    method GetSeeds(c: Crypto, num: nat, preimg: string) returns (seeds: seq<Seed>)
      ensures seeds == Batch(c, preimg, numWords, if num == 0 then numSeeds else num)
    {
      var n := if num == 0 then numSeeds else num;
      var bytes := c.byteLength(numWords);
      var e0 := c.getEntropy(preimg, bytes);
      var entropy := e0;
      seeds := [];
      var ii := 0;
      while ii < n
        invariant 0 <= ii <= n
        invariant entropy == Chain(c, e0, bytes, ii)
        invariant seeds == Batch(c, preimg, numWords, n)[..ii]
      {
        entropy := c.hash(entropy, bytes);
        seeds := seeds + [CreateSeed(c, entropy)];
        ii := ii + 1;
      }
    }

    /**
     * `testClient(obj, store, numSubClients)`: run one multi-client against
     * its callbacks, recording into the (possibly reused) item for `obj.id`,
     * and return what each sub-client's promise resolved with.
     */
    method TestClient(store: Dict<Tally>, obj: Seed, numSubClients: nat, events: seq<ClientEvent>)
      returns (store': Dict<Tally>, results: seq<Option<string>>)
      ensures store' == ClientRun(store, obj, numSubClients, events)
      ensures results == Results(Run(ItemFor(store, obj), numSubClients, events))
      ensures |results| == numSubClients
    {
      var item := match Get(store, obj.id) case Some(t) => t case None => Tally([], [], obj);
      var st := ClientState(item, StartRaces(numSubClients));
      var k := 0;
      while k < |events|
        invariant 0 <= k <= |events|
        invariant st == Run(item, numSubClients, events[..k])
      {
        RunStep(item, numSubClients, events, k);
        st := Step(st, events[k]);
        k := k + 1;
      }
      assert events[..|events|] == events;
      // the item is shared by reference with `store`, so the store sees every update
      store' := Set(store, obj.id, st.tally);
      results := Results(st);
    }

    /**
     * `testSeeds(seeds, numClients)`: test every seed into a shared store,
     * then score each stored item and sort.
     */
    method TestSeeds(seeds: seq<Seed>, numClients: Option<nat>, net: nat -> seq<ClientEvent>)
      returns (nodes: seq<Node>)
      ensures nodes == TestSeedsResult(seeds, numClients.GetOr(NumClients), net)
    {
      var n := numClients.GetOr(NumClients);
      var store: Dict<Tally> := [];
      var ii := 0;
      while ii < |seeds|
        invariant 0 <= ii <= |seeds|
        invariant store == RunSeeds(seeds[..ii], n, net)
      {
        RunSeedsStep(seeds, ii, n, net);
        var results;
        store, results := TestClient(store, seeds[ii], n, net(ii));
        ii := ii + 1;
      }
      assert seeds[..|seeds|] == seeds;
      nodes := ScoreStore(store, n);
      nodes := Sorting.Sort(nodes, NodeBefore);
    }

    /**
     * `Seeder.generate(preimg, numWords)`: test a batch of 5; when fewer than
     * 4 reach a node, test a fresh batch of 10 instead; test the latest batch
     * again with 10 sub-clients each and report the best seed.
     */
    static method Generate(c: Crypto, preimg: string, numWords: Option<nat>, net: Round -> nat -> seq<ClientEvent>)
      returns (winner: Option<Node>, arr: seq<Node>, addrs: seq<string>)
      ensures var words := OrFallback(numWords, NumWords);
              var first := Batch(c, preimg, words, 5);
              var kept := Survivors(TestSeedsResult(first, 1, net(FirstTest)));
              var seeds := if |kept| < 4 then Batch(c, preimg, words, 10) else first;
        && arr == TestSeedsResult(seeds, 10, net(FinalTest))
        && winner == (if arr == [] then None else Some(arr[0]))
        && addrs == GoodAddrs(arr)
    {
      var seeder := new Seeder(SeederOptions(None, numWords, None));
      var seeds := seeder.GetSeeds(c, 5, preimg);
      arr := seeder.TestSeeds(seeds, Some(1), net(FirstTest));
      arr := Survivors(arr);
      if |arr| < 4 {
        seeds := seeder.GetSeeds(c, 10, preimg);
        arr := seeder.TestSeeds(seeds, Some(1), net(RetryTest));
        arr := Survivors(arr);
      }
      arr := seeder.TestSeeds(seeds, Some(10), net(FinalTest));
      winner := if arr == [] then None else Some(arr[0]);
      addrs := CollectGoodAddrs(arr);
    }
  }

  /** The `for (let id in store)` loop: score every stored item, in insertion order. */
  method ScoreStore(store: Dict<Tally>, numClients: nat) returns (nodes: seq<Node>)
    ensures nodes == ScoreAll(store, numClients)
  {
    nodes := [];
    var i := 0;
    while i < |store|
      invariant 0 <= i <= |store| && |nodes| == i
      invariant forall j :: 0 <= j < i ==> nodes[j] == Score(store[j], numClients)
    {
      var goodn := SumScores(store[i].1.good, numClients);
      var badn := SumScores(store[i].1.bad, numClients);
      nodes := nodes + [Node(store[i].0, store[i].1, goodn, badn)];
      i := i + 1;
    }
  }

  /** The `reduce` of `generate`: every node's good addresses, node after node. */
  method CollectGoodAddrs(arr: seq<Node>) returns (addrs: seq<string>)
    ensures addrs == GoodAddrs(arr)
  {
    addrs := [];
    var i := 0;
    while i < |arr|
      invariant 0 <= i <= |arr|
      invariant addrs == GoodAddrs(arr[..i])
    {
      assert arr[..i + 1][..i] == arr[..i];
      addrs := addrs + Keys(arr[i].tally.good);
      i := i + 1;
    }
    assert arr[..|arr|] == arr;
  }

  /** `total += numClients - index` over the entries of one map. */
  method SumScores(d: Dict<nat>, numClients: nat) returns (total: int)
    ensures total == Total(d, numClients)
  {
    total := 0;
    var i := 0;
    while i < |d|
      invariant 0 <= i <= |d|
      invariant total == Total(d[..i], numClients)
    {
      assert d[..i + 1][..i] == d[..i];
      total := total + (numClients - d[i].1);
      i := i + 1;
    }
    assert d[..|d|] == d;
  }

  /**
   * The final test covers the whole latest batch, including the seeds the
   * first test filtered out; the winner ranks first of all of them.
   */
  lemma GenerateCoversBatch(seeds: seq<Seed>, net: nat -> seq<ClientEvent>)
    ensures var arr := TestSeedsResult(seeds, 10, net);
      && (forall s :: s in seeds ==> s.id in Project(arr, NodeId))
      && (arr != [] ==> forall x :: x in arr ==> !NodeBefore(x, arr[0]))
  {
    var arr := TestSeedsResult(seeds, 10, net);
    TestSeedsSpec(seeds, 10, net);
    forall s | s in seeds
      ensures s.id in Project(arr, NodeId)
    {
      var j :| 0 <= j < |seeds| && seeds[j] == s;
      assert Project(seeds, SeedId)[j] == s.id;
    }
    if arr != [] {
      NodeBeforeOrders();
      forall x | x in arr
        ensures !NodeBefore(x, arr[0])
      {
        var k :| 0 <= k < |arr| && arr[k] == x;
      }
    }
  }
}
