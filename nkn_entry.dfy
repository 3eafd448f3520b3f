/**
 * The bootstrap-node ranker (`Entry`): a store of candidate RPC node addresses,
 * each with its latency samples and the counters derived from them, ranked by
 * average latency, then failures, then failure ratio.
 *
 * Item records are values here: the source mutates them in place, but every
 * object it mutates is reachable only through the list being rebuilt, so
 * returning updated values gives the same store.
 */
module NknEntry {
  import opened Wrappers
  import opened Lists
  import Sorting
  import Races

  /** The official mainnet RPC node, always the first seed. */
  const Official: string := "mainnet-rpc-node-0001.nkn.org/mainnet/api/wallet"

  // ---------------------------------------------------------------------------
  // protocol: which scheme the probe uses for a node

  /**
   * The page environment: whether the code runs in a browser and that page's
   * `window.location.protocol`, which browsers report with its trailing colon
   * (`"https:"`, `"http:"`).
   */
  datatype Env = Env(isBrowser: bool, locationProtocol: string)

  /** `Entry.protocol` as written: `detect()` compares against `'https'` without the colon. */
  function ProtocolAsWritten(addr: string, env: Env): (p: string)
    ensures p == "https" || p == "http"
    ensures p == "https" <==> addr == Official || (env.isBrowser && env.locationProtocol == "https")
  {
    var detect := if env.isBrowser && env.locationProtocol == "https" then "https" else "http";
    if addr == "" then detect
    else if addr == Official then "https" else detect
  }

  /**
   * As written, a browser page served over https (which reports `"https:"`)
   * still gets plain `http` for every node but the official one.
   */
  lemma AsWrittenIgnoresSecurePage(addr: string)
    requires addr != Official
    ensures ProtocolAsWritten(addr, Env(true, "https:")) == "http"
  {
  }

  /** `Entry.protocol` with the browser's own spelling of the scheme. */
  function Protocol(addr: string, env: Env): (p: string)
    ensures p == "https" || p == "http"
    ensures addr == Official ==> p == "https"
    ensures env.isBrowser && env.locationProtocol == "https:" ==> p == "https"
    ensures p == "https" ==> addr == Official || (env.isBrowser && env.locationProtocol == "https:")
  {
    var detect := if env.isBrowser && env.locationProtocol == "https:" then "https" else "http";
    if addr == "" then detect
    else if addr == Official then "https" else detect
  }

  predicate StartsWithScheme(url: string, scheme: string) {
    |url| >= |scheme| + 3 && url[..|scheme| + 3] == scheme + "://"
  }

  /**
   * The address `getLatency` probes: `${Entry.protocol(addr)}://${addr}`,
   * with `protocol` as written.
   */
  function RpcServerAddr(addr: string, env: Env): (url: string)
    ensures |url| >= |addr| && url[|url| - |addr|..] == addr
    ensures StartsWithScheme(url, ProtocolAsWritten(addr, env))
    ensures StartsWithScheme(url, "https") <==> addr == Official || (env.isBrowser && env.locationProtocol == "https")
  {
    var url := ProtocolAsWritten(addr, env) + "://" + addr;
    assert url[4] == if ProtocolAsWritten(addr, env) == "https" then 's' else ':';
    url
  }

  /** The probed address once `protocol` reads the browser's own spelling of the scheme. */
  function RpcServerAddrCorrected(addr: string, env: Env): (url: string)
    ensures |url| >= |addr| && url[|url| - |addr|..] == addr
    ensures StartsWithScheme(url, Protocol(addr, env))
    ensures StartsWithScheme(url, "https") <==> addr == Official || (env.isBrowser && env.locationProtocol == "https:")
  {
    var url := Protocol(addr, env) + "://" + addr;
    assert url[4] == if Protocol(addr, env) == "https" then 's' else ':';
    url
  }

  /** A latency sample: `None` is the `null` of a failed or timed-out probe. */
  type Sample = Option<nat>

  /** JavaScript truthiness of a sample: a latency of 0 counts as a failure. */
  predicate Truthy(s: Sample) {
    s.Some? && s.value != 0
  }

  datatype Item = Item(
    addr: string,
    res: seq<Sample>,
    avg: Option<nat>,
    good: nat,
    bad: nat,
    ratio: real,
    num: Option<nat>)

  function Addr(item: Item): string { item.addr }

  /** `createItem`: no samples yet, no average, nothing counted. */
  function CreateItem(addr: string): (item: Item)
    ensures item.addr == addr && item.res == [] && item.avg == None
    ensures item.good == 0 && item.bad == 0 && item.ratio == 0.0 && item.num == None
  {
    Item(addr, [], None, 0, 0, 0.0, None)
  }

  // ---------------------------------------------------------------------------
  // setItem: counters derived from the samples

  /** Number of truthy samples (the first `reduce` of `setItem`). */
  function CountGood(res: seq<Sample>): nat {
    if res == [] then 0
    else CountGood(res[..|res| - 1]) + (if Truthy(res[|res| - 1]) then 1 else 0)
  }

  /** Number of falsy samples: `null` and `0`. */
  function CountBad(res: seq<Sample>): nat {
    if res == [] then 0
    else CountBad(res[..|res| - 1]) + (if Truthy(res[|res| - 1]) then 0 else 1)
  }

  /** Sum of the truthy samples. */
  function SumGood(res: seq<Sample>): nat {
    if res == [] then 0
    else SumGood(res[..|res| - 1]) + (if Truthy(res[|res| - 1]) then res[|res| - 1].value else 0)
  }

  /** Every sample is either good or bad. */
  lemma {:induction false} CountsPartition(res: seq<Sample>)
    ensures CountGood(res) + CountBad(res) == |res|
  {
    if res != [] {
      CountsPartition(res[..|res| - 1]);
    }
  }

  /** Appending one sample bumps exactly one of the two counters. */
  lemma CountsAppend(res: seq<Sample>, s: Sample)
    ensures CountGood(res + [s]) == CountGood(res) + (if Truthy(s) then 1 else 0)
    ensures CountBad(res + [s]) == CountBad(res) + (if Truthy(s) then 0 else 1)
  {
    assert (res + [s])[..|res|] == res;
  }

  /** `Math.ceil(a / b)` on integers: the least `q` with `a <= b * q`. */
  function CeilDiv(a: nat, b: nat): (q: nat)
    requires b > 0
    ensures b * q >= a
    ensures q > 0 ==> b * (q - 1) < a
  {
    var q := (a + b - 1) / b;
    assert b * q <= a + b - 1 < b * (q + 1);
    q
  }

  /** `setItem`: recompute good, bad, avg, ratio and num from the samples. */
  function SetItem(item: Item): (r: Item)
    ensures r.addr == item.addr && r.res == item.res
    ensures r.good == CountGood(item.res) && r.bad == CountBad(item.res)
    ensures r.num == Some(|item.res|) && r.good + r.bad == |item.res|
    ensures r.avg.Some? <==> r.good > 0
    ensures r.avg.Some? ==> r.good * r.avg.value >= SumGood(item.res)
    ensures r.avg.Some? && r.avg.value > 0 ==> r.good * (r.avg.value - 1) < SumGood(item.res)
    ensures r.good > 0 && r.bad > 0 ==> r.ratio * (r.good as real) == r.bad as real
    ensures r.good == 0 && r.bad > 0 ==> r.ratio == 1.0
    ensures r.bad == 0 ==> r.ratio == 0.0
  {
    CountsPartition(item.res);
    var good := CountGood(item.res);
    var bad := CountBad(item.res);
    var avg := if good > 0 then Some(CeilDiv(SumGood(item.res), good)) else None;
    var ratio := if good > 0 && bad > 0 then (bad as real) / (good as real)
                 else if bad > 0 then 1.0 else 0.0;
    Item(item.addr, item.res, avg, good, bad, ratio, Some(good + bad))
  }

  /** A fresh item is already consistent with its empty sample list. */
  lemma FreshItemSettled(addr: string)
    ensures SetItem(CreateItem(addr)) == CreateItem(addr).(num := Some(0))
  {
  }

  /** The worked example: [50, null, 60] gives good 2, bad 1, avg 55, ratio 0.5. */
  lemma SetItemExample()
    ensures var r := SetItem(CreateItem("node").(res := [Some(50), None, Some(60)]));
            r.good == 2 && r.bad == 1 && r.avg == Some(55) && r.ratio == 0.5 && r.num == Some(3)
  {
    var s1: seq<Sample> := [Some(50)];
    var s2: seq<Sample> := s1 + [None];
    var s3: seq<Sample> := s2 + [Some(60)];
    assert s3 == [Some(50), None, Some(60)];
    assert s1[..0] == [];
    assert CountGood(s1) == 1 && CountBad(s1) == 0 && SumGood(s1) == 50;
    assert s2[..1] == s1;
    assert CountGood(s2) == 1 && CountBad(s2) == 1 && SumGood(s2) == 50;
    assert s3[..2] == s2;
    assert CountGood(s3) == 2 && CountBad(s3) == 1 && SumGood(s3) == 110;
    assert CeilDiv(110, 2) == 55;
    assert (1 as real) / (2 as real) == 0.5;
  }

  lemma MulMonotone(g: nat, x: nat, y: nat)
    requires x <= y
    ensures g * x <= g * y
  {
    assert g * y - g * x == g * (y - x);
  }

  lemma {:induction false} SumGoodBounds(res: seq<Sample>, lo: nat, hi: nat)
    requires forall i :: 0 <= i < |res| && Truthy(res[i]) ==> lo <= res[i].value <= hi
    ensures CountGood(res) * lo <= SumGood(res) <= CountGood(res) * hi
  {
    if res != [] {
      var init := res[..|res| - 1];
      var last := res[|res| - 1];
      assert forall i :: 0 <= i < |init| ==> init[i] == res[i];
      SumGoodBounds(init, lo, hi);
      if Truthy(last) {
        AddWithinBounds(CountGood(init), SumGood(init), last.value, lo, hi);
      }
    }
  }

  /** One more value within `[lo, hi]` keeps a sum within `count * [lo, hi]`. */
  lemma AddWithinBounds(c: nat, sum: nat, v: nat, lo: nat, hi: nat)
    requires c * lo <= sum <= c * hi && lo <= v <= hi
    ensures (c + 1) * lo <= sum + v <= (c + 1) * hi
  {
    assert (c + 1) * lo == c * lo + lo;
    assert (c + 1) * hi == c * hi + hi;
  }

  /** A ceiling of `sum / g` lies between `lo` and `hi` when `sum / g` does. */
  lemma CeilBetween(g: nat, q: nat, sum: nat, lo: nat, hi: nat)
    requires g > 0 && g * q >= sum && (q > 0 ==> g * (q - 1) < sum)
    requires g * lo <= sum <= g * hi
    ensures lo <= q <= hi
  {
    if q > hi {
      MulMonotone(g, hi, q - 1);
    }
    if q < lo {
      MulMonotone(g, q + 1, lo);
    }
  }

  /**
   * The average is a ceiling of the mean, so it lies between the smallest and
   * the largest good sample.
   */
  lemma AvgWithinSamples(item: Item, lo: nat, hi: nat)
    requires forall i :: 0 <= i < |item.res| && Truthy(item.res[i]) ==> lo <= item.res[i].value <= hi
    requires CountGood(item.res) > 0
    ensures SetItem(item).avg.Some?
    ensures lo <= SetItem(item).avg.value <= hi
  {
    var r := SetItem(item);
    SumGoodBounds(item.res, lo, hi);
    CeilBetween(r.good, r.avg.value, SumGood(item.res), lo, hi);
  }

  // ---------------------------------------------------------------------------
  // clean: trimming long histories

  /**
   * `res.slice(-1 * n)`: the last `n` samples; `slice(-0)` is `slice(0)`, so
   * `n == 0` keeps everything, as does an `n` beyond the length.
   */
  function LastSamples(res: seq<Sample>, n: nat): (r: seq<Sample>)
    ensures |r| == if n == 0 || n >= |res| then |res| else n
    ensures r == res[|res| - |r|..]
  {
    if n == 0 || n >= |res| then res else res[|res| - n..]
  }

  /** One item as `clean` leaves it. */
  function Trimmed(item: Item, maxResults: nat, numResults: nat): (r: Item)
    ensures r == item.(res := r.res)
    ensures |item.res| < maxResults ==> r == item
    ensures |item.res| >= maxResults ==> r.res == LastSamples(item.res, numResults)
  {
    if |item.res| >= maxResults then item.(res := LastSamples(item.res, numResults)) else item
  }

  /** With the default limits (10 < 20) a cleaned history is shorter than `maxResults`. */
  lemma TrimmedBelowMax(item: Item, maxResults: nat, numResults: nat)
    requires 0 < numResults < maxResults
    ensures |Trimmed(item, maxResults, numResults).res| < maxResults
  {
  }

  /** `clean`: trim, in place, every item whose history reached `maxResults`. */
  method Clean(store: seq<Item>, maxResults: nat, numResults: nat) returns (cleaned: seq<Item>)
    ensures |cleaned| == |store|
    ensures forall i :: 0 <= i < |store| ==> cleaned[i] == Trimmed(store[i], maxResults, numResults)
  {
    cleaned := store;
    var i := 0;
    while i < |store|
      invariant 0 <= i <= |store| && |cleaned| == |store|
      invariant forall k :: 0 <= k < i ==> cleaned[k] == Trimmed(store[k], maxResults, numResults)
      invariant forall k :: i <= k < |store| ==> cleaned[k] == store[k]
    {
      if |cleaned[i].res| >= maxResults {
        cleaned := cleaned[i := cleaned[i].(res := LastSamples(cleaned[i].res, numResults))];
      }
      i := i + 1;
    }
  }

  // ---------------------------------------------------------------------------
  // sort: `_.sortBy(arr, ['avg', 'bad', 'ratio'])`

  /** lodash's ascending compare on `avg`: numbers by value, `null` after every number. */
  predicate AvgBefore(x: Option<nat>, y: Option<nat>) {
    match (x, y)
    case (Some(a), Some(b)) => a < b
    case (Some(_), None) => true
    case (None, _) => false
  }

  /** `a` sorts before `b`: lower avg, then fewer bad samples, then lower ratio. */
  predicate ItemBefore(a: Item, b: Item)
    ensures a.avg.Some? && b.avg.None? ==> ItemBefore(a, b)
    ensures a.avg.None? && b.avg.Some? ==> !ItemBefore(a, b)
    ensures (a.avg, a.bad, a.ratio) == (b.avg, b.bad, b.ratio) ==> !ItemBefore(a, b)
  {
    || AvgBefore(a.avg, b.avg)
    || (a.avg == b.avg && a.bad < b.bad)
    || (a.avg == b.avg && a.bad == b.bad && a.ratio < b.ratio)
  }

  lemma ItemBeforeOrders()
    ensures Sorting.StrictWeakOrder(ItemBefore)
  {
  }

  /** Items tie exactly when their sort keys are equal. */
  lemma TiedItems(a: Item, b: Item)
    ensures Sorting.Tied(a, b, ItemBefore) <==> (a.avg, a.bad, a.ratio) == (b.avg, b.bad, b.ratio)
  {
  }

  function SortItems(arr: seq<Item>): (r: seq<Item>)
    ensures multiset(r) == multiset(arr)
    ensures Sorting.Sorted(r, ItemBefore)
  {
    ItemBeforeOrders();
    Sorting.SortSorted(arr, ItemBefore);
    Sorting.Sort(arr, ItemBefore)
  }

  /** `sort` is an ordered, stable permutation of its input. */
  lemma SortItemsSpec(arr: seq<Item>, y: Item)
    ensures multiset(SortItems(arr)) == multiset(arr)
    ensures Sorting.Sorted(SortItems(arr), ItemBefore)
    ensures Sorting.TiedWith(SortItems(arr), y, ItemBefore) == Sorting.TiedWith(arr, y, ItemBefore)
  {
    ItemBeforeOrders();
    Sorting.SortSorted(arr, ItemBefore);
    Sorting.SortStable(arr, y, ItemBefore);
  }

  /** The head of a sorted store has the best key: nothing sorts before it. */
  lemma SortedHeadIsBest(arr: seq<Item>)
    requires arr != []
    ensures var s := SortItems(arr);
            s != [] && forall x :: x in s ==> !ItemBefore(x, s[0])
  {
    var s := SortItems(arr);
    SortItemsSpec(arr, arr[0]);
    forall x | x in s
      ensures !ItemBefore(x, s[0])
    {
      var k :| 0 <= k < |s| && s[k] == x;
      if k == 0 {
        ItemBeforeOrders();
      }
    }
  }

  // ---------------------------------------------------------------------------
  // getStore and testLatency as functions of the stored list

  /** Sorting keeps exactly the items, hence exactly the addresses, it was given. */
  lemma SortKeepsItems(arr: seq<Item>)
    ensures forall x :: x in SortItems(arr) <==> x in arr
    ensures forall a :: a in Project(SortItems(arr), Addr) <==> a in Project(arr, Addr)
  {
    Sorting.SortMembers(arr, ItemBefore, Addr);
  }

  function SeedItems(seeds: seq<string>): (items: seq<Item>)
    ensures |items| == |seeds|
    ensures forall i :: 0 <= i < |seeds| ==> items[i] == CreateItem(seeds[i])
  {
    seq(|seeds|, i requires 0 <= i < |seeds| => CreateItem(seeds[i]))
  }

  /** What `getStore` does to each item after `_.uniqBy`: trim, then recount. */
  function Refresh(item: Item, maxResults: nat, numResults: nat): (r: Item)
    ensures r.addr == item.addr
  {
    SetItem(Trimmed(item, maxResults, numResults))
  }

  function RefreshAll(items: seq<Item>, maxResults: nat, numResults: nat): (r: seq<Item>)
    ensures |r| == |items|
    ensures forall i :: 0 <= i < |items| ==> r[i] == Refresh(items[i], maxResults, numResults)
    ensures Project(r, Addr) == Project(items, Addr)
  {
    seq(|items|, i requires 0 <= i < |items| => Refresh(items[i], maxResults, numResults))
  }

  /** The merged list of `getStore` before it is trimmed: stored items first, then the seeds. */
  function Merged(stored: seq<Item>, seeds: seq<string>): (r: seq<Item>)
    ensures DistinctBy(r, Addr)
    ensures stored != [] ==> r != [] && r[0] == stored[0]
    ensures forall i :: 0 <= i < |r| ==> r[i] in stored || r[i] in SeedItems(seeds)
  {
    UniqBy(stored + SeedItems(seeds), Addr)
  }

  /**
   * `getStore`: the stored list (or `[]`) followed by a fresh item per seed,
   * deduplicated by address, trimmed, recounted and sorted.
   */
  function StoreView(stored: seq<Item>, seeds: seq<string>, maxResults: nat, numResults: nat): (r: seq<Item>)
    ensures Sorting.Sorted(r, ItemBefore)
  {
    SortItems(RefreshAll(Merged(stored, seeds), maxResults, numResults))
  }

  /** `getStore` yields a sorted list with one item per address. */
  lemma StoreViewOrdered(stored: seq<Item>, seeds: seq<string>, maxResults: nat, numResults: nat)
    ensures DistinctBy(StoreView(stored, seeds, maxResults, numResults), Addr)
    ensures Sorting.Sorted(StoreView(stored, seeds, maxResults, numResults), ItemBefore)
  {
    var pre := RefreshAll(Merged(stored, seeds), maxResults, numResults);
    assert DistinctBy(pre, Addr);
    Sorting.SortDistinct(pre, ItemBefore, Addr);
    SortItemsSpec(pre, CreateItem(""));
  }

  /** The addresses of the concatenated list: the stored ones and the seeds. */
  lemma ConcatAddrs(stored: seq<Item>, seeds: seq<string>, a: string)
    ensures a in Project(stored + SeedItems(seeds), Addr) <==> a in Project(stored, Addr) || a in seeds
  {
    var all := stored + SeedItems(seeds);
    if a in Project(stored, Addr) {
      var k :| 0 <= k < |stored| && Project(stored, Addr)[k] == a;
      assert Project(all, Addr)[k] == a;
    } else if a in seeds {
      var k :| 0 <= k < |seeds| && seeds[k] == a;
      assert Project(all, Addr)[|stored| + k] == a;
    }
    if a in Project(all, Addr) {
      var m :| 0 <= m < |all| && Project(all, Addr)[m] == a;
      if m < |stored| {
        assert Project(stored, Addr)[m] == a;
      } else {
        assert seeds[m - |stored|] == a;
      }
    }
  }

  /** `_.uniqBy` keeps every address it meets. */
  lemma UniqByAddrs(s: seq<Item>, a: string)
    ensures a in Project(UniqBy(s, Addr), Addr) <==> a in Project(s, Addr)
  {
    var u := UniqBy(s, Addr);
    if a in Project(s, Addr) {
      var k :| 0 <= k < |s| && Project(s, Addr)[k] == a;
    }
    if a in Project(u, Addr) {
      var k :| 0 <= k < |u| && Project(u, Addr)[k] == a;
      assert u[k] in s;
      var m :| 0 <= m < |s| && s[m] == u[k];
      assert Project(s, Addr)[m] == a;
    }
  }

  /** Every stored address and every seed address is in the store, and nothing else. */
  lemma StoreViewAddrs(stored: seq<Item>, seeds: seq<string>, maxResults: nat, numResults: nat, a: string)
    ensures a in Project(StoreView(stored, seeds, maxResults, numResults), Addr)
        <==> a in Project(stored, Addr) || a in seeds
  {
    SortKeepsItems(RefreshAll(Merged(stored, seeds), maxResults, numResults));
    UniqByAddrs(stored + SeedItems(seeds), a);
    ConcatAddrs(stored, seeds, a);
  }

  /**
   * An address found in the stored list is represented by its first stored
   * item (trimmed and recounted), never by a fresh seed item.
   */
  lemma StoreViewPrefersStored(stored: seq<Item>, seeds: seq<string>, maxResults: nat, numResults: nat, x: Item)
    requires x in StoreView(stored, seeds, maxResults, numResults)
    requires x.addr in Project(stored, Addr)
    ensures x == Refresh(First(stored, Addr, x.addr), maxResults, numResults)
  {
    var u := Merged(stored, seeds);
    var pre := RefreshAll(u, maxResults, numResults);
    SortKeepsItems(pre);
    var k :| 0 <= k < |pre| && pre[k] == x;
    FirstOfPrefix(stored, SeedItems(seeds), Addr, x.addr);
  }

  /** One probe result appended to an item (`item.res.push(latency)`), then recounted. */
  function Probed(item: Item, sample: Sample): (r: Item)
    ensures r.addr == item.addr && r.res == item.res + [sample]
  {
    SetItem(item.(res := item.res + [sample]))
  }

  function ProbeAll(store: seq<Item>, probe: string -> Sample): (r: seq<Item>)
    ensures |r| == |store|
    ensures forall i :: 0 <= i < |store| ==> r[i] == Probed(store[i], probe(store[i].addr))
    ensures Project(r, Addr) == Project(store, Addr)
  {
    seq(|store|, i requires 0 <= i < |store| => Probed(store[i], probe(store[i].addr)))
  }

  /**
   * `testLatency`'s new store: the probed items sorted, followed by the store
   * itself (whose items are the same, already probed objects), deduplicated.
   */
  function LatencyTest(view: seq<Item>, probe: string -> Sample): (r: seq<Item>)
    ensures DistinctBy(r, Addr)
    ensures forall i :: 0 <= i < |r| ==> r[i] in ProbeAll(view, probe)
  {
    var tested := ProbeAll(view, probe);
    var r := UniqBy(SortItems(tested) + tested, Addr);
    assert forall x :: x in SortItems(tested) ==> x in tested by {
      forall x | x in SortItems(tested) ensures x in tested {
        assert x in multiset(SortItems(tested));
      }
    }
    r
  }

  /** `store[0] ? store[0].addr : Entry.official` */
  function FastestOf(store: seq<Item>): (r: string)
    ensures store == [] ==> r == Official
    ensures store != [] ==> r in Project(store, Addr)
  {
    if store != [] then store[0].addr else Official
  }

  /**
   * On a list with one item per address, the concatenation and `_.uniqBy` of
   * `testLatency` undo each other: the result is the probed items, sorted.
   */
  lemma LatencyTestSorts(view: seq<Item>, probe: string -> Sample)
    requires DistinctBy(view, Addr)
    ensures LatencyTest(view, probe) == SortItems(ProbeAll(view, probe))
  {
    var tested := ProbeAll(view, probe);
    var sorted := SortItems(tested);
    Sorting.SortDistinct(tested, ItemBefore, Addr);
    SortKeepsItems(tested);
    UniqByPrefix(sorted, tested, Addr);
  }

  /**
   * A latency test appends exactly one sample to every item of the view, keeps
   * one item per address, and leaves the store sorted with the fastest node
   * first.
   */
  lemma LatencyTestSpec(view: seq<Item>, probe: string -> Sample)
    requires DistinctBy(view, Addr)
    ensures var r := LatencyTest(view, probe);
      && |r| == |view|
      && DistinctBy(r, Addr)
      && Sorting.Sorted(r, ItemBefore)
      && (forall x :: x in r <==> exists i :: 0 <= i < |view| && x == Probed(view[i], probe(view[i].addr)))
  {
    var tested := ProbeAll(view, probe);
    LatencyTestSorts(view, probe);
    Sorting.SortDistinct(tested, ItemBefore, Addr);
    SortItemsSpec(tested, CreateItem(""));
    SortKeepsItems(tested);
    assert |multiset(SortItems(tested))| == |multiset(tested)|;
  }

  /**
   * With limits `0 < numResults < maxResults` (the defaults are 10 and 20) no
   * item has more than `maxResults` samples after a test.
   */
  lemma TestedHistoriesBounded(stored: seq<Item>, seeds: seq<string>, maxResults: nat, numResults: nat,
                               probe: string -> Sample, x: Item)
    requires 0 < numResults < maxResults
    requires x in LatencyTest(StoreView(stored, seeds, maxResults, numResults), probe)
    ensures |x.res| <= maxResults
  {
    var view := StoreView(stored, seeds, maxResults, numResults);
    StoreViewOrdered(stored, seeds, maxResults, numResults);
    LatencyTestSpec(view, probe);
    var i :| 0 <= i < |view| && x == Probed(view[i], probe(view[i].addr));
    ViewHistoriesBelowMax(stored, seeds, maxResults, numResults, view[i]);
  }

  /** Every item `getStore` yields has fewer than `maxResults` samples. */
  lemma ViewHistoriesBelowMax(stored: seq<Item>, seeds: seq<string>, maxResults: nat, numResults: nat, y: Item)
    requires 0 < numResults < maxResults
    requires y in StoreView(stored, seeds, maxResults, numResults)
    ensures |y.res| < maxResults
  {
    var u := Merged(stored, seeds);
    var pre := RefreshAll(u, maxResults, numResults);
    SortKeepsItems(pre);
    var k :| 0 <= k < |pre| && pre[k] == y;
    TrimmedBelowMax(u[k], maxResults, numResults);
  }

  // ---------------------------------------------------------------------------
  // getLatency: one probe raced against `testTimeout`

  datatype ProbeEvent =
    | TimerFired            // the `testTimeout` timer callback
    | Answered(elapsed: nat) // `getNodeState` resolved, `Date.now() - begin` later
    | Failed                // `getNodeState` rejected

  function ProbeStep(r: Races.Race<Sample>, e: ProbeEvent): (r': Races.Race<Sample>)
    requires Races.Valid(r)
    ensures Races.Valid(r')
  {
    match e
    case TimerFired => Races.Expire(r, None)
    case Answered(ms) => if Races.Late(r) then r else Races.Settle(r, Some(ms))
    case Failed => if Races.Late(r) then r else Races.Settle(r, None)
  }

  /** The probe's state after the callbacks `events`, in the order they ran. */
  function ProbeRun(events: seq<ProbeEvent>): (r: Races.Race<Sample>)
    ensures Races.Valid(r)
  {
    if events == [] then Races.Start() else ProbeStep(ProbeRun(events[..|events| - 1]), events[|events| - 1])
  }

  function FirstValue(e: ProbeEvent): Sample {
    match e
    case Answered(ms) => Some(ms)
    case _ => None
  }

  /**
   * The probe resolves once, with the value of the first callback to run: the
   * elapsed time for an answer, `null` for a failure or the timeout; later
   * callbacks (a slow answer) change nothing.
   */
  lemma {:induction false} FirstCallbackDecides(events: seq<ProbeEvent>)
    requires events != []
    ensures ProbeRun(events).outcome == Some(FirstValue(events[0]))
  {
    if |events| > 1 {
      FirstCallbackDecides(events[..|events| - 1]);
      assert events[..|events| - 1][0] == events[0];
    }
  }

  // ---------------------------------------------------------------------------
  // The Entry object

  /** The options of `Entry` after `_.defaults`. */
  datatype Options = Options(
    testInterval: nat,
    testTimeout: nat,
    maxResults: nat,
    numResults: nat,
    numTest: nat,
    numTestMin: nat)

  /** Options as passed to the constructor; `None` is an absent key. */
  datatype OptionsGiven = OptionsGiven(
    testInterval: Option<nat>,
    testTimeout: Option<nat>,
    maxResults: Option<nat>,
    numResults: Option<nat>,
    numTest: Option<nat>,
    numTestMin: Option<nat>,
    seeds: Option<seq<string>>)

  class Entry {
    const opts: Options
    var seeds: seq<string>
    /** The `fastest` address, loaded from or saved to the database. */
    var fastest: Option<string>
    /** `lastTest`, a `Date.now()` timestamp. */
    var lastTest: Option<int>
    /** The last list written to the database under `store`. */
    var saved: seq<Item>

    /**
     * `new Entry(opts)`: `_.defaults` fills absent options only; the seeds are
     * the official node followed by the given seeds, without duplicates.
     */
    constructor (given: OptionsGiven)
      ensures opts.testInterval == given.testInterval.GetOr(5000)
      ensures opts.testTimeout == given.testTimeout.GetOr(1000)
      ensures opts.maxResults == given.maxResults.GetOr(20)
      ensures opts.numResults == given.numResults.GetOr(10)
      ensures opts.numTest == given.numTest.GetOr(5)
      ensures opts.numTestMin == given.numTestMin.GetOr(3)
      ensures seeds == Uniq([Official] + given.seeds.GetOr([]))
      ensures seeds != [] && seeds[0] == Official
      ensures forall i, j :: 0 <= i < j < |seeds| ==> seeds[i] != seeds[j]
      ensures fastest == None && lastTest == None && saved == []
    {
      opts := Options(
        given.testInterval.GetOr(5000), given.testTimeout.GetOr(1000),
        given.maxResults.GetOr(20), given.numResults.GetOr(10),
        given.numTest.GetOr(5), given.numTestMin.GetOr(3));
      seeds := Uniq([Official] + given.seeds.GetOr([]));
      fastest, lastTest, saved := None, None, [];
    }

    /**
     * `shouldTest`: no fastest node, no (or a zero) last-test time, or the
     * test interval has elapsed since then.
     */
    predicate ShouldTest(now: int)
      reads this
      ensures fastest.Some? && fastest != Some("") && lastTest.Some? && lastTest != Some(0) ==>
                (ShouldTest(now) <==> now >= lastTest.value + opts.testInterval)
    {
      || fastest == None || fastest == Some("")
      || lastTest == None || lastTest == Some(0)
      || now - lastTest.value >= opts.testInterval
    }

    /** Once a test is due it stays due until one runs: the clock only moves forward. */
    lemma ShouldTestStaysDue(now: int, later: int)
      requires ShouldTest(now) && now <= later
      ensures ShouldTest(later)
    {
    }

    /** `getStore`, given what the database holds under `store`. */
    method GetStore(stored: seq<Item>) returns (store: seq<Item>)
      ensures store == StoreView(stored, seeds, opts.maxResults, opts.numResults)
    {
      var all := Merged(stored, seeds);
      var cleaned := Clean(all, opts.maxResults, opts.numResults);
      var counted := seq(|cleaned|, i requires 0 <= i < |cleaned| => SetItem(cleaned[i]));
      assert forall i :: 0 <= i < |counted| ==> counted[i] == Refresh(all[i], opts.maxResults, opts.numResults);
      assert counted == RefreshAll(all, opts.maxResults, opts.numResults);
      store := SortItems(counted);
    }

    /**
     * The middle of `testLatency`: read the store, probe every item once,
     * sort the probed items, put them in front of the store and keep one item
     * per address.
     */
    method TestedStore(stored: seq<Item>, probe: string -> Sample) returns (store: seq<Item>)
      ensures store == LatencyTest(StoreView(stored, seeds, opts.maxResults, opts.numResults), probe)
    {
      var view := GetStore(stored);
      // `fn` pushes onto the very items held by `store`: both lists hold the probed items
      store := ProbeAll(view, probe);
      var test := SortItems(store);
      store := UniqBy(test + store, Addr);
    }

    /**
     * `testLatency`: stamp the test time, probe every item of the store once,
     * save the new store and make its head the fastest node.
     */
    method TestLatency(stored: seq<Item>, probe: string -> Sample, now: int)
      modifies this
      ensures seeds == old(seeds) && lastTest == Some(now)
      ensures saved == LatencyTest(StoreView(stored, old(seeds), opts.maxResults, opts.numResults), probe)
      ensures fastest == Some(FastestOf(saved))
    {
      var store := TestedStore(stored, probe);
      lastTest, fastest, saved := Some(now), Some(FastestOf(store)), store;
    }

    /** `boot`: adopt the saved `lastTest` and `fastest`, and test if due. */
    method Boot(savedLastTest: Option<int>, savedFastest: Option<string>, stored: seq<Item>,
                probe: string -> Sample, now: int)
      modifies this
      ensures seeds == old(seeds)
      ensures var due := savedFastest in {None, Some("")} || savedLastTest in {None, Some(0)}
                         || now - savedLastTest.value >= opts.testInterval;
        if due then
          lastTest == Some(now) && fastest == Some(FastestOf(saved))
          && saved == LatencyTest(StoreView(stored, seeds, opts.maxResults, opts.numResults), probe)
        else
          lastTest == savedLastTest && fastest == savedFastest && saved == old(saved)
    {
      lastTest := savedLastTest;
      fastest := savedFastest;
      if ShouldTest(now) {
        TestLatency(stored, probe, now);
      }
    }

    /**
     * `add`: extend the seeds without duplicates; then test if due, otherwise
     * just save the merged store.
     */
    method Add(addrs: seq<string>, stored: seq<Item>, probe: string -> Sample, now: int)
      modifies this
      ensures seeds == Uniq(old(seeds) + addrs)
      ensures old(ShouldTest(now)) ==>
        && lastTest == Some(now) && fastest == Some(FastestOf(saved))
        && saved == LatencyTest(StoreView(stored, seeds, opts.maxResults, opts.numResults), probe)
      ensures !old(ShouldTest(now)) ==>
        && saved == StoreView(stored, seeds, opts.maxResults, opts.numResults)
        && lastTest == old(lastTest) && fastest == old(fastest)
    {
      seeds := Uniq(seeds + addrs);
      var store := GetStore(stored);
      if ShouldTest(now) {
        TestLatency(stored, probe, now);
      } else {
        saved := store;
      }
    }
  }

  /**
   * Because the official node is always a seed, the store is never empty and
   * `fastest` is always the best-ranked address of a test, never the fallback.
   */
  lemma FastestIsBest(stored: seq<Item>, seeds: seq<string>, maxResults: nat, numResults: nat,
                      probe: string -> Sample)
    requires Official in seeds
    ensures var r := LatencyTest(StoreView(stored, seeds, maxResults, numResults), probe);
      && r != []
      && FastestOf(r) == r[0].addr
      && forall x :: x in r ==> !ItemBefore(x, r[0])
  {
    var view := StoreView(stored, seeds, maxResults, numResults);
    StoreViewOrdered(stored, seeds, maxResults, numResults);
    StoreViewAddrs(stored, seeds, maxResults, numResults, Official);
    LatencyTestSorts(view, probe);
    assert view != [] by {
      assert Official in Project(view, Addr);
    }
    SortedHeadIsBest(ProbeAll(view, probe));
  }
}
