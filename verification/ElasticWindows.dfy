/**
  Cutting an Elasticsearch result set into jobs: a planning scan records sort keys, and the workers
  later page from them. Searching is "the next k documents after this key, in sort order".
 */
module ElasticWindows {

  import opened Arithmetic
  import opened Wrappers

  datatype Order = Asc | Desc

  /** The value of the first sort field, and a tiebreak that makes the order strict. */
  datatype SortKey = SortKey(value: int, tie: int)

  datatype Doc = Doc(key: SortKey, source: string)

  /** `a` sorts strictly before `b` on the first field. */
  predicate Before(order: Order, a: int, b: int) {
    if order.Asc? then a < b else a > b
  }

  predicate Precedes(order: Order, a: SortKey, b: SortKey) {
    Before(order, a.value, b.value) || (a.value == b.value && a.tie < b.tie)
  }

  predicate InOrder(order: Order, docs: seq<Doc>, i: nat, k: nat)
    requires i < k < |docs|
  {
    Precedes(order, docs[i].key, docs[k].key)
  }

  ghost predicate Snapshot(order: Order, docs: seq<Doc>) {
    forall i, k | 0 <= i < k < |docs| :: InOrder(order, docs, i, k)
  }

  /** Ascending is from the least value up, descending from the greatest down, and ties go by the tiebreak. */
  lemma SortedEitherWay(order: Order, docs: seq<Doc>, i: nat, k: nat)
    requires Snapshot(order, docs) && i < k < |docs|
    ensures order == Asc ==> docs[i].key.value <= docs[k].key.value
    ensures order == Desc ==> docs[i].key.value >= docs[k].key.value
    ensures docs[i].key.value == docs[k].key.value ==> docs[i].key.tie < docs[k].key.tie
  {
    assert InOrder(order, docs, i, k);
  }

  lemma ValuesAscend(order: Order, docs: seq<Doc>, i: nat, k: nat)
    requires Snapshot(order, docs) && i <= k < |docs|
    ensures docs[i].key.value == docs[k].key.value || Before(order, docs[i].key.value, docs[k].key.value)
  {
    assert i < k ==> InOrder(order, docs, i, k);
  }

  // ----- searching -----

  /** The documents after a key, in order; without one, all of them. */
  function Beyond(order: Order, docs: seq<Doc>, after: Option<SortKey>): seq<Doc> {
    if docs == [] then []
    else if after.None? || Precedes(order, after.value, docs[0].key) then [docs[0]] + Beyond(order, docs[1..], after)
    else Beyond(order, docs[1..], after)
  }

  function Take<T>(size: nat, items: seq<T>): seq<T> {
    if size <= |items| then items[..size] else items
  }

  function Search(order: Order, docs: seq<Doc>, after: Option<SortKey>, size: nat): seq<Doc> {
    Take(size, Beyond(order, docs, after))
  }

  /** The key of the n-th document, where a page that starts after n documents continues. */
  function KeyAfter(docs: seq<Doc>, n: nat): Option<SortKey>
    requires n <= |docs|
  {
    if n == 0 then None else Some(docs[n - 1].key)
  }

  lemma {:induction false} BeyondAll(order: Order, docs: seq<Doc>, after: Option<SortKey>)
    requires after.Some? ==> forall i | 0 <= i < |docs| :: Precedes(order, after.value, docs[i].key)
    ensures Beyond(order, docs, after) == docs
  {
    if docs != [] {
      BeyondAll(order, docs[1..], after);
    }
  }

  lemma {:induction false} BeyondKey(order: Order, docs: seq<Doc>, n: nat)
    requires Snapshot(order, docs) && n <= |docs|
    ensures Beyond(order, docs, KeyAfter(docs, n)) == docs[n..]
  {
    if n == 0 {
      BeyondAll(order, docs, None);
    } else if n == 1 {
      forall i | 0 <= i < |docs| - 1
        ensures Precedes(order, docs[0].key, docs[1..][i].key)
      {
        assert InOrder(order, docs, 0, i + 1);
      }
      BeyondAll(order, docs[1..], KeyAfter(docs, n));
    } else {
      assert KeyAfter(docs[1..], n - 1) == KeyAfter(docs, n);
      assert InOrder(order, docs, 0, n - 1);
      assert forall i, k | 0 <= i < k < |docs| - 1 ::
          InOrder(order, docs, i + 1, k + 1) ==> InOrder(order, docs[1..], i, k);
      BeyondKey(order, docs[1..], n - 1);
      assert docs[1..][n - 1..] == docs[n..];
    }
  }

  // ----- arithmetic -----

  function CeilDiv(a: nat, b: nat): nat
    requires b >= 1
  {
    (a + b - 1) / b
  }

  /** `CeilDiv(a, b)` is the least q with a <= q * b. */
  lemma CeilDivLeast(a: nat, b: nat, q: nat)
    requires b >= 1
    ensures CeilDiv(a, b) * b >= a
    ensures CeilDiv(a, b) <= q <==> a <= q * b
  {
    var c, r := (a + b - 1) / b, (a + b - 1) % b;
    assert a + b - 1 == c * b + r;
    MulOrder(c, q, b);
    MulOrder(q + 1, c, b);
  }

  /** Where window k starts: k times the window size, added up. */
  function Start(k: nat, size: nat): nat {
    if k == 0 then 0 else Start(k - 1, size) + size
  }

  lemma {:induction false} StartIsProduct(k: nat, size: nat)
    ensures Start(k, size) == k * size
  {
    if k > 0 {
      StartIsProduct(k - 1, size);
    }
  }

  lemma {:induction false} StartsAscend(i: nat, k: nat, size: nat)
    requires i <= k
    ensures Start(i, size) <= Start(k, size)
    ensures i < k ==> Start(i, size) + size <= Start(k, size)
  {
    if i < k {
      StartsAscend(i, k - 1, size);
    }
  }

  lemma StartDivides(k: nat, size: nat, r: nat)
    requires r < size
    ensures (Start(k, size) + r) / size == k && (Start(k, size) + r) % size == r
  {
    StartIsProduct(k, size);
    QuotientIsUnique(Start(k, size) + r, size, k, r);
  }

  // ----- the planning scan -----

  /** Where window k starts: after the last document of window k - 1. */
  ghost predicate AreCursors(docs: seq<Doc>, windowSize: nat, cursors: seq<Option<SortKey>>) {
    forall k | 0 <= k < |cursors| ::
      Start(k, windowSize) <= |docs| && cursors[k] == KeyAfter(docs, Start(k, windowSize))
  }

  /** As many windows as were asked for, unless the documents end before the next one starts. */
  predicate IsPlanned(found: nat, numWindows: nat, windowSize: nat, n: nat) {
    && 1 <= n <= numWindows
    && Start(n - 1, windowSize) <= found
    && (n < numWindows ==> found < Start(n, windowSize))
  }

  method ScanWindowCursors(
      order: Order, docs: seq<Doc>, pageSize: nat, windowSize: nat, numWindows: nat)
    returns (cursors: seq<Option<SortKey>>)
    requires Snapshot(order, docs) && pageSize >= 1 && windowSize >= 1 && numWindows >= 1
    ensures IsPlanned(|docs|, numWindows, windowSize, |cursors|)
    ensures AreCursors(docs, windowSize, cursors)
  {
    cursors := [None];
    var seen := 0;
    var searchAfter: Option<SortKey> := None;
    while |cursors| < numWindows
      invariant seen <= |docs| && searchAfter == KeyAfter(docs, seen)
      invariant Scanned(docs, seen, windowSize, numWindows, cursors)
      decreases |docs| - seen
    {
      BeyondKey(order, docs, seen);
      var hits := Search(order, docs, searchAfter, pageSize);
      if hits == [] {
        break;
      }
      cursors, seen, searchAfter := ScanPage(docs, hits, windowSize, numWindows, cursors, seen, searchAfter);
    }
  }

  /** One page of the scan, hit by hit. */
  method ScanPage(
      ghost docs: seq<Doc>, hits: seq<Doc>, windowSize: nat, numWindows: nat,
      before: seq<Option<SortKey>>, start: nat, after: Option<SortKey>)
    returns (cursors: seq<Option<SortKey>>, seen: nat, searchAfter: Option<SortKey>)
    requires windowSize >= 1 && start + |hits| <= |docs| && hits == docs[start..start + |hits|]
    requires after == KeyAfter(docs, start) && Scanned(docs, start, windowSize, numWindows, before)
    ensures seen == start + |hits| && searchAfter == KeyAfter(docs, seen)
    ensures Scanned(docs, seen, windowSize, numWindows, cursors)
  {
    cursors, seen, searchAfter := before, start, after;
    for n := 0 to |hits|
      invariant seen == start + n && searchAfter == KeyAfter(docs, seen)
      invariant Scanned(docs, seen, windowSize, numWindows, cursors)
    {
      assert hits[n] == docs[start + n];
      seen := seen + 1;
      searchAfter := Some(hits[n].key);
      cursors := ScanHit(docs, hits[n], windowSize, numWindows, cursors, seen);
    }
  }

  /** The hit that ends a window gives the cursor of the next one. */
  method ScanHit(
      ghost docs: seq<Doc>, hit: Doc, windowSize: nat, numWindows: nat, before: seq<Option<SortKey>>, seen: nat)
    returns (cursors: seq<Option<SortKey>>)
    requires windowSize >= 1 && 1 <= seen <= |docs| && hit == docs[seen - 1]
    requires Scanned(docs, seen - 1, windowSize, numWindows, before)
    ensures Scanned(docs, seen, windowSize, numWindows, cursors)
  {
    ScanOne(docs, seen, windowSize, numWindows, before);
    cursors := before;
    if seen % windowSize == 0 && |cursors| < numWindows {
      cursors := cursors + [Some(hit.key)];
    }
  }

  /** What the scan knows after `seen` documents. */
  ghost predicate Scanned(docs: seq<Doc>, seen: nat, windowSize: nat, numWindows: nat, cursors: seq<Option<SortKey>>)
  {
    && 1 <= |cursors| <= numWindows && Start(|cursors| - 1, windowSize) <= seen
    && (|cursors| < numWindows ==> seen < Start(|cursors|, windowSize))
    && AreCursors(docs, windowSize, cursors)
  }

  lemma ScanOne(docs: seq<Doc>, seen: nat, windowSize: nat, numWindows: nat, cursors: seq<Option<SortKey>>)
    requires 1 <= seen <= |docs| && windowSize >= 1 && Scanned(docs, seen - 1, windowSize, numWindows, cursors)
    ensures Scanned(docs, seen, windowSize, numWindows,
                    if seen % windowSize == 0 && |cursors| < numWindows
                    then cursors + [Some(docs[seen - 1].key)] else cursors)
  {
    OnTheStart(|cursors|, windowSize, seen);
  }

  lemma OnTheStart(k: nat, size: nat, seen: nat)
    requires k >= 1 && size >= 1
    ensures Start(k - 1, size) < seen <= Start(k, size) ==> (seen % size == 0 <==> seen == Start(k, size))
  {
    if Start(k - 1, size) < seen < Start(k, size) {
      StartDivides(k - 1, size, seen - Start(k - 1, size));
    }
    StartDivides(k, size, 0);
  }

  // ----- positional windows -----

  datatype Window = Window(after: Option<SortKey>, size: nat)

  /** No job, the whole query as one job, or one job a window. */
  datatype Plan = Nothing | WholeQuery | Windows(windows: seq<Window>)

  /**
    A worker pages its window: whatever the page size, it reads exactly the documents of the
    window, or the first `limit` of them.
   */
  method FetchWindow(
      order: Order, docs: seq<Doc>, ghost start: nat, window: Window, pageSize: nat, limit: Option<nat>)
    returns (out: seq<Doc>)
    requires Snapshot(order, docs) && pageSize >= 1
    requires start <= |docs| && window.after == KeyAfter(docs, start)
    ensures out == Take(
              if limit.Some? && 0 < limit.value < window.size then limit.value else window.size,
              Beyond(order, docs, window.after))
  {
    BeyondKey(order, docs, start);
    out := [];
    var searchAfter := window.after;
    while |out| < window.size
      invariant |out| <= window.size && IsRead(docs, start, out) && searchAfter == KeyAfter(docs, start + |out|)
      invariant limit.Some? && limit.value > 0 ==> |out| < limit.value
      decreases window.size - |out|
    {
      var remaining := window.size - |out|;
      var hits := NextPage(order, docs, start, out, searchAfter, Least(pageSize, remaining));
      if hits == [] {
        break;
      }
      out := out + hits;
      searchAfter := Some(hits[|hits| - 1].key);
      if limit.Some? && limit.value > 0 && |out| >= limit.value {
        ReadIsTaken(docs, start, out, limit.value);
        return out[..limit.value];
      }
    }
    ReadIsTaken(docs, start, out, window.size);
    out := Take(window.size, out);
  }

  /** The documents from `start` on that a worker has read so far. */
  predicate IsRead(docs: seq<Doc>, start: nat, out: seq<Doc>) {
    start + |out| <= |docs| && out == docs[start..start + |out|]
  }

  lemma ReadIsTaken(docs: seq<Doc>, start: nat, out: seq<Doc>, size: nat)
    requires IsRead(docs, start, out) && (size <= |out| || start + |out| == |docs|)
    ensures Take(size, out) == Take(size, docs[start..])
  {
  }

  /** One more search of a worker. */
  method NextPage(
      order: Order, docs: seq<Doc>, ghost start: nat, ghost out: seq<Doc>, after: Option<SortKey>, size: nat)
    returns (hits: seq<Doc>)
    requires Snapshot(order, docs) && IsRead(docs, start, out) && after == KeyAfter(docs, start + |out|) && size >= 1
    ensures |hits| <= size && IsRead(docs, start, out + hits)
    ensures hits == [] <==> start + |out| == |docs|
    ensures hits != [] ==> Some(hits[|hits| - 1].key) == KeyAfter(docs, start + |out| + |hits|)
  {
    BeyondKey(order, docs, start + |out|);
    hits := Search(order, docs, after, size);
    assert hits == docs[start + |out|..start + |out| + |hits|];
  }

  lemma ExtendPrefix<T>(items: seq<T>, start: nat, size: nat)
    requires start <= |items|
    ensures items[..start] + Take(size, items[start..]) == items[..Least(|items|, start + size)]
  {
  }

  /** What the planned jobs read, one after the other. */
  function Fetched(order: Order, docs: seq<Doc>, windows: seq<Window>): seq<Doc> {
    if windows == [] then []
    else Fetched(order, docs, windows[..|windows| - 1])
         + Take(windows[|windows| - 1].size, Beyond(order, docs, windows[|windows| - 1].after))
  }

  ghost predicate AreWindows(docs: seq<Doc>, windowSize: nat, windows: seq<Window>) {
    forall k | 0 <= k < |windows| ::
      && Start(k, windowSize) <= |docs|
      && windows[k] == Window(KeyAfter(docs, Start(k, windowSize)), windowSize)
  }

  lemma {:induction false} WindowsCoverPrefix(order: Order, docs: seq<Doc>, windowSize: nat, windows: seq<Window>)
    requires Snapshot(order, docs) && AreWindows(docs, windowSize, windows)
    ensures Fetched(order, docs, windows) == docs[..Least(|docs|, Start(|windows|, windowSize))]
  {
    if windows != [] {
      var k := |windows| - 1;
      var start := Start(k, windowSize);
      assert windows[k] == Window(KeyAfter(docs, start), windowSize);
      WindowsCoverPrefix(order, docs, windowSize, windows[..k]);
      BeyondKey(order, docs, start);
      ExtendPrefix(docs, start, windowSize);
    }
  }

  function NumWindows(count: nat, docsPerJob: nat, maxSlices: nat): nat
    requires docsPerJob >= 1
  {
    Least(CeilDiv(count, docsPerJob), maxSlices)
  }

  /**
    Planning positional windows. `count` is what the count query said, `docs` the snapshot the scan
    and all workers share. Concatenated, the jobs read the first numWindows * windowSize documents
    of the snapshot in order, none twice and none skipped: all of them unless the snapshot grew.
   */
  method Split(order: Order, docs: seq<Doc>, count: nat, docsPerJob: nat, maxSlices: nat, pageSize: nat)
    returns (plan: Plan)
    requires Snapshot(order, docs) && docsPerJob >= 1 && pageSize >= 1
    ensures plan.Nothing? <==> count == 0
    ensures plan.WholeQuery? <==> count > 0 && NumWindows(count, docsPerJob, maxSlices) <= 1
    ensures plan.WholeQuery? <==> count > 0 && (count <= docsPerJob || maxSlices <= 1)
    ensures plan.Windows? ==> |plan.windows| <= maxSlices
    ensures plan.Windows? ==>
              var numWindows := NumWindows(count, docsPerJob, maxSlices);
              var size := CeilDiv(count, numWindows);
              && AreWindows(docs, size, plan.windows)
              && IsPlanned(|docs|, numWindows, size, |plan.windows|)
              && Fetched(order, docs, plan.windows) == docs[..Least(|docs|, numWindows * size)]
              && (|docs| <= count ==> Fetched(order, docs, plan.windows) == docs)
  {
    if count == 0 {
      return Nothing;
    }
    var numWindows := Least(CeilDiv(count, docsPerJob), maxSlices);
    CeilDivLeast(count, docsPerJob, 1);
    if numWindows <= 1 {
      return WholeQuery;
    }
    var windowSize := CeilDiv(count, numWindows);
    CeilDivLeast(count, numWindows, 0);
    var cursors := ScanWindowCursors(order, docs, pageSize, windowSize, numWindows);
    var windows: seq<Window> := [];
    for k := 0 to |cursors|
      invariant |windows| == k && AreWindows(docs, windowSize, windows)
    {
      windows := windows + [Window(cursors[k], windowSize)];
    }
    WindowsCoverPrefix(order, docs, windowSize, windows);
    StartIsProduct(numWindows, windowSize);
    StartsAscend(|windows|, numWindows, windowSize);
    plan := Windows(windows);
  }

  /** How many documents window k holds. */
  function SizeOf(found: nat, windowSize: nat, k: nat): nat {
    if found <= Start(k, windowSize) then 0 else Least(windowSize, found - Start(k, windowSize))
  }

  lemma LastWindowStartsInTime(count: nat, docsPerJob: nat)
    requires count >= 1 && docsPerJob >= 1
    ensures var asked := CeilDiv(count, docsPerJob);
            && asked >= 1 && 1 <= CeilDiv(count, asked) <= docsPerJob
            && Start(asked - 1, CeilDiv(count, asked)) < count
  {
    CeilDivLeast(count, docsPerJob, 0);
    var asked := CeilDiv(count, docsPerJob);
    // windows of docsPerJob documents would do, so windows are no larger than that
    CeilDivLeast(count, asked, docsPerJob);
    CeilDivLeast(count, asked, 0);
    var size := CeilDiv(count, asked);
    // one window fewer would not do, so the last one starts before the end
    CeilDivLeast(count, docsPerJob, asked - 1);
    MulOrder(size, docsPerJob, asked - 1);
    StartIsProduct(asked - 1, size);
  }

  /**
    When the cap on windows does not bind and the snapshot matches the count, every window asked
    for is planned, and each holds between one and `docsPerJob` documents.
   */
  lemma UncappedWindowsFit(count: nat, docsPerJob: nat, maxSlices: nat, n: nat, k: nat)
    requires count >= 1 && docsPerJob >= 1 && CeilDiv(count, docsPerJob) <= maxSlices
    requires IsPlanned(count, NumWindows(count, docsPerJob, maxSlices),
                       CeilDiv(count, NumWindows(count, docsPerJob, maxSlices)), n)
    requires k < n
    ensures n == NumWindows(count, docsPerJob, maxSlices)
    ensures 1 <= SizeOf(count, CeilDiv(count, n), k) <= docsPerJob
  {
    var asked := CeilDiv(count, docsPerJob);
    LastWindowStartsInTime(count, docsPerJob);
    var size := CeilDiv(count, asked);
    StartsAscend(k, asked - 1, size);
    if n < asked {
      StartsAscend(n, asked - 1, size);
    }
  }

  /**
    In general a planned window is empty only if it is the last and the documents end exactly where
    it starts; that takes a number of documents the window size divides and fewer full windows than
    were asked for.
   */
  lemma WhichWindowIsEmpty(found: nat, numWindows: nat, windowSize: nat, n: nat, k: nat)
    requires windowSize >= 1 && IsPlanned(found, numWindows, windowSize, n) && k < n
    ensures SizeOf(found, windowSize, k) == 0 <==>
              k == n - 1 && found % windowSize == 0 && found / windowSize < numWindows
  {
    StartOfQuotient(found, windowSize);
    EmptyWindow(found, numWindows, windowSize, n, k, found / windowSize, found % windowSize);
  }

  lemma StartOfQuotient(found: nat, size: nat)
    requires size >= 1
    ensures found == Start(found / size, size) + found % size
  {
    StartIsProduct(found / size, size);
  }

  lemma EmptyWindow(found: nat, numWindows: nat, windowSize: nat, n: nat, k: nat, q: nat, r: nat)
    requires windowSize >= 1 && IsPlanned(found, numWindows, windowSize, n) && k < n
    requires found == Start(q, windowSize) + r && r < windowSize
    ensures SizeOf(found, windowSize, k) == 0 <==> k == n - 1 && r == 0 && q < numWindows
  {
    StartsAscend(k, n - 1, windowSize);
    if q >= n {
      StartsAscend(n, q, windowSize);
    } else {
      StartsAscend(q, n - 1, windowSize);
    }
  }

  /**
    A setting of 1 is documented to give exactly one document per job and no empty job. With more
    documents than the cap on windows allows jobs it can give neither: of 2000 documents under the
    default cap, the first job holds two and the last of the 1001 none.
   */
  lemma OneDocPerJobCanPlanAnEmptyJob()
    ensures var size := CeilDiv(2000, NumWindows(2000, 1, 1024));
            && IsPlanned(2000, NumWindows(2000, 1, 1024), size, 1001)
            && SizeOf(2000, size, 0) == 2 && SizeOf(2000, size, 1000) == 0
  {
    StartIsProduct(1000, 2);
    StartIsProduct(1001, 2);
  }

  /** With a setting of 1 every job gets exactly one document if and only if the cap allows a job for each. */
  lemma WhenOneDocPerJob(count: nat, maxSlices: nat, n: nat)
    requires count >= 1 && maxSlices >= 2
    requires IsPlanned(count, NumWindows(count, 1, maxSlices), CeilDiv(count, NumWindows(count, 1, maxSlices)), n)
    ensures (forall k | 0 <= k < n :: SizeOf(count, CeilDiv(count, NumWindows(count, 1, maxSlices)), k) == 1)
            <==> count <= maxSlices
  {
    CeilDivLeast(count, 1, count);
    CeilDivLeast(count, 1, count - 1);
    if count <= maxSlices {
      forall k | 0 <= k < n
        ensures SizeOf(count, CeilDiv(count, NumWindows(count, 1, maxSlices)), k) == 1
      {
        UncappedWindowsFit(count, 1, maxSlices, n, k);
      }
    } else {
      CeilDivLeast(count, maxSlices, 1);
      assert SizeOf(count, CeilDiv(count, maxSlices), 0) > 1;
    }
  }

  // ----- range windows -----

  /** The bounds of a range filter. */
  datatype Clause = Clause(gt: Option<int>, gte: Option<int>, lt: Option<int>, lte: Option<int>)

  function RangeClause(order: Order, after: Option<int>, upto: Option<int>): Clause {
    if order.Asc? then Clause(after, None, None, upto) else Clause(None, upto, after, None)
  }

  predicate Matches(c: Clause, v: int) {
    && (c.gt.Some? ==> v > c.gt.value) && (c.gte.Some? ==> v >= c.gte.value)
    && (c.lt.Some? ==> v < c.lt.value) && (c.lte.Some? ==> v <= c.lte.value)
  }

  datatype RangeWindow = RangeWindow(after: Option<int>, upto: Option<int>)

  ghost predicate Monotone(order: Order, boundaries: seq<int>) {
    forall i, k | 0 <= i < k < |boundaries| :: Before(order, boundaries[i], boundaries[k])
  }

  function Edge(boundaries: seq<int>, k: nat): Option<int>
    requires k <= |boundaries| + 1
  {
    if k == 0 || k == |boundaries| + 1 then None else Some(boundaries[k - 1])
  }

  ghost predicate AreRanges(boundaries: seq<int>, ranges: seq<RangeWindow>) {
    && |ranges| == |boundaries| + 1
    && forall k | 0 <= k < |ranges| :: ranges[k] == RangeWindow(Edge(boundaries, k), Edge(boundaries, k + 1))
  }

  predicate Falls(order: Order, ranges: seq<RangeWindow>, k: nat, v: int)
    requires k < |ranges|
  {
    Matches(RangeClause(order, ranges[k].after, ranges[k].upto), v)
  }

  /** A document's value is past the window's lower edge in sort order, and not past its upper one. */
  lemma FallsBetween(order: Order, ranges: seq<RangeWindow>, k: nat, v: int)
    requires k < |ranges|
    ensures var after, upto := ranges[k].after, ranges[k].upto;
            Falls(order, ranges, k, v) <==>
              if order == Asc then (after.Some? ==> after.value < v) && (upto.Some? ==> v <= upto.value)
              else (after.Some? ==> after.value > v) && (upto.Some? ==> v >= upto.value)
  {
  }

  /** The window of a value: as many windows are skipped as there are boundaries before it. */
  function WindowOf(order: Order, boundaries: seq<int>, v: int): (k: nat)
    ensures k <= |boundaries|
    ensures k > 0 ==> Before(order, boundaries[k - 1], v)
  {
    if boundaries == [] then 0
    else if Before(order, boundaries[|boundaries| - 1], v) then |boundaries|
    else WindowOf(order, boundaries[..|boundaries| - 1], v)
  }

  lemma {:induction false} FirstNotBefore(order: Order, boundaries: seq<int>, v: int)
    requires Monotone(order, boundaries)
    ensures forall i | WindowOf(order, boundaries, v) <= i < |boundaries| :: !Before(order, boundaries[i], v)
    ensures forall i | 0 <= i < WindowOf(order, boundaries, v) :: Before(order, boundaries[i], v)
  {
    if boundaries != [] && !Before(order, boundaries[|boundaries| - 1], v) {
      var front := boundaries[..|boundaries| - 1];
      FirstNotBefore(order, front, v);
      assert forall i | 0 <= i < |front| :: front[i] == boundaries[i];
    }
  }

  /** Every value, also of a document indexed after planning, falls in exactly one window. */
  lemma ExactlyOneWindow(order: Order, boundaries: seq<int>, ranges: seq<RangeWindow>, v: int)
    requires Monotone(order, boundaries) && AreRanges(boundaries, ranges)
    ensures forall k | 0 <= k < |ranges| :: Falls(order, ranges, k, v) <==> k == WindowOf(order, boundaries, v)
  {
    FirstNotBefore(order, boundaries, v);
    var w := WindowOf(order, boundaries, v);
    forall k | 0 <= k < |ranges|
      ensures Falls(order, ranges, k, v) <==> k == w
    {
      assert ranges[k] == RangeWindow(Edge(boundaries, k), Edge(boundaries, k + 1));
      if k < w {
        assert Before(order, boundaries[k], v);
      } else if k > w {
        assert !Before(order, boundaries[k - 1], v);
      }
    }
  }

  ghost predicate InExactlyOne(order: Order, ranges: seq<RangeWindow>, v: int) {
    exists k :: 0 <= k < |ranges| && OnlyIn(order, ranges, k, v)
  }

  ghost predicate OnlyIn(order: Order, ranges: seq<RangeWindow>, k: nat, v: int)
    requires k < |ranges|
  {
    Falls(order, ranges, k, v) && forall m | 0 <= m < |ranges| && Falls(order, ranges, m, v) :: m == k
  }

  /** The values of the documents that end the windows before the n-th: every `windowSize`-th document. */
  function EndValues(docs: seq<Doc>, windowSize: nat, n: nat): seq<int> {
    if n <= 1 then []
    else
      var at := Start(n - 1, windowSize);
      EndValues(docs, windowSize, n - 1) + if 1 <= at <= |docs| then [docs[at - 1].key.value] else []
  }

  lemma {:induction false} EndIsIn(docs: seq<Doc>, windowSize: nat, n: nat, k: nat, at: nat)
    requires 1 <= k < n && at == Start(k, windowSize) && 1 <= at <= |docs|
    ensures docs[at - 1].key.value in EndValues(docs, windowSize, n)
  {
    if k < n - 1 {
      EndIsIn(docs, windowSize, n - 1, k, at);
    } else {
      assert EndValues(docs, windowSize, n) == EndValues(docs, windowSize, n - 1) + [docs[at - 1].key.value];
    }
  }

  /** The boundaries are those values, each once, as far as `n` windows go. */
  ghost predicate AreBoundaries(docs: seq<Doc>, windowSize: nat, n: nat, boundaries: seq<int>) {
    forall b :: b in boundaries <==> b in EndValues(docs, windowSize, n)
  }

  /** Of as many documents in a row as a window holds, one ends a window. */
  lemma EndBetween(i: nat, windowSize: nat) returns (k: nat)
    requires windowSize >= 1
    ensures 1 <= k && i < Start(k, windowSize) <= i + windowSize
  {
    StartOfQuotient(i, windowSize);
    k := i / windowSize + 1;
  }

  lemma BoundaryBetween(docs: seq<Doc>, windowSize: nat, n: nat, boundaries: seq<int>, i: nat, j: nat)
      returns (at: nat, m: nat)
    requires AreBoundaries(docs, windowSize, n, boundaries) && |docs| <= Start(n, windowSize)
    requires windowSize >= 1 && i + windowSize <= j < |docs|
    ensures i <= at < j && m < |boundaries| && boundaries[m] == docs[at].key.value
  {
    var k := EndBetween(i, windowSize);
    if k >= n {
      StartsAscend(n, k, windowSize);
    }
    at := Start(k, windowSize) - 1;
    EndIsIn(docs, windowSize, n, k, at + 1);
    m :| m < |boundaries| && boundaries[m] == docs[at].key.value;
  }

  lemma BoundaryParts(order: Order, boundaries: seq<int>, m: nat, v: int, w: int)
    requires Monotone(order, boundaries) && m < |boundaries|
    requires v == boundaries[m] || Before(order, v, boundaries[m])
    requires w == boundaries[m] || Before(order, boundaries[m], w)
    ensures w == boundaries[m] || WindowOf(order, boundaries, v) < WindowOf(order, boundaries, w)
  {
    FirstNotBefore(order, boundaries, v);
    FirstNotBefore(order, boundaries, w);
  }

  /**
    Range windows are about as large as positional ones: of two documents a window size apart, the later
    falls in a later window, unless its value is a boundary, as documents of one value stay together.
   */
  lemma RangesAreAsLarge(
      order: Order, docs: seq<Doc>, windowSize: nat, n: nat, boundaries: seq<int>, i: nat, j: nat)
    requires Snapshot(order, docs) && Monotone(order, boundaries) && windowSize >= 1
    requires AreBoundaries(docs, windowSize, n, boundaries) && |docs| <= Start(n, windowSize)
    requires i + windowSize <= j < |docs|
    ensures docs[j].key.value in boundaries
            || WindowOf(order, boundaries, docs[i].key.value) < WindowOf(order, boundaries, docs[j].key.value)
  {
    var at, m := BoundaryBetween(docs, windowSize, n, boundaries, i, j);
    ValuesAscend(order, docs, i, at);
    ValuesAscend(order, docs, at, j);
    BoundaryParts(order, boundaries, m, docs[i].key.value, docs[j].key.value);
  }

  /** The boundaries of a scan for `numWindows` windows. */
  ghost predicate EndEvery(docs: seq<Doc>, windowSize: nat, numWindows: nat, boundaries: seq<int>) {
    exists n :: IsPlanned(|docs|, numWindows, windowSize, n) && AreBoundaries(docs, windowSize, n, boundaries)
  }

  /** Planning range windows: `docs` is the snapshot of the planning scan, ties and all. */
  method SplitRangeWindows(order: Order, docs: seq<Doc>, count: nat, docsPerJob: nat, maxSlices: nat, pageSize: nat)
    returns (ranges: seq<RangeWindow>, boundaries: seq<int>)
    requires Snapshot(order, docs) && docsPerJob >= 1 && pageSize >= 1
    ensures NumWindows(count, docsPerJob, maxSlices) <= 1 <==> ranges == []
    ensures ranges != [] ==>
              && Monotone(order, boundaries) && AreRanges(boundaries, ranges)
              && |ranges| <= NumWindows(count, docsPerJob, maxSlices) <= maxSlices
              && forall v :: InExactlyOne(order, ranges, v)
    ensures ranges != [] ==>
              var numWindows := NumWindows(count, docsPerJob, maxSlices);
              EndEvery(docs, CeilDiv(count, numWindows), numWindows, boundaries)
  {
    ranges, boundaries := [], [];
    var numWindows := Least(CeilDiv(count, docsPerJob), maxSlices);
    if numWindows <= 1 {
      return;
    }
    var windowSize := CeilDiv(count, numWindows);
    CeilDivLeast(count, docsPerJob, 0);
    CeilDivLeast(count, numWindows, 0);
    var cursors := ScanWindowCursors(order, docs, pageSize, windowSize, numWindows);
    boundaries := DropRepeats(order, docs, windowSize, cursors);
    for k := 0 to |boundaries| + 1
      invariant |ranges| == k
      invariant forall i | 0 <= i < k :: ranges[i] == RangeWindow(Edge(boundaries, i), Edge(boundaries, i + 1))
    {
      ranges := ranges + [RangeWindow(Edge(boundaries, k), Edge(boundaries, k + 1))];
    }
    forall v
      ensures InExactlyOne(order, ranges, v)
    {
      ExactlyOneWindow(order, boundaries, ranges, v);
      assert OnlyIn(order, ranges, WindowOf(order, boundaries, v), v);
    }
  }

  /** The scanned values without consecutive repeats; sorted with ties, they come out strictly monotone. */
  method DropRepeats(order: Order, docs: seq<Doc>, windowSize: nat, cursors: seq<Option<SortKey>>)
    returns (boundaries: seq<int>)
    requires Snapshot(order, docs) && windowSize >= 1 && cursors != [] && AreCursors(docs, windowSize, cursors)
    ensures Monotone(order, boundaries) && |boundaries| <= |cursors| - 1
    ensures AreBoundaries(docs, windowSize, |cursors|, boundaries)
  {
    boundaries := [];
    for k := 1 to |cursors|
      invariant Monotone(order, boundaries) && |boundaries| <= k - 1
      invariant boundaries == [] <==> k == 1
      invariant k > 1 ==> boundaries[|boundaries| - 1] == docs[Start(k - 1, windowSize) - 1].key.value
      invariant AreBoundaries(docs, windowSize, k, boundaries)
    {
      StartsAscend(1, k, windowSize);
      var value := cursors[k].value.value;
      if boundaries == [] || value != boundaries[|boundaries| - 1] {
        if k > 1 {
          LaterKey(order, docs, windowSize, k);
        }
        boundaries := boundaries + [value];
      }
    }
  }

  lemma LaterKey(order: Order, docs: seq<Doc>, windowSize: nat, k: nat)
    requires Snapshot(order, docs) && windowSize >= 1 && k > 1 && Start(k, windowSize) <= |docs|
    ensures 1 <= Start(k - 1, windowSize) < Start(k, windowSize)
    ensures var a, b := docs[Start(k - 1, windowSize) - 1].key.value, docs[Start(k, windowSize) - 1].key.value;
            a == b || Before(order, a, b)
  {
    StartsAscend(1, k - 1, windowSize);
    ValuesAscend(order, docs, Start(k - 1, windowSize) - 1, Start(k, windowSize) - 1);
  }
}
