/** `getAllHistoricalData` of `api.js`: batches of 115 page requests of 1000
    buckets each, at offsets growing by 1000, until the last page of a batch
    is empty or some page is not an array. The page responses are an oracle
    from the query to the JSON value that `getHistoricalData` resolves to;
    the 60-second pause before each batch is timing and is not modelled. */
module History {
  import opened Wrappers
  import opened Json
  import Api

  const PageSize: nat := 1000
  const BatchWidth: nat := 115

  /** The `start` and `count` of one `getHistoricalData` call; symbol,
      interval and time range are the same for every call of one fetch. */
  datatype HistoryQuery = HistoryQuery(start: int, count: int)

  /** The result of the fetch: every page merged, or the offending payload. */
  datatype Outcome = Done(records: seq<Json>) | Aborted(payload: Json)

  /** The queries of batch `b` (0-based), in issuance order. */
  function BatchQueries(b: nat): (qs: seq<HistoryQuery>)
    ensures |qs| == BatchWidth
  {
    seq(BatchWidth, i requires 0 <= i < BatchWidth => HistoryQuery(PageSize * (BatchWidth * b + i), PageSize))
  }

  /** The queries of the first `n` batches, in issuance order. */
  function Requests(n: nat): seq<HistoryQuery> {
    if n == 0 then [] else Requests(n - 1) + BatchQueries(n - 1)
  }

  /** The `j`-th request of a fetch asks for 1000 records at offset `1000 * j`. */
  lemma {:induction false} RequestsInOrder(n: nat)
    ensures |Requests(n)| == BatchWidth * n
    ensures forall j :: 0 <= j < |Requests(n)| ==> Requests(n)[j] == HistoryQuery(PageSize * j, PageSize)
  {
    if n > 0 {
      RequestsInOrder(n - 1);
      var r := Requests(n);
      forall j | 0 <= j < |r|
        ensures r[j] == HistoryQuery(PageSize * j, PageSize)
      {
        if j >= BatchWidth * (n - 1) {
          assert r[j] == BatchQueries(n - 1)[j - BatchWidth * (n - 1)];
        }
      }
    }
  }

  /** Offsets strictly increase over the whole fetch, every request asks for
      1000 records, and each one passes the `count` guard of
      `getHistoricalData`. */
  lemma RequestsIncreaseAndPassGuard(n: nat, c: Api.Client, symbol: string, interval: string,
                                     startTime: Json, endTime: Json, nowMs: nat, prims: Api.Signing.Primitives)
    ensures forall j1, j2 :: 0 <= j1 < j2 < |Requests(n)| ==> Requests(n)[j1].start < Requests(n)[j2].start
    ensures forall j :: 0 <= j < |Requests(n)| ==>
              Requests(n)[j].count == PageSize
              && Api.GetHistoricalData(c, symbol, interval, Requests(n)[j].start, Requests(n)[j].count,
                                       startTime, endTime, nowMs, prims).Ok?
  {
    RequestsInOrder(n);
  }

  /** The responses of batch `b`, in issuance order (`Promise.all` keeps it). */
  function Batch(page: HistoryQuery -> Json, b: nat): (data: seq<Json>)
    ensures |data| == BatchWidth
  {
    seq(BatchWidth, i requires 0 <= i < BatchWidth => page(BatchQueries(b)[i]))
  }

  lemma BatchAt(page: HistoryQuery -> Json, b: nat, i: nat)
    requires i < BatchWidth
    ensures Batch(page, b)[i] == page(HistoryQuery(PageSize * (BatchWidth * b + i), PageSize))
  {
    assert BatchQueries(b)[i] == HistoryQuery(PageSize * (BatchWidth * b + i), PageSize);
  }

  predicate AllArrays(data: seq<Json>) {
    forall i :: 0 <= i < |data| ==> data[i].JArr?
  }

  /** `data.find(r => !Array.isArray(r))`, as an index. */
  function FirstNonArray(data: seq<Json>): (r: Option<nat>)
    ensures r.None? <==> AllArrays(data)
    ensures r.Some? ==> r.value < |data| && !data[r.value].JArr?
                        && forall j :: 0 <= j < r.value ==> data[j].JArr?
  {
    if data == [] then None
    else if !data[0].JArr? then Some(0)
    else match FirstNonArray(data[1..])
         case None => None
         case Some(i) => Some(i + 1)
  }

  /** The records of a sequence of array pages, concatenated in order. */
  function Flatten(data: seq<Json>): seq<Json>
    requires AllArrays(data)
  {
    if data == [] then [] else data[0].items + Flatten(data[1..])
  }

  lemma {:induction false} FlattenAppend(a: seq<Json>, b: seq<Json>)
    requires AllArrays(a) && AllArrays(b)
    ensures AllArrays(a + b) && Flatten(a + b) == Flatten(a) + Flatten(b)
  {
    if a != [] {
      assert (a + b)[1..] == a[1..] + b;
      FlattenAppend(a[1..], b);
    } else {
      assert a + b == b;
    }
  }

  lemma {:induction false} FlattenEmptyPages(data: seq<Json>)
    requires forall i :: 0 <= i < |data| ==> data[i] == JArr([])
    ensures AllArrays(data) && Flatten(data) == []
  {
    if data != [] {
      FlattenEmptyPages(data[1..]);
    }
  }

  /** What the source does with one awaited batch (lines 290-295): return a
      payload, or merge records and decide whether the fetch is finished. */
  datatype Step = Returned(payload: Json) | Merged(appended: seq<Json>, finished: bool)

  /** The batch step with the evidently intended error test: any page that
      is not an array aborts the fetch. */
  function BatchStep(data: seq<Json>): (r: Step)
    requires |data| > 0
    ensures r.Returned? <==> !AllArrays(data)
    ensures r.Returned? ==> exists i :: 0 <= i < |data| && r.payload == data[i] && !data[i].JArr?
                                         && forall j :: 0 <= j < i ==> data[j].JArr?
    ensures r.Merged? ==> r.appended == Flatten(data) && (r.finished <==> data[|data| - 1].items == [])
  {
    var invalid := FirstNonArray(data);
    if invalid.Some? then Returned(data[invalid.value])
    else Merged(Flatten(data), data[|data| - 1].items == [])
  }

  /** Batch `b` ends the fetch: it has a page that is not an array, or its
      last page is empty. */
  predicate Stops(page: HistoryQuery -> Json, b: nat) {
    !AllArrays(Batch(page, b)) || Batch(page, b)[BatchWidth - 1].items == []
  }

  /** The records of the first `n` batches, merged batch after batch. */
  function Accumulated(page: HistoryQuery -> Json, n: nat): seq<Json>
    requires forall b :: 0 <= b < n ==> AllArrays(Batch(page, b))
  {
    if n == 0 then [] else Accumulated(page, n - 1) + Flatten(Batch(page, n - 1))
  }

  /** The result of a fetch whose first stopping batch is `k`. */
  function OutcomeAt(page: HistoryQuery -> Json, k: nat): Outcome
    requires forall b :: 0 <= b < k ==> !Stops(page, b)
  {
    var invalid := FirstNonArray(Batch(page, k));
    if invalid.Some? then Aborted(Batch(page, k)[invalid.value])
    else
      assert forall b :: 0 <= b < k + 1 ==> AllArrays(Batch(page, b)) by {
        forall b | 0 <= b < k + 1
          ensures AllArrays(Batch(page, b))
        {
          if b < k { assert !Stops(page, b); }
        }
      }
      Done(Accumulated(page, k + 1))
  }

  /** `getAllHistoricalData`. The source loops for as long as no batch
      stops; the model covers responses for which some batch stops. */
  method GetAllHistoricalData(page: HistoryQuery -> Json) returns (result: Outcome, batches: nat, issued: seq<HistoryQuery>)
    requires exists k: nat :: Stops(page, k)
    ensures batches >= 1
    ensures forall b :: 0 <= b < batches - 1 ==> !Stops(page, b)
    ensures Stops(page, batches - 1)
    ensures issued == Requests(batches)
    ensures result == OutcomeAt(page, batches - 1)
  {
    ghost var k: nat :| Stops(page, k);
    var acc: seq<Json> := [];
    var start: nat := 0;
    var finished := false;
    batches, issued := 0, [];
    while !finished
      invariant start == PageSize * BatchWidth * batches
      invariant issued == Requests(batches)
      invariant forall b :: 0 <= b < batches ==> AllArrays(Batch(page, b))
      invariant acc == Accumulated(page, batches)
      invariant !finished ==> batches <= k && forall b :: 0 <= b < batches ==> !Stops(page, b)
      invariant finished ==> batches >= 1 && Stops(page, batches - 1)
                             && forall b :: 0 <= b < batches - 1 ==> !Stops(page, b)
      decreases if finished then 0 else k + 1 - batches
    {
      var data: seq<Json> := [];
      for i := 0 to BatchWidth
        invariant |data| == i
        invariant start == PageSize * (BatchWidth * batches + i)
        invariant data == Batch(page, batches)[..i]
        invariant issued == Requests(batches) + BatchQueries(batches)[..i]
      {
        var q := HistoryQuery(start, PageSize);
        data := data + [page(q)];
        issued := issued + [q];
        start := start + PageSize;
      }
      assert data == Batch(page, batches);
      var step := BatchStep(data);
      if step.Returned? {
        result := Aborted(step.payload);
        batches := batches + 1;
        return;
      }
      acc := acc + step.appended;
      finished := step.finished;
      batches := batches + 1;
    }
    result := Done(acc);
  }

  /** Every response of the first `n` batches, in request order. */
  function AllPages(page: HistoryQuery -> Json, n: nat): (pages: seq<Json>)
    ensures |pages| == BatchWidth * n
  {
    seq(BatchWidth * n, j requires 0 <= j < BatchWidth * n => page(HistoryQuery(PageSize * j, PageSize)))
  }

  /** The response to request `j` of the fetch is page `j % 115` of batch `j / 115`. */
  lemma PageInBatch(page: HistoryQuery -> Json, n: nat, j: nat)
    requires j < BatchWidth * n
    ensures j / BatchWidth < n
    ensures AllPages(page, n)[j] == Batch(page, j / BatchWidth)[j % BatchWidth]
  {
    BatchAt(page, j / BatchWidth, j % BatchWidth);
    assert BatchWidth * (j / BatchWidth) + j % BatchWidth == j;
  }

  lemma AllPagesSplit(page: HistoryQuery -> Json, n: nat)
    requires n > 0
    ensures AllPages(page, n) == AllPages(page, n - 1) + Batch(page, n - 1)
  {
    var a, b := AllPages(page, n - 1), Batch(page, n - 1);
    forall j | 0 <= j < BatchWidth * n
      ensures AllPages(page, n)[j] == (a + b)[j]
    {
      if j >= BatchWidth * (n - 1) {
        var i := j - BatchWidth * (n - 1);
        BatchAt(page, n - 1, i);
        assert (a + b)[j] == b[i];
      } else {
        assert (a + b)[j] == a[j];
      }
    }
  }

  /** Merging batch after batch is concatenating every page in request order. */
  lemma {:induction false} AccumulatedIsAllPages(page: HistoryQuery -> Json, n: nat)
    requires forall b :: 0 <= b < n ==> AllArrays(Batch(page, b))
    ensures AllArrays(AllPages(page, n)) && Accumulated(page, n) == Flatten(AllPages(page, n))
  {
    if n > 0 {
      AccumulatedIsAllPages(page, n - 1);
      AllPagesSplit(page, n);
      FlattenAppend(AllPages(page, n - 1), Batch(page, n - 1));
    }
  }

  /** On success the result is every page of the fetch, concatenated in
      request order; when the first batch already stops, those are just its
      own pages. */
  lemma DoneIsConcatenation(page: HistoryQuery -> Json, k: nat)
    requires forall b :: 0 <= b < k ==> !Stops(page, b)
    requires OutcomeAt(page, k).Done?
    ensures AllArrays(AllPages(page, k + 1))
    ensures OutcomeAt(page, k).records == Flatten(AllPages(page, k + 1))
    ensures k == 0 ==> OutcomeAt(page, k).records == Flatten(Batch(page, 0))
  {
    forall b | 0 <= b < k + 1
      ensures AllArrays(Batch(page, b))
    {
      if b < k { assert !Stops(page, b); }
    }
    AccumulatedIsAllPages(page, k + 1);
    if k == 0 {
      assert Accumulated(page, 0) == [];
    }
  }

  /** On abort the result is the first response of the whole fetch, in
      request order, that is not an array; it lies in the last batch, and
      no record is returned with it. */
  lemma AbortedIsFirstNonArray(page: HistoryQuery -> Json, k: nat)
    requires forall b :: 0 <= b < k ==> !Stops(page, b)
    requires OutcomeAt(page, k).Aborted?
    ensures var pages := AllPages(page, k + 1);
            exists j :: BatchWidth * k <= j < |pages| && OutcomeAt(page, k).payload == pages[j] && !pages[j].JArr?
                        && forall j' :: 0 <= j' < j ==> pages[j'].JArr?
  {
    var pages := AllPages(page, k + 1);
    var i := FirstNonArray(Batch(page, k)).value;
    var j := BatchWidth * k + i;
    PageInBatch(page, k + 1, j);
    forall j' | 0 <= j' < j
      ensures pages[j'].JArr?
    {
      PageInBatch(page, k + 1, j');
      if j' / BatchWidth < k {
        assert !Stops(page, j' / BatchWidth);
      }
    }
  }

  // Two behaviours of the fetch against fixed responses.

  /** Offsets 0, 1000 and 2000 hold 1000 buckets each; everything after is empty. */
  function ThreeFullPages(q: HistoryQuery): Json {
    if 0 <= q.start < 3 * PageSize then JArr(seq(PageSize, x requires 0 <= x < PageSize => JNum(q.start + x)))
    else JArr([])
  }

  /** The fetch stops after its first batch with exactly 3000 records, in offset order. */
  lemma ThreeFullPagesScenario()
    ensures Stops(ThreeFullPages, 0)
    ensures OutcomeAt(ThreeFullPages, 0) == Done(seq(3 * PageSize, x requires 0 <= x < 3 * PageSize => JNum(x)))
  {
    var data := Batch(ThreeFullPages, 0);
    forall i | 0 <= i < BatchWidth
      ensures data[i] == ThreeFullPages(HistoryQuery(PageSize * i, PageSize))
    {
      BatchAt(ThreeFullPages, 0, i);
    }
    var head, tail := data[..3], data[3..];
    forall i | 0 <= i < |tail|
      ensures tail[i] == JArr([])
    {
      assert tail[i] == data[i + 3];
    }
    FlattenEmptyPages(tail);
    assert AllArrays(head);
    FlattenAppend(head, tail);
    assert data == head + tail;
    assert head[1..][1..][1..] == [];
    assert Flatten(head[1..][1..]) == data[2].items + Flatten(head[1..][1..][1..]);
    assert Flatten(head[1..]) == data[1].items + Flatten(head[1..][1..]);
    assert Flatten(head) == data[0].items + Flatten(head[1..]);
    var records := Flatten(data);
    assert records == data[0].items + data[1].items + data[2].items;
    forall x | 0 <= x < 3 * PageSize
      ensures records[x] == JNum(x)
    {
      if x < PageSize {
      } else if x < 2 * PageSize {
        assert records[x] == data[1].items[x - PageSize];
      } else {
        assert records[x] == data[2].items[x - 2 * PageSize];
      }
    }
    assert Accumulated(ThreeFullPages, 1) == Accumulated(ThreeFullPages, 0) + records;
  }

  const RateLimited: Json := JObj(map["error" := JObj(map["message" := JStr("Rate limit exceeded")])])

  /** The 47th page of the second batch is an error object; all others hold one bucket. */
  function ErrorInSecondBatch(q: HistoryQuery): Json {
    if q.start == PageSize * (BatchWidth + 46) then RateLimited else JArr([JNum(q.start)])
  }

  /** The fetch stops after exactly two batches and returns the error object. */
  lemma ErrorInSecondBatchScenario()
    ensures !Stops(ErrorInSecondBatch, 0) && Stops(ErrorInSecondBatch, 1)
    ensures forall n: nat :: Stops(ErrorInSecondBatch, n) && (forall b :: 0 <= b < n ==> !Stops(ErrorInSecondBatch, b)) ==> n == 1
    ensures OutcomeAt(ErrorInSecondBatch, 1) == Aborted(RateLimited)
  {
    var d0, d1 := Batch(ErrorInSecondBatch, 0), Batch(ErrorInSecondBatch, 1);
    forall i | 0 <= i < BatchWidth
      ensures d0[i] == JArr([JNum(PageSize * i)])
      ensures d1[i] == if i == 46 then RateLimited else JArr([JNum(PageSize * (BatchWidth + i))])
    {
      BatchAt(ErrorInSecondBatch, 0, i);
      BatchAt(ErrorInSecondBatch, 1, i);
    }
    assert AllArrays(d0) && d0[BatchWidth - 1].items != [];
    assert !d1[46].JArr?;
    var i := FirstNonArray(d1).value;
    assert i == 46;
    forall n: nat | Stops(ErrorInSecondBatch, n) && (forall b :: 0 <= b < n ==> !Stops(ErrorInSecondBatch, b))
      ensures n == 1
    {
      assert 1 < n ==> !Stops(ErrorInSecondBatch, 1);
    }
  }

  // The error test as written (lines 290-291) is `if (invalidData)`: a page
  // that is not an array but is falsy (JSON `null`, `false`, `0` or `""`) is
  // not returned, and the code goes on to `data.flat()` and to reading
  // `.length` of the last page.

  /** Each page as the array `flat()` splices in: an array page is itself,
      any other value `v` counts as the one-element array `[v]`. */
  function Wrap(data: seq<Json>): (w: seq<Json>)
    ensures |w| == |data| && AllArrays(w)
    ensures forall i :: 0 <= i < |data| ==> w[i] == (if data[i].JArr? then data[i] else JArr([data[i]]))
  {
    if data == [] then [] else [if data[0].JArr? then data[0] else JArr([data[0]])] + Wrap(data[1..])
  }

  /** `data.flat()`: array pages are spliced in, any other value is kept as one element. */
  function Flat(data: seq<Json>): (r: seq<Json>)
    ensures r == Flatten(Wrap(data))
    ensures AllArrays(data) ==> r == Flatten(data)
    ensures forall i :: 0 <= i < |data| && !data[i].JArr? ==> data[i] in r
  {
    if data == [] then []
    else
      assert Wrap(data)[1..] == Wrap(data[1..]);
      assert AllArrays(data) ==> Wrap(data) == data;
      (if data[0].JArr? then data[0].items else [data[0]]) + Flat(data[1..])
  }

  /** `v.length === 0`; `None` is the TypeError of reading a property of `null`. */
  function LengthIsZero(v: Json): (r: Option<bool>)
    ensures r.None? <==> v == JNull
    ensures v.JArr? ==> r == Some(v.items == [])
    ensures v.JStr? ==> r == Some(v.s == "")
    ensures v.JBool? || v.JNum? ==> r == Some(false)
    ensures v.JObj? ==> (r == Some(true) <==> "length" in v.fields && v.fields["length"] == JNum(0))
  {
    match v
    case JNull => None
    case JBool(_) => Some(false)
    case JNum(_) => Some(false)
    case JStr(s) => Some(|s| == 0)
    case JArr(items) => Some(|items| == 0)
    case JObj(m) => Some("length" in m && m["length"] == JNum(0))
  }

  /** What the batch step yields as written: `Returned` only for a truthy
      non-array; `None` when reading the last page's length throws. */
  function BatchStepAsWritten(data: seq<Json>): (r: Option<Step>)
    requires |data| > 0
    ensures (r.Some? && r.value.Returned?) <==> FirstNonArray(data).Some? && Truthy(data[FirstNonArray(data).value])
    ensures FirstNonArray(data).Some? && Truthy(data[FirstNonArray(data).value])
            ==> r == Some(Returned(data[FirstNonArray(data).value]))
    ensures r.None? <==> !(FirstNonArray(data).Some? && Truthy(data[FirstNonArray(data).value]))
                         && data[|data| - 1] == JNull
    ensures r.Some? && r.value.Merged? ==>
              (r.value.appended == Flat(data)
               && (r.value.finished <==> LengthIsZero(data[|data| - 1]) == Some(true)))
  {
    var invalid := FirstNonArray(data);
    if invalid.Some? && Truthy(data[invalid.value]) then Some(Returned(data[invalid.value]))
    else match LengthIsZero(data[|data| - 1])
         case None => None
         case Some(empty) => Some(Merged(Flat(data), empty))
  }

  /** Whenever every non-array page is truthy, as for the exchange's error
      objects, the code as written and the corrected step agree. */
  lemma AsWrittenAgreesOnTruthyPages(data: seq<Json>)
    requires |data| > 0
    requires forall i :: 0 <= i < |data| && !data[i].JArr? ==> Truthy(data[i])
    ensures BatchStepAsWritten(data) == Some(BatchStep(data))
  {
  }

  /** A batch whose first page is JSON `null` and whose other pages are empty:
      the code as written finishes the fetch with `null` among the records,
      where the intended step aborts with that page. */
  lemma FalsyPageSlipsThrough()
    ensures var data := [JNull] + seq(BatchWidth - 1, _ => JArr([]));
            && BatchStepAsWritten(data) == Some(Merged([JNull], true))
            && BatchStep(data) == Returned(JNull)
  {
    var data := [JNull] + seq(BatchWidth - 1, _ => JArr([]));
    assert data[|data| - 1] == JArr([]);
    assert FirstNonArray(data) == Some(0);
    FlattenEmptyPages(data[1..]);
    assert Flat(data) == [JNull] + Flat(data[1..]) == [JNull];
  }
}
