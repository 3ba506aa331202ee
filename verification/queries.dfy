/** Which data files a parameter class asks for. Every data-file URL of
    firstratedata/download_via_api.py differs from the others only in its
    ticker range (ETF, Stock), its timeframe and its adjustment (ETF, Stock,
    Futures); a `Query` records those three, and the functions here give, for
    each loop nest of `hist_urls`, the queries it visits in order. How a query
    is spelled as a URL is in module Urls. */
module Queries {

  import opened Text

  datatype Option<T> = None | Some(value: T)

  /** The varying part of one data-file request. */
  datatype Query = Query(tickerRange: Option<string>, timeframe: string, adjustment: Option<string>)

  /** The one adjustment mode that is filtered by timeframe. */
  const Unadjusted := "UNADJUSTED"
  /** The timeframes for which unadjusted ranged data is requested. */
  const UnadjustedTimeframes := ["1min", "1day"]

  // ---------------------------------------------------------------------
  // Index, Forex, Crypto: one query per timeframe
  // ---------------------------------------------------------------------

  /** One query per timeframe of `order`, in that order. */
  function PlainQueries(order: seq<string>): seq<Query>
    decreases |order|
  {
    if order == [] then []
    else PlainQueries(order[..|order| - 1]) + [Query(None, order[|order| - 1], None)]
  }

  lemma {:induction false} PlainQueriesAt(order: seq<string>)
    ensures |PlainQueries(order)| == |order|
    ensures forall j :: 0 <= j < |order| ==> PlainQueries(order)[j] == Query(None, order[j], None)
    decreases |order|
  {
    if order != [] {
      PlainQueriesAt(order[..|order| - 1]);
    }
  }

  /** One more timeframe visited from the end of `timeframes`. */
  lemma PlainQueriesStep(timeframes: seq<string>, j: int)
    requires 0 <= j < |timeframes|
    ensures PlainQueries(Reversed(timeframes[j..]))
            == PlainQueries(Reversed(timeframes[j + 1..])) + [Query(None, timeframes[j], None)]
  {
    assert timeframes[j..][1..] == timeframes[j + 1..];
    var order := Reversed(timeframes[j + 1..]);
    assert Reversed(timeframes[j..]) == order + [timeframes[j]];
    assert (order + [timeframes[j]])[..|order|] == order;
  }

  // ---------------------------------------------------------------------
  // ETF, Stock: ticker range, then timeframe, then adjustment, filtered
  // ---------------------------------------------------------------------

  /** The `if adj == 'UNADJUSTED': if timeframe in ['1min', '1day']` filter. */
  predicate KeepAdjustment(adjustment: string, timeframe: string)
  {
    adjustment != Unadjusted || timeframe in UnadjustedTimeframes
  }

  /** The queries of one (ticker range, timeframe) pair: the adjustments in
      order, those the filter rejects left out. */
  function AdjustmentQueries(tickerRange: string, timeframe: string, adjustments: seq<string>): seq<Query>
    decreases |adjustments|
  {
    if adjustments == [] then []
    else
      var adjustment := adjustments[|adjustments| - 1];
      AdjustmentQueries(tickerRange, timeframe, adjustments[..|adjustments| - 1])
        + (if KeepAdjustment(adjustment, timeframe)
           then [Query(Some(tickerRange), timeframe, Some(adjustment))]
           else [])
  }

  /** The queries of one ticker range, timeframes in the order given. */
  function TimeframeQueries(tickerRange: string, order: seq<string>, adjustments: seq<string>): seq<Query>
    decreases |order|
  {
    if order == [] then []
    else TimeframeQueries(tickerRange, order[..|order| - 1], adjustments)
           + AdjustmentQueries(tickerRange, order[|order| - 1], adjustments)
  }

  /** Over five timeframes, the per-timeframe blocks one after another. */
  lemma TimeframeQueriesOfFive(r: string, t0: string, t1: string, t2: string, t3: string, t4: string,
                               adjustments: seq<string>)
    ensures TimeframeQueries(r, [t0, t1, t2, t3, t4], adjustments)
            == AdjustmentQueries(r, t0, adjustments) + AdjustmentQueries(r, t1, adjustments)
               + AdjustmentQueries(r, t2, adjustments) + AdjustmentQueries(r, t3, adjustments)
               + AdjustmentQueries(r, t4, adjustments)
  {
    var adjs := adjustments;
    var o0: seq<string> := [];
    var o1 := o0 + [t0];
    var o2 := o1 + [t1];
    var o3 := o2 + [t2];
    var o4 := o3 + [t3];
    var o5 := o4 + [t4];
    TimeframeQueriesAppend(r, o0, t0, adjs);
    TimeframeQueriesAppend(r, o1, t1, adjs);
    TimeframeQueriesAppend(r, o2, t2, adjs);
    TimeframeQueriesAppend(r, o3, t3, adjs);
    TimeframeQueriesAppend(r, o4, t4, adjs);
    assert o5 == [t0, t1, t2, t3, t4];
  }

  lemma TimeframeQueriesAppend(r: string, order: seq<string>, timeframe: string, adjustments: seq<string>)
    ensures TimeframeQueries(r, order + [timeframe], adjustments)
            == TimeframeQueries(r, order, adjustments) + AdjustmentQueries(r, timeframe, adjustments)
  {
    assert (order + [timeframe])[..|order|] == order;
  }

  /** The queries of all ticker ranges, one block per range, in order. */
  function RangeQueries(tickerRanges: seq<string>, order: seq<string>, adjustments: seq<string>): seq<Query>
    decreases |tickerRanges|
  {
    if tickerRanges == [] then []
    else RangeQueries(tickerRanges[..|tickerRanges| - 1], order, adjustments)
           + TimeframeQueries(tickerRanges[|tickerRanges| - 1], order, adjustments)
  }

  lemma AdjustmentQueriesStep(tickerRange: string, timeframe: string, adjustments: seq<string>, k: int)
    requires 0 <= k < |adjustments|
    ensures AdjustmentQueries(tickerRange, timeframe, adjustments[..k + 1])
            == AdjustmentQueries(tickerRange, timeframe, adjustments[..k])
               + (if KeepAdjustment(adjustments[k], timeframe)
                  then [Query(Some(tickerRange), timeframe, Some(adjustments[k]))]
                  else [])
  {
    assert adjustments[..k + 1][..k] == adjustments[..k];
  }

  /** One more timeframe visited from the end of `timeframes`. */
  lemma TimeframeQueriesStep(tickerRange: string, timeframes: seq<string>, j: int, adjustments: seq<string>)
    requires 0 <= j < |timeframes|
    ensures TimeframeQueries(tickerRange, Reversed(timeframes[j..]), adjustments)
            == TimeframeQueries(tickerRange, Reversed(timeframes[j + 1..]), adjustments)
               + AdjustmentQueries(tickerRange, timeframes[j], adjustments)
  {
    assert timeframes[j..][1..] == timeframes[j + 1..];
    var order := Reversed(timeframes[j + 1..]);
    assert Reversed(timeframes[j..]) == order + [timeframes[j]];
    assert (order + [timeframes[j]])[..|order|] == order;
  }

  lemma RangeQueriesStep(tickerRanges: seq<string>, i: int, order: seq<string>, adjustments: seq<string>)
    requires 0 <= i < |tickerRanges|
    ensures RangeQueries(tickerRanges[..i + 1], order, adjustments)
            == RangeQueries(tickerRanges[..i], order, adjustments)
               + TimeframeQueries(tickerRanges[i], order, adjustments)
  {
    assert tickerRanges[..i + 1][..i] == tickerRanges[..i];
  }

  /** The adjustments the filter keeps for `timeframe`, in declared order. */
  function KeptAdjustments(adjustments: seq<string>, timeframe: string): seq<string>
    decreases |adjustments|
  {
    if adjustments == [] then []
    else KeptAdjustments(adjustments[..|adjustments| - 1], timeframe)
           + (if KeepAdjustment(adjustments[|adjustments| - 1], timeframe)
              then [adjustments[|adjustments| - 1]] else [])
  }

  /** How many queries one ticker range contributes. */
  function PerRangeCount(order: seq<string>, adjustments: seq<string>): nat
    decreases |order|
  {
    if order == [] then 0
    else PerRangeCount(order[..|order| - 1], adjustments)
           + |KeptAdjustments(adjustments, order[|order| - 1])|
  }

  /** One (range, timeframe) pair yields one query per kept adjustment, in order. */
  lemma {:induction false} AdjustmentQueriesAt(tickerRange: string, timeframe: string, adjustments: seq<string>)
    ensures |AdjustmentQueries(tickerRange, timeframe, adjustments)| == |KeptAdjustments(adjustments, timeframe)|
    ensures forall k :: 0 <= k < |KeptAdjustments(adjustments, timeframe)| ==>
              AdjustmentQueries(tickerRange, timeframe, adjustments)[k]
              == Query(Some(tickerRange), timeframe, Some(KeptAdjustments(adjustments, timeframe)[k]))
    decreases |adjustments|
  {
    if adjustments != [] {
      AdjustmentQueriesAt(tickerRange, timeframe, adjustments[..|adjustments| - 1]);
    }
  }

  /** An adjustment is kept exactly when it is declared and passes the filter. */
  lemma {:induction false} KeptAdjustmentsMembership(adjustments: seq<string>, timeframe: string, a: string)
    ensures a in KeptAdjustments(adjustments, timeframe) <==> a in adjustments && KeepAdjustment(a, timeframe)
    decreases |adjustments|
  {
    if adjustments != [] {
      var init := adjustments[..|adjustments| - 1];
      KeptAdjustmentsMembership(init, timeframe, a);
      assert adjustments == init + [adjustments[|adjustments| - 1]];
    }
  }

  /** Every ticker range contributes the same number of queries. */
  lemma {:induction false} TimeframeQueriesLength(tickerRange: string, order: seq<string>, adjustments: seq<string>)
    ensures |TimeframeQueries(tickerRange, order, adjustments)| == PerRangeCount(order, adjustments)
    decreases |order|
  {
    if order != [] {
      TimeframeQueriesLength(tickerRange, order[..|order| - 1], adjustments);
      AdjustmentQueriesAt(tickerRange, order[|order| - 1], adjustments);
    }
  }

  /** |tickerRanges| blocks of equal length. */
  lemma {:induction false} RangeQueriesLength(tickerRanges: seq<string>, order: seq<string>, adjustments: seq<string>)
    ensures |RangeQueries(tickerRanges, order, adjustments)| == |tickerRanges| * PerRangeCount(order, adjustments)
    decreases |tickerRanges|
  {
    if tickerRanges != [] {
      var n := |tickerRanges| - 1;
      RangeQueriesLength(tickerRanges[..n], order, adjustments);
      TimeframeQueriesLength(tickerRanges[n], order, adjustments);
      MulSucc(n, PerRangeCount(order, adjustments));
    }
  }

  /** Block `i` of the queries is exactly those of ticker range `i`. */
  lemma {:induction false} RangeQueriesBlockAt(tickerRanges: seq<string>, order: seq<string>,
                                               adjustments: seq<string>, i: int)
    requires 0 <= i < |tickerRanges|
    ensures 0 <= i * PerRangeCount(order, adjustments)
    ensures i * PerRangeCount(order, adjustments) + PerRangeCount(order, adjustments)
            <= |RangeQueries(tickerRanges, order, adjustments)|
    ensures RangeQueries(tickerRanges, order, adjustments)
              [i * PerRangeCount(order, adjustments)..i * PerRangeCount(order, adjustments) + PerRangeCount(order, adjustments)]
            == TimeframeQueries(tickerRanges[i], order, adjustments)
    decreases |tickerRanges|
  {
    var n := |tickerRanges| - 1;
    var init := tickerRanges[..n];
    var b := PerRangeCount(order, adjustments);
    var prefix := RangeQueries(init, order, adjustments);
    var block := TimeframeQueries(tickerRanges[n], order, adjustments);
    RangeQueriesLength(init, order, adjustments);
    TimeframeQueriesLength(tickerRanges[n], order, adjustments);
    MulSucc(n, b);
    var lo := i * b;
    if i < n {
      RangeQueriesBlockAt(init, order, adjustments, i);
      MulSucc(i, b);
      MulMonotone(i + 1, n, b);
      assert (prefix + block)[lo..lo + b] == prefix[lo..lo + b];
    } else {
      assert lo == |prefix|;
      assert (prefix + block)[lo..lo + b] == block;
    }
  }

  /** The queries are one equally long block per ticker range, in the order
      of the ranges: block `i` is exactly the queries of range `i`. */
  lemma RangeQueriesBlocks(tickerRanges: seq<string>, order: seq<string>, adjustments: seq<string>)
    ensures |RangeQueries(tickerRanges, order, adjustments)| == |tickerRanges| * PerRangeCount(order, adjustments)
    ensures forall i :: 0 <= i < |tickerRanges| ==>
              0 <= i * PerRangeCount(order, adjustments)
              && i * PerRangeCount(order, adjustments) + PerRangeCount(order, adjustments)
                 <= |RangeQueries(tickerRanges, order, adjustments)|
              && RangeQueries(tickerRanges, order, adjustments)
                   [i * PerRangeCount(order, adjustments)..i * PerRangeCount(order, adjustments) + PerRangeCount(order, adjustments)]
                 == TimeframeQueries(tickerRanges[i], order, adjustments)
  {
    RangeQueriesLength(tickerRanges, order, adjustments);
    forall i | 0 <= i < |tickerRanges|
      ensures 0 <= i * PerRangeCount(order, adjustments)
              && i * PerRangeCount(order, adjustments) + PerRangeCount(order, adjustments)
                 <= |RangeQueries(tickerRanges, order, adjustments)|
              && RangeQueries(tickerRanges, order, adjustments)
                   [i * PerRangeCount(order, adjustments)..i * PerRangeCount(order, adjustments) + PerRangeCount(order, adjustments)]
                 == TimeframeQueries(tickerRanges[i], order, adjustments)
    {
      RangeQueriesBlockAt(tickerRanges, order, adjustments, i);
    }
  }

  lemma MulMonotone(x: nat, y: nat, b: nat)
    requires x <= y
    ensures x * b <= y * b
  {
  }

  lemma MulSucc(x: int, b: int)
    ensures (x + 1) * b == x * b + b
  {
  }

  /** Membership in one (range, timeframe) block. */
  lemma AdjustmentQueriesMembership(tickerRange: string, timeframe: string, adjustments: seq<string>, q: Query)
    ensures q in AdjustmentQueries(tickerRange, timeframe, adjustments) <==>
            q.tickerRange == Some(tickerRange) && q.timeframe == timeframe && q.adjustment.Some?
            && q.adjustment.value in adjustments && KeepAdjustment(q.adjustment.value, timeframe)
  {
    var qs := AdjustmentQueries(tickerRange, timeframe, adjustments);
    var kept := KeptAdjustments(adjustments, timeframe);
    AdjustmentQueriesAt(tickerRange, timeframe, adjustments);
    if q in qs {
      var k :| 0 <= k < |qs| && qs[k] == q;
      KeptAdjustmentsMembership(adjustments, timeframe, kept[k]);
    }
    if q.adjustment.Some? {
      KeptAdjustmentsMembership(adjustments, timeframe, q.adjustment.value);
      if q.tickerRange == Some(tickerRange) && q.timeframe == timeframe && q.adjustment.value in kept {
        var k :| 0 <= k < |kept| && kept[k] == q.adjustment.value;
        assert qs[k] == q;
      }
    }
  }

  /** Membership in one ticker range's block. */
  lemma {:induction false} TimeframeQueriesMembership(tickerRange: string, order: seq<string>,
                                                      adjustments: seq<string>, q: Query)
    ensures q in TimeframeQueries(tickerRange, order, adjustments) <==>
            q.tickerRange == Some(tickerRange) && q.timeframe in order && q.adjustment.Some?
            && q.adjustment.value in adjustments && KeepAdjustment(q.adjustment.value, q.timeframe)
    decreases |order|
  {
    if order != [] {
      var init := order[..|order| - 1];
      var last := order[|order| - 1];
      TimeframeQueriesMembership(tickerRange, init, adjustments, q);
      AdjustmentQueriesMembership(tickerRange, last, adjustments, q);
      assert order == init + [last];
    }
  }

  /** Membership in the whole enumeration, both directions: a query is
      visited exactly when its ticker range, timeframe and adjustment are
      declared and the filter keeps the adjustment for the timeframe. In
      particular no `UNADJUSTED` query has a timeframe other than 1min or
      1day, and every other combination is visited. */
  lemma {:induction false} RangeQueriesMembership(tickerRanges: seq<string>, order: seq<string>,
                                                  adjustments: seq<string>, q: Query)
    ensures q in RangeQueries(tickerRanges, order, adjustments) <==>
            q.tickerRange.Some? && q.tickerRange.value in tickerRanges && q.timeframe in order
            && q.adjustment.Some? && q.adjustment.value in adjustments
            && KeepAdjustment(q.adjustment.value, q.timeframe)
    decreases |tickerRanges|
  {
    if tickerRanges != [] {
      var init := tickerRanges[..|tickerRanges| - 1];
      var last := tickerRanges[|tickerRanges| - 1];
      RangeQueriesMembership(init, order, adjustments, q);
      TimeframeQueriesMembership(last, order, adjustments, q);
      assert tickerRanges == init + [last];
    }
  }

  // ---------------------------------------------------------------------
  // Futures: timeframe outer, adjustment inner, no filter
  // ---------------------------------------------------------------------

  /** The queries of one timeframe, one per adjustment, in order. */
  function ContinuousBlock(timeframe: string, adjustments: seq<string>): seq<Query>
    decreases |adjustments|
  {
    if adjustments == [] then []
    else ContinuousBlock(timeframe, adjustments[..|adjustments| - 1])
           + [Query(None, timeframe, Some(adjustments[|adjustments| - 1]))]
  }

  lemma ContinuousBlockStep(timeframe: string, adjustments: seq<string>, k: int)
    requires 0 <= k < |adjustments|
    ensures ContinuousBlock(timeframe, adjustments[..k + 1])
            == ContinuousBlock(timeframe, adjustments[..k]) + [Query(None, timeframe, Some(adjustments[k]))]
  {
    assert adjustments[..k + 1][..k] == adjustments[..k];
  }

  /** The queries of all timeframes of `order`, one block per timeframe. */
  function ContinuousQueries(order: seq<string>, adjustments: seq<string>): seq<Query>
    decreases |order|
  {
    if order == [] then []
    else ContinuousQueries(order[..|order| - 1], adjustments)
           + ContinuousBlock(order[|order| - 1], adjustments)
  }

  /** One more timeframe visited from the end of `timeframes`. */
  lemma ContinuousQueriesStep(timeframes: seq<string>, j: int, adjustments: seq<string>)
    requires 0 <= j < |timeframes|
    ensures ContinuousQueries(Reversed(timeframes[j..]), adjustments)
            == ContinuousQueries(Reversed(timeframes[j + 1..]), adjustments)
               + ContinuousBlock(timeframes[j], adjustments)
  {
    assert timeframes[j..][1..] == timeframes[j + 1..];
    var order := Reversed(timeframes[j + 1..]);
    assert Reversed(timeframes[j..]) == order + [timeframes[j]];
    assert (order + [timeframes[j]])[..|order|] == order;
  }

  lemma {:induction false} ContinuousBlockAt(timeframe: string, adjustments: seq<string>)
    ensures |ContinuousBlock(timeframe, adjustments)| == |adjustments|
    ensures forall k :: 0 <= k < |adjustments| ==>
              ContinuousBlock(timeframe, adjustments)[k] == Query(None, timeframe, Some(adjustments[k]))
    decreases |adjustments|
  {
    if adjustments != [] {
      ContinuousBlockAt(timeframe, adjustments[..|adjustments| - 1]);
    }
  }

  lemma {:induction false} ContinuousQueriesLength(order: seq<string>, adjustments: seq<string>)
    ensures |ContinuousQueries(order, adjustments)| == |order| * |adjustments|
    decreases |order|
  {
    if order != [] {
      var n := |order| - 1;
      ContinuousQueriesLength(order[..n], adjustments);
      ContinuousBlockAt(order[n], adjustments);
      MulSucc(n, |adjustments|);
    }
  }

  lemma {:induction false} ContinuousQueryAt(order: seq<string>, adjustments: seq<string>, j: int, k: int)
    requires 0 <= j < |order| && 0 <= k < |adjustments|
    ensures 0 <= j * |adjustments| + k < |ContinuousQueries(order, adjustments)|
    ensures ContinuousQueries(order, adjustments)[j * |adjustments| + k] == Query(None, order[j], Some(adjustments[k]))
    decreases |order|
  {
    var n := |order| - 1;
    var init := order[..n];
    var b := |adjustments|;
    var prefix := ContinuousQueries(init, adjustments);
    var block := ContinuousBlock(order[n], adjustments);
    ContinuousQueriesLength(init, adjustments);
    ContinuousBlockAt(order[n], adjustments);
    MulSucc(j, b);
    var p := j * b + k;
    if j < n {
      ContinuousQueryAt(init, adjustments, j, k);
      MulMonotone(j + 1, n, b);
      assert p < |prefix|;
      assert (prefix + block)[p] == prefix[p];
    } else {
      assert p == |prefix| + k;
      assert (prefix + block)[p] == block[k];
    }
  }

  /** |order| * |adjustments| queries; position `j * |adjustments| + k`
      holds timeframe `j` of `order` with adjustment `k`: timeframe outer,
      adjustment inner, nothing filtered. */
  lemma ContinuousQueriesAt(order: seq<string>, adjustments: seq<string>)
    ensures |ContinuousQueries(order, adjustments)| == |order| * |adjustments|
    ensures forall j, k :: 0 <= j < |order| && 0 <= k < |adjustments| ==>
              0 <= j * |adjustments| + k < |ContinuousQueries(order, adjustments)|
              && ContinuousQueries(order, adjustments)[j * |adjustments| + k]
                 == Query(None, order[j], Some(adjustments[k]))
  {
    var qs := ContinuousQueries(order, adjustments);
    var b := |adjustments|;
    forall j, k | 0 <= j < |order| && 0 <= k < b
      ensures 0 <= j * b + k < |qs| && qs[j * b + k] == Query(None, order[j], Some(adjustments[k]))
    {
      ContinuousQueryAt(order, adjustments, j, k);
    }
    ContinuousQueriesLength(order, adjustments);
  }

  /** Over five timeframes, the continuous blocks one after another. */
  lemma ContinuousQueriesOfFive(t0: string, t1: string, t2: string, t3: string, t4: string,
                                adjustments: seq<string>)
    ensures ContinuousQueries([t0, t1, t2, t3, t4], adjustments)
            == ContinuousBlock(t0, adjustments) + ContinuousBlock(t1, adjustments)
               + ContinuousBlock(t2, adjustments) + ContinuousBlock(t3, adjustments)
               + ContinuousBlock(t4, adjustments)
  {
    var adjs := adjustments;
    var o0: seq<string> := [];
    var o1 := o0 + [t0];
    var o2 := o1 + [t1];
    var o3 := o2 + [t2];
    var o4 := o3 + [t3];
    var o5 := o4 + [t4];
    ContinuousQueriesAppend(o0, t0, adjs);
    ContinuousQueriesAppend(o1, t1, adjs);
    ContinuousQueriesAppend(o2, t2, adjs);
    ContinuousQueriesAppend(o3, t3, adjs);
    ContinuousQueriesAppend(o4, t4, adjs);
    assert o5 == [t0, t1, t2, t3, t4];
  }

  lemma ContinuousQueriesAppend(order: seq<string>, timeframe: string, adjustments: seq<string>)
    ensures ContinuousQueries(order + [timeframe], adjustments)
            == ContinuousQueries(order, adjustments) + ContinuousBlock(timeframe, adjustments)
  {
    assert (order + [timeframe])[..|order|] == order;
  }
}
