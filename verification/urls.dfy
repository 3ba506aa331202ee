/** The URLs firstratedata/download_via_api.py requests, and the loops of
    `hist_urls` and `metafiles` that build them. Each `hist_urls` loop is a
    method proved to produce the rendering of a query sequence of module
    Queries, so the lemmas about which files are requested never unfold a
    URL string. */
module Urls {
  import opened Text
  import opened Queries

  const DataFileEndpoint := "https://firstratedata.com/api/data_file?"
  const MetaFileEndpoint := "https://firstratedata.com/api/meta_file?"
  const FuturesContractEndpoint := "https://firstratedata.com/api/futures_contract?"

  /** Historical data-file URL. The three f-string layouts of the classes
      (plain, with ticker range and adjustment, with adjustment only) are
      this one layout with the absent parts left out. */
  function DataFileUrl(api: string, period: string, q: Query, uid: string): string
  {
    DataFileEndpoint + "type=" + api + "&period=" + period
      + (if q.tickerRange.Some? then "&ticker_range=" + q.tickerRange.value else "")
      + "&timeframe=" + q.timeframe
      + (if q.adjustment.Some? then "&adjustment=" + q.adjustment.value else "")
      + "&userid=" + uid
  }

  /** Metadata URL (splits, dividends). */
  function MetaFileUrl(api: string, metafileType: string, uid: string): string
  {
    MetaFileEndpoint + "type=" + api + "&metafile_type=" + metafileType + "&userid=" + uid
  }

  /** Futures contract archive URL. */
  function FuturesContractUrl(timeframe: string, uid: string): string
  {
    FuturesContractEndpoint + "contract_files=archive" + "&timeframe=" + timeframe
      + "&userid=" + uid
  }

  /** Every API URL the enumerator builds ends with the user id parameter. */
  lemma ApiUrlsEndWithUserId(api: string, period: string, q: Query, metafile: string, uid: string)
    ensures EndsWith(DataFileUrl(api, period, q, uid), "&userid=" + uid)
    ensures EndsWith(MetaFileUrl(api, metafile, uid), "&userid=" + uid)
    ensures EndsWith(FuturesContractUrl(metafile, uid), "&userid=" + uid)
  {
    var tail := "&userid=" + uid;
    var d := DataFileUrl(api, period, q, uid);
    assert d == d[..|d| - |tail|] + tail;
    var m := MetaFileUrl(api, metafile, uid);
    assert m == m[..|m| - |tail|] + tail;
    var f := FuturesContractUrl(metafile, uid);
    assert f == f[..|f| - |tail|] + tail;
  }

  /** The data-file URLs of a query sequence, in the same order. */
  function Render(api: string, period: string, qs: seq<Query>, uid: string): seq<string>
  {
    seq(|qs|, i requires 0 <= i < |qs| => DataFileUrl(api, period, qs[i], uid))
  }

  /** Rendering distributes over concatenation: appending the URLs of a loop
      iteration is rendering the queries of that iteration. */
  lemma RenderAppend(api: string, period: string, a: seq<Query>, b: seq<Query>, uid: string)
    ensures Render(api, period, a + b, uid) == Render(api, period, a, uid) + Render(api, period, b, uid)
  {
    var l := Render(api, period, a + b, uid);
    var r := Render(api, period, a, uid) + Render(api, period, b, uid);
    assert |l| == |r|;
    forall i | 0 <= i < |l| ensures l[i] == r[i] {
      if i < |a| {
        assert (a + b)[i] == a[i];
      } else {
        assert (a + b)[i] == b[i - |a|];
      }
    }
  }

  // ---------------------------------------------------------------------
  // Classes without ticker ranges: Index, Forex, Crypto
  // ---------------------------------------------------------------------

  /** `hist_urls` of Index, Forex and Crypto: one URL per timeframe, visiting
      the declared timeframes from last to first; position `j` holds
      timeframe `|timeframes| - 1 - j`. */
  method EnumeratePlain(api: string, period: string, timeframes: seq<string>, uid: string)
    returns (result: seq<string>)
    ensures result == Render(api, period, PlainQueries(Reversed(timeframes)), uid)
    ensures |result| == |timeframes|
    ensures forall j :: 0 <= j < |result| ==>
              result[j] == DataFileUrl(api, period, Query(None, timeframes[|timeframes| - 1 - j], None), uid)
  {
    result := [];
    for j := |timeframes| downto 0
      invariant result == Render(api, period, PlainQueries(Reversed(timeframes[j..])), uid)
    {
      var timeframe := timeframes[j];
      result := result + [DataFileUrl(api, period, Query(None, timeframe, None), uid)];
      PlainQueriesStep(timeframes, j);
      RenderAppend(api, period, PlainQueries(Reversed(timeframes[j + 1..])), [Query(None, timeframe, None)], uid);
    }
    assert timeframes[0..] == timeframes;
    PlainQueriesAt(Reversed(timeframes));
    forall j | 0 <= j < |timeframes| ensures Reversed(timeframes)[j] == timeframes[|timeframes| - 1 - j] {
      ReversedAt(timeframes, j);
    }
  }

  // ---------------------------------------------------------------------
  // Classes with ticker ranges and adjustments: ETF, Stock
  // ---------------------------------------------------------------------

  /** `hist_urls` of ETF and Stock: ticker ranges outermost, then timeframes
      from last declared to first, then adjustments in declared order,
      dropping `UNADJUSTED` except for 1min and 1day. */
  method EnumerateRanged(api: string, period: string, tickerRanges: seq<string>,
                         timeframes: seq<string>, adjustments: seq<string>, uid: string)
    returns (result: seq<string>)
    ensures result == Render(api, period, RangeQueries(tickerRanges, Reversed(timeframes), adjustments), uid)
  {
    result := [];
    for i := 0 to |tickerRanges|
      invariant result == Render(api, period, RangeQueries(tickerRanges[..i], Reversed(timeframes), adjustments), uid)
    {
      var tickerRange := tickerRanges[i];
      result := AppendTickerRange(result, api, period, tickerRange, timeframes, adjustments, uid);
      RangeQueriesStep(tickerRanges, i, Reversed(timeframes), adjustments);
      RenderAppend(api, period, RangeQueries(tickerRanges[..i], Reversed(timeframes), adjustments),
                   TimeframeQueries(tickerRange, Reversed(timeframes), adjustments), uid);
    }
    assert tickerRanges[..|tickerRanges|] == tickerRanges;
  }

  /** The body of the ticker-range loop of `EnumerateRanged`: appends the URLs
      of one ticker range to `prefix`. */
  method AppendTickerRange(prefix: seq<string>, api: string, period: string, tickerRange: string,
                           timeframes: seq<string>, adjustments: seq<string>, uid: string)
    returns (result: seq<string>)
    ensures result == prefix + Render(api, period, TimeframeQueries(tickerRange, Reversed(timeframes), adjustments), uid)
  {
    result := prefix;
    for j := |timeframes| downto 0
      invariant result == prefix
                          + Render(api, period, TimeframeQueries(tickerRange, Reversed(timeframes[j..]), adjustments), uid)
    {
      var timeframe := timeframes[j];
      ghost var done := TimeframeQueries(tickerRange, Reversed(timeframes[j + 1..]), adjustments);
      for k := 0 to |adjustments|
        invariant result == prefix
                            + Render(api, period, done + AdjustmentQueries(tickerRange, timeframe, adjustments[..k]), uid)
      {
        var adj := adjustments[k];
        ghost var before := done + AdjustmentQueries(tickerRange, timeframe, adjustments[..k]);
        ghost var added := if KeepAdjustment(adj, timeframe) then [Query(Some(tickerRange), timeframe, Some(adj))] else [];
        RenderAppend(api, period, before, added, uid);
        AdjustmentQueriesStep(tickerRange, timeframe, adjustments, k);
        assert before + added == done + AdjustmentQueries(tickerRange, timeframe, adjustments[..k + 1]);
        if adj == Unadjusted {
          if timeframe in UnadjustedTimeframes {
            result := result + [DataFileUrl(api, period, Query(Some(tickerRange), timeframe, Some(adj)), uid)];
          }
        } else {
          result := result + [DataFileUrl(api, period, Query(Some(tickerRange), timeframe, Some(adj)), uid)];
        }
      }
      assert adjustments[..|adjustments|] == adjustments;
      TimeframeQueriesStep(tickerRange, timeframes, j, adjustments);
    }
    assert timeframes[0..] == timeframes;
  }

  // ---------------------------------------------------------------------
  // Futures
  // ---------------------------------------------------------------------

  /** `hist_urls` of Futures: timeframes from last declared to first, every
      adjustment for each, no filter. */
  method EnumerateContinuous(api: string, period: string, timeframes: seq<string>,
                             adjustments: seq<string>, uid: string)
    returns (result: seq<string>)
    ensures result == Render(api, period, ContinuousQueries(Reversed(timeframes), adjustments), uid)
  {
    result := [];
    for j := |timeframes| downto 0
      invariant result == Render(api, period, ContinuousQueries(Reversed(timeframes[j..]), adjustments), uid)
    {
      var timeframe := timeframes[j];
      ghost var done := ContinuousQueries(Reversed(timeframes[j + 1..]), adjustments);
      for k := 0 to |adjustments|
        invariant result == Render(api, period, done + ContinuousBlock(timeframe, adjustments[..k]), uid)
      {
        var adj := adjustments[k];
        ghost var before := done + ContinuousBlock(timeframe, adjustments[..k]);
        RenderAppend(api, period, before, [Query(None, timeframe, Some(adj))], uid);
        ContinuousBlockStep(timeframe, adjustments, k);
        result := result + [DataFileUrl(api, period, Query(None, timeframe, Some(adj)), uid)];
      }
      assert adjustments[..|adjustments|] == adjustments;
      ContinuousQueriesStep(timeframes, j, adjustments);
    }
    assert timeframes[0..] == timeframes;
  }

  // ---------------------------------------------------------------------
  // Metadata files
  // ---------------------------------------------------------------------

  /** The metadata URLs for the metafile types, in order. */
  function MetaFileUrls(api: string, metafileTypes: seq<string>, uid: string): seq<string>
    decreases |metafileTypes|
  {
    if metafileTypes == [] then []
    else MetaFileUrls(api, metafileTypes[..|metafileTypes| - 1], uid)
           + [MetaFileUrl(api, metafileTypes[|metafileTypes| - 1], uid)]
  }

  /** One metadata URL per type, the `i`-th for the `i`-th type. */
  lemma {:induction false} MetaFileUrlsAt(api: string, metafileTypes: seq<string>, uid: string)
    ensures |MetaFileUrls(api, metafileTypes, uid)| == |metafileTypes|
    ensures forall i :: 0 <= i < |metafileTypes| ==>
              MetaFileUrls(api, metafileTypes, uid)[i] == MetaFileUrl(api, metafileTypes[i], uid)
    decreases |metafileTypes|
  {
    if metafileTypes != [] {
      MetaFileUrlsAt(api, metafileTypes[..|metafileTypes| - 1], uid);
    }
  }

  /** `metafiles` of ETF (from `[]`) and of Stock (from its two archive URLs):
      appends one metadata URL per type to `initial`, leaving `initial` as it was. */
  method AppendMetaFileUrls(initial: seq<string>, api: string, metafileTypes: seq<string>, uid: string)
    returns (result: seq<string>)
    ensures result == initial + MetaFileUrls(api, metafileTypes, uid)
    ensures |result| == |initial| + |metafileTypes|
    ensures result[..|initial|] == initial
    ensures forall i :: 0 <= i < |metafileTypes| ==>
              result[|initial| + i] == MetaFileUrl(api, metafileTypes[i], uid)
  {
    result := initial;
    for i := 0 to |metafileTypes|
      invariant result == initial + MetaFileUrls(api, metafileTypes[..i], uid)
    {
      var metafile := metafileTypes[i];
      result := result + [MetaFileUrl(api, metafile, uid)];
      assert metafileTypes[..i + 1][..i] == metafileTypes[..i];
    }
    assert metafileTypes[..|metafileTypes|] == metafileTypes;
    MetaFileUrlsAt(api, metafileTypes, uid);
  }

  /** The futures contract URLs for the metafile timeframes, in order. */
  function FuturesContractUrls(timeframes: seq<string>, uid: string): seq<string>
    decreases |timeframes|
  {
    if timeframes == [] then []
    else FuturesContractUrls(timeframes[..|timeframes| - 1], uid)
           + [FuturesContractUrl(timeframes[|timeframes| - 1], uid)]
  }

  /** One contract archive URL per timeframe, the `i`-th for the `i`-th. */
  lemma {:induction false} FuturesContractUrlsAt(timeframes: seq<string>, uid: string)
    ensures |FuturesContractUrls(timeframes, uid)| == |timeframes|
    ensures forall i :: 0 <= i < |timeframes| ==>
              FuturesContractUrls(timeframes, uid)[i] == FuturesContractUrl(timeframes[i], uid)
    decreases |timeframes|
  {
    if timeframes != [] {
      FuturesContractUrlsAt(timeframes[..|timeframes| - 1], uid);
    }
  }

  /** `metafiles` of Futures: one contract archive URL per metafile
      timeframe, in declared order. */
  method EnumerateFuturesContracts(timeframes: seq<string>, uid: string) returns (result: seq<string>)
    ensures result == FuturesContractUrls(timeframes, uid)
    ensures |result| == |timeframes|
    ensures forall i :: 0 <= i < |timeframes| ==> result[i] == FuturesContractUrl(timeframes[i], uid)
  {
    result := [];
    for i := 0 to |timeframes|
      invariant result == FuturesContractUrls(timeframes[..i], uid)
    {
      var metaTimeframe := timeframes[i];
      result := result + [FuturesContractUrl(metaTimeframe, uid)];
      assert timeframes[..i + 1][..i] == timeframes[..i];
    }
    assert timeframes[..|timeframes|] == timeframes;
    FuturesContractUrlsAt(timeframes, uid);
  }
}
