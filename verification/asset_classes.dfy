/** The six parameter classes of firstratedata/download_via_api.py (Index,
    ETF, Forex, Stock, Futures, Crypto). Each holds constant tables set in
    `__init__`; which tables a class has decides the shape of its
    `hist_urls` loops, so the tables are a `Params` value with one variant
    per shape. */
module AssetClasses {
  import opened Text
  import opened Queries
  import opened Urls

  datatype AssetClass = Index | ETF | Forex | Stock | Futures | Crypto

  /** The attributes `__init__` sets. */
  datatype Params =
    | Plain(api: string, period: string, timeframes: seq<string>)
    | Ranged(api: string, period: string, tickerRanges: seq<string>, timeframes: seq<string>,
             adjustments: seq<string>, metafileTypes: seq<string>)
    | Continuous(api: string, period: string, timeframes: seq<string>, adjustments: seq<string>,
                 metafileTimeframes: seq<string>)

  /** The classes in the order the download driver visits them. */
  const AllClasses := [Index, ETF, Forex, Stock, Futures, Crypto]

  const Period := "full"
  /** Declared finest first; every loop visits them coarsest first. */
  const Timeframes := ["1min", "5min", "30min", "1hour", "1day"]
  /** `string.ascii_uppercase`. */
  const AsciiUppercase := "ABCDEFGHIJKLMNOPQRSTUVWXYZ"
  const EquityAdjustments := ["adj_split", "adj_splitdiv", "UNADJUSTED"]
  const EquityMetafileTypes := ["splits", "dividends"]
  /** The first token keeps the vendor's trailing space. */
  const FuturesAdjustments := ["contin_adj ", "contin_UNadj"]
  const FuturesMetafileTimeframes := ["1min", "1day"]
  /** The two delisted-ticker archives `Stock.metafiles` starts from. */
  const DelistedArchives := [
    "https://f004.backblazeb2.com/file/frd-api/delisted_tickers_A-L_78jghsE.zip",
    "https://f004.backblazeb2.com/file/frd-api/delisted_tickers_M-Z_8jfu6Yh.zip"
  ]

  /** `list(s)` on a string: one single-character string per character. */
  function Letters(s: string): (r: seq<string>)
    ensures |r| == |s|
    ensures forall i :: 0 <= i < |s| ==> r[i] == [s[i]]
  {
    seq(|s|, i requires 0 <= i < |s| => [s[i]])
  }

  /** The API code of a class (its `api` attribute). */
  function Api(ac: AssetClass): string
  {
    match ac
    case Index => "index"
    case ETF => "etf"
    case Forex => "fx"
    case Stock => "stock"
    case Futures => "futures"
    case Crypto => "crypto"
  }

  /** `__init__` of each class. */
  function Init(ac: AssetClass): (p: Params)
    ensures p.api == Api(ac) && p.period == "full" && p.timeframes == Timeframes
    ensures p.Plain? <==> (ac == Index || ac == Forex || ac == Crypto)
    ensures p.Ranged? <==> (ac == ETF || ac == Stock)
    ensures p.Ranged? ==> |p.tickerRanges| == 26
                          && (forall i :: 0 <= i < 26 ==> p.tickerRanges[i] == [AsciiUppercase[i]])
                          && p.adjustments == EquityAdjustments
                          && p.metafileTypes == ["splits", "dividends"]
    ensures p.Continuous? ==> p.adjustments == FuturesAdjustments
                              && p.metafileTimeframes == ["1min", "1day"]
  {
    match ac
    case Index => Plain("index", Period, Timeframes)
    case ETF => Ranged("etf", Period, Letters(AsciiUppercase), Timeframes, EquityAdjustments,
                       EquityMetafileTypes)
    case Forex => Plain("fx", Period, Timeframes)
    case Stock => Ranged("stock", Period, Letters(AsciiUppercase), Timeframes, EquityAdjustments,
                         EquityMetafileTypes)
    case Futures => Continuous("futures", Period, Timeframes, FuturesAdjustments,
                               FuturesMetafileTimeframes)
    case Crypto => Plain("crypto", Period, Timeframes)
  }

  // ---------------------------------------------------------------------
  // hist_urls
  // ---------------------------------------------------------------------

  /** The queries `hist_urls` visits, by the shape of the class. They do not
      depend on the user id. */
  function HistQueries(ac: AssetClass): seq<Query>
  {
    match Init(ac)
    case Plain(_, _, timeframes) =>
      PlainQueries(Reversed(timeframes))
    case Ranged(_, _, tickerRanges, timeframes, adjustments, _) =>
      RangeQueries(tickerRanges, Reversed(timeframes), adjustments)
    case Continuous(_, _, timeframes, adjustments, _) =>
      ContinuousQueries(Reversed(timeframes), adjustments)
  }

  /** What `hist_urls(uid)` returns. */
  function HistUrlsOf(ac: AssetClass, uid: string): seq<string>
  {
    Render(Api(ac), Period, HistQueries(ac), uid)
  }

  /** The number of data files of each class. */
  function HistUrlCount(ac: AssetClass): nat
  {
    match ac
    case Index => 5
    case Forex => 5
    case Crypto => 5
    case ETF => 312
    case Stock => 312
    case Futures => 10
  }

  /** `hist_urls(uid)` of every class: the loops of its shape, run on its
      tables; 5 URLs for Index, Forex and Crypto, 312 for ETF and Stock, 10
      for Futures. */
  method HistUrls(ac: AssetClass, uid: string) returns (urls: seq<string>)
    ensures urls == HistUrlsOf(ac, uid)
    ensures |urls| == HistUrlCount(ac)
  {
    var p := Init(ac);
    match p {
      case Plain(api, period, timeframes) =>
        urls := EnumeratePlain(api, period, timeframes, uid);
      case Ranged(api, period, tickerRanges, timeframes, adjustments, _) =>
        urls := EnumerateRanged(api, period, tickerRanges, timeframes, adjustments, uid);
      case Continuous(api, period, timeframes, adjustments, _) =>
        urls := EnumerateContinuous(api, period, timeframes, adjustments, uid);
    }
    HistQueryCounts(ac);
  }

  // ---------------------------------------------------------------------
  // The tables, evaluated
  // ---------------------------------------------------------------------

  /** The order every `hist_urls` loop visits the timeframes in. */
  const VisitOrder := ["1day", "1hour", "30min", "5min", "1min"]

  /** `reversed(self.timeframes)` visits 1day, 1hour, 30min, 5min, 1min. */
  lemma ReversedTimeframes()
    ensures Reversed(Timeframes) == VisitOrder
  {
    forall k | 0 <= k < 5
      ensures Reversed(Timeframes)[k] == VisitOrder[k]
    {
      ReversedAt(Timeframes, k);
    }
  }

  /** Index, Forex and Crypto: exactly five queries, 1day first and 1min
      last, none with a ticker range or an adjustment. */
  lemma PlainHistQueries(ac: AssetClass)
    requires ac == Index || ac == Forex || ac == Crypto
    ensures HistQueries(ac)
            == [Query(None, "1day", None), Query(None, "1hour", None), Query(None, "30min", None),
                Query(None, "5min", None), Query(None, "1min", None)]
  {
    ReversedTimeframes();
    PlainQueriesAt(VisitOrder);
  }

  /** With the equity adjustments, a (range, timeframe) pair yields adj_split,
      adj_splitdiv and, for 1min and 1day only, UNADJUSTED. */
  lemma EquityAdjustmentQueries(r: string, timeframe: string)
    ensures AdjustmentQueries(r, timeframe, EquityAdjustments)
            == [Query(Some(r), timeframe, Some("adj_split")), Query(Some(r), timeframe, Some("adj_splitdiv"))]
               + (if timeframe in UnadjustedTimeframes then [Query(Some(r), timeframe, Some("UNADJUSTED"))] else [])
  {
    AdjustmentQueriesStep(r, timeframe, EquityAdjustments, 0);
    AdjustmentQueriesStep(r, timeframe, EquityAdjustments, 1);
    AdjustmentQueriesStep(r, timeframe, EquityAdjustments, 2);
    assert EquityAdjustments[..0] == [];
    assert EquityAdjustments[..3] == EquityAdjustments;
  }

  /** The twelve queries of one ticker range of ETF or Stock, in order: for
      each timeframe from 1day down to 1min, adj_split and adj_splitdiv, with
      UNADJUSTED after them for 1day and 1min only. */
  function EquityRangeQueries(r: string): seq<Query>
  {
    [Query(Some(r), "1day", Some("adj_split")), Query(Some(r), "1day", Some("adj_splitdiv")),
     Query(Some(r), "1day", Some("UNADJUSTED")),
     Query(Some(r), "1hour", Some("adj_split")), Query(Some(r), "1hour", Some("adj_splitdiv")),
     Query(Some(r), "30min", Some("adj_split")), Query(Some(r), "30min", Some("adj_splitdiv")),
     Query(Some(r), "5min", Some("adj_split")), Query(Some(r), "5min", Some("adj_splitdiv")),
     Query(Some(r), "1min", Some("adj_split")), Query(Some(r), "1min", Some("adj_splitdiv")),
     Query(Some(r), "1min", Some("UNADJUSTED"))]
  }

  /** One ticker range of ETF or Stock yields exactly `EquityRangeQueries`,
      so every range contributes twelve. */
  lemma EquityTimeframeQueries(r: string)
    ensures TimeframeQueries(r, VisitOrder, EquityAdjustments) == EquityRangeQueries(r)
    ensures PerRangeCount(VisitOrder, EquityAdjustments) == 12
  {
    assert "1hour" !in UnadjustedTimeframes && "30min" !in UnadjustedTimeframes;
    assert "5min" !in UnadjustedTimeframes;
    FilteredTimeframes(r, "1day", "1hour", "30min", "5min", "1min");
    TimeframeQueriesLength(r, VisitOrder, EquityAdjustments);
  }

  /** The equity adjustments over five timeframes of which the first and the
      last keep UNADJUSTED: 3 + 2 + 2 + 2 + 3 queries. */
  lemma FilteredTimeframes(r: string, t0: string, t1: string, t2: string, t3: string, t4: string)
    requires t0 in UnadjustedTimeframes && t4 in UnadjustedTimeframes
    requires t1 !in UnadjustedTimeframes && t2 !in UnadjustedTimeframes && t3 !in UnadjustedTimeframes
    ensures TimeframeQueries(r, [t0, t1, t2, t3, t4], EquityAdjustments)
            == [Query(Some(r), t0, Some("adj_split")), Query(Some(r), t0, Some("adj_splitdiv")),
                Query(Some(r), t0, Some("UNADJUSTED")),
                Query(Some(r), t1, Some("adj_split")), Query(Some(r), t1, Some("adj_splitdiv")),
                Query(Some(r), t2, Some("adj_split")), Query(Some(r), t2, Some("adj_splitdiv")),
                Query(Some(r), t3, Some("adj_split")), Query(Some(r), t3, Some("adj_splitdiv")),
                Query(Some(r), t4, Some("adj_split")), Query(Some(r), t4, Some("adj_splitdiv")),
                Query(Some(r), t4, Some("UNADJUSTED"))]
  {
    TimeframeQueriesOfFive(r, t0, t1, t2, t3, t4, EquityAdjustments);
    EquityAdjustmentQueries(r, t0);
    EquityAdjustmentQueries(r, t1);
    EquityAdjustmentQueries(r, t2);
    EquityAdjustmentQueries(r, t3);
    EquityAdjustmentQueries(r, t4);
  }

  /** With the equity tables, any list of ticker ranges yields twelve
      queries per range, block `i` being `EquityRangeQueries` of range `i`. */
  lemma EquityRangeBlocks(ranges: seq<string>)
    ensures |RangeQueries(ranges, VisitOrder, EquityAdjustments)| == 12 * |ranges|
    ensures forall i :: 0 <= i < |ranges| ==>
              0 <= 12 * i && 12 * i + 12 <= |RangeQueries(ranges, VisitOrder, EquityAdjustments)|
              && RangeQueries(ranges, VisitOrder, EquityAdjustments)[12 * i..12 * i + 12]
                 == EquityRangeQueries(ranges[i])
  {
    var b := PerRangeCount(VisitOrder, EquityAdjustments);
    EquityTimeframeQueries("");
    assert b == 12;
    RangeQueriesLength(ranges, VisitOrder, EquityAdjustments);
    forall i | 0 <= i < |ranges|
      ensures 0 <= 12 * i && 12 * i + 12 <= |RangeQueries(ranges, VisitOrder, EquityAdjustments)|
              && RangeQueries(ranges, VisitOrder, EquityAdjustments)[12 * i..12 * i + 12]
                 == EquityRangeQueries(ranges[i])
    {
      RangeQueriesBlockAt(ranges, VisitOrder, EquityAdjustments, i);
      EquityTimeframeQueries(ranges[i]);
      assert i * b == 12 * i;
    }
  }

  /** ETF and Stock: 26 * 12 = 312 queries; block `i` (positions 12 * i to
      12 * i + 11) is `EquityRangeQueries` of the `i`-th letter of A..Z. */
  lemma RangedHistQueries(ac: AssetClass)
    requires ac == ETF || ac == Stock
    ensures |HistQueries(ac)| == 312
    ensures forall i :: 0 <= i < 26 ==>
              HistQueries(ac)[12 * i..12 * i + 12] == EquityRangeQueries([AsciiUppercase[i]])
  {
    var ranges := Letters(AsciiUppercase);
    ReversedTimeframes();
    assert HistQueries(ac) == RangeQueries(ranges, VisitOrder, EquityAdjustments);
    EquityRangeBlocks(ranges);
  }

  /** Futures: ten queries, timeframes 1day down to 1min, each with
      `contin_adj ` (trailing space kept) and then `contin_UNadj`, none with a
      ticker range. */
  lemma FuturesHistQueries()
    ensures HistQueries(Futures) == FuturesQueries
  {
    ReversedTimeframes();
    assert HistQueries(Futures) == ContinuousQueries(VisitOrder, FuturesAdjustments);
    FuturesTimeframes("1day", "1hour", "30min", "5min", "1min");
  }

  /** The Futures adjustments over five timeframes: two queries each. */
  lemma FuturesTimeframes(t0: string, t1: string, t2: string, t3: string, t4: string)
    ensures ContinuousQueries([t0, t1, t2, t3, t4], FuturesAdjustments)
            == [Query(None, t0, Some("contin_adj ")), Query(None, t0, Some("contin_UNadj")),
                Query(None, t1, Some("contin_adj ")), Query(None, t1, Some("contin_UNadj")),
                Query(None, t2, Some("contin_adj ")), Query(None, t2, Some("contin_UNadj")),
                Query(None, t3, Some("contin_adj ")), Query(None, t3, Some("contin_UNadj")),
                Query(None, t4, Some("contin_adj ")), Query(None, t4, Some("contin_UNadj"))]
  {
    ContinuousQueriesOfFive(t0, t1, t2, t3, t4, FuturesAdjustments);
    FuturesBlock(t0);
    FuturesBlock(t1);
    FuturesBlock(t2);
    FuturesBlock(t3);
    FuturesBlock(t4);
  }

  /** One Futures timeframe gives `contin_adj ` then `contin_UNadj`. */
  lemma FuturesBlock(timeframe: string)
    ensures ContinuousBlock(timeframe, FuturesAdjustments)
            == [Query(None, timeframe, Some("contin_adj ")), Query(None, timeframe, Some("contin_UNadj"))]
  {
    ContinuousBlockStep(timeframe, FuturesAdjustments, 0);
    ContinuousBlockStep(timeframe, FuturesAdjustments, 1);
    assert FuturesAdjustments[..0] == [];
    assert FuturesAdjustments[..2] == FuturesAdjustments;
  }

  /** The ten Futures queries in order. */
  const FuturesQueries := [
    Query(None, "1day", Some("contin_adj ")), Query(None, "1day", Some("contin_UNadj")),
    Query(None, "1hour", Some("contin_adj ")), Query(None, "1hour", Some("contin_UNadj")),
    Query(None, "30min", Some("contin_adj ")), Query(None, "30min", Some("contin_UNadj")),
    Query(None, "5min", Some("contin_adj ")), Query(None, "5min", Some("contin_UNadj")),
    Query(None, "1min", Some("contin_adj ")), Query(None, "1min", Some("contin_UNadj"))
  ]

  /** The counts 5, 312 and 10. */
  lemma HistQueryCounts(ac: AssetClass)
    ensures |HistQueries(ac)| == HistUrlCount(ac)
  {
    match ac
    case Index => PlainHistQueries(ac);
    case Forex => PlainHistQueries(ac);
    case Crypto => PlainHistQueries(ac);
    case ETF => RangedHistQueries(ac);
    case Stock => RangedHistQueries(ac);
    case Futures => FuturesHistQueries();
  }

  /** Every query of ETF and Stock combines a letter A..Z, a declared
      timeframe and a declared adjustment, with UNADJUSTED only for 1min and
      1day; and every such combination is there. */
  lemma RangedHistQueriesMembership(ac: AssetClass, q: Query)
    requires ac == ETF || ac == Stock
    ensures q in HistQueries(ac) <==>
            q.tickerRange.Some? && q.tickerRange.value in Letters(AsciiUppercase)
            && q.timeframe in Timeframes
            && q.adjustment.Some? && q.adjustment.value in EquityAdjustments
            && (q.adjustment.value == "UNADJUSTED" ==> q.timeframe == "1min" || q.timeframe == "1day")
  {
    ReversedTimeframes();
    HistQueriesRanged(ac);
    RangeQueriesMembership(Letters(AsciiUppercase), VisitOrder, EquityAdjustments, q);
    VisitOrderMembers(q.timeframe);
    if q.adjustment.Some? {
      UnadjustedFilter(q.adjustment.value, q.timeframe);
    }
  }

  lemma HistQueriesRanged(ac: AssetClass)
    requires ac == ETF || ac == Stock
    requires Reversed(Timeframes) == VisitOrder
    ensures HistQueries(ac) == RangeQueries(Letters(AsciiUppercase), VisitOrder, EquityAdjustments)
  {
  }

  /** The timeframes visited are the declared ones. */
  lemma VisitOrderMembers(t: string)
    ensures t in VisitOrder <==> t in Timeframes
  {
  }

  /** The filter in words: UNADJUSTED only for 1min and 1day. */
  lemma UnadjustedFilter(adjustment: string, timeframe: string)
    ensures KeepAdjustment(adjustment, timeframe)
            <==> (adjustment == "UNADJUSTED" ==> timeframe == "1min" || timeframe == "1day")
  {
  }

  // ---------------------------------------------------------------------
  // Metadata files, tickers and readme
  // ---------------------------------------------------------------------

  /** What `metafiles(uid)` returns; `None` for the classes without the method. */
  function MetafilesOf(ac: AssetClass, uid: string): Option<seq<string>>
  {
    match Init(ac)
    case Plain(_, _, _) => None
    case Ranged(api, _, _, _, _, metafileTypes) =>
      var initial := if ac == Stock then DelistedArchives else [];
      Some(initial + MetaFileUrls(api, metafileTypes, uid))
    case Continuous(_, _, _, _, metafileTimeframes) =>
      Some(FuturesContractUrls(metafileTimeframes, uid))
  }

  /** `metafiles(uid)`, for the classes that define it (the `hasattr` test
      of the driver). */
  method Metafiles(ac: AssetClass, uid: string) returns (metas: Option<seq<string>>)
    ensures metas == MetafilesOf(ac, uid)
    ensures metas.Some? <==> (ac == ETF || ac == Stock || ac == Futures)
  {
    var p := Init(ac);
    match p {
      case Plain(_, _, _) =>
        metas := None;
      case Ranged(api, _, _, _, _, metafileTypes) =>
        var initial := if ac == Stock then DelistedArchives else [];
        var urls := AppendMetaFileUrls(initial, api, metafileTypes, uid);
        metas := Some(urls);
      case Continuous(_, _, _, _, metafileTimeframes) =>
        var urls := EnumerateFuturesContracts(metafileTimeframes, uid);
        metas := Some(urls);
    }
  }

  /** ETF: splits then dividends (two files). */
  lemma EtfMetafiles(uid: string)
    ensures MetafilesOf(ETF, uid)
            == Some([MetaFileUrl("etf", "splits", uid), MetaFileUrl("etf", "dividends", uid)])
  {
    var urls := MetaFileUrls("etf", ["splits", "dividends"], uid);
    assert MetafilesOf(ETF, uid) == Some([] + urls);
    MetaFileUrlsAt("etf", ["splits", "dividends"], uid);
    assert [] + urls == [urls[0], urls[1]];
  }

  /** Stock: the two archive URLs, unchanged and the same for every `uid`,
      then splits and dividends (four files). */
  lemma StockMetafiles(uid: string)
    ensures MetafilesOf(Stock, uid)
            == Some(DelistedArchives + [MetaFileUrl("stock", "splits", uid), MetaFileUrl("stock", "dividends", uid)])
  {
    var urls := MetaFileUrls("stock", ["splits", "dividends"], uid);
    assert MetafilesOf(Stock, uid) == Some(DelistedArchives + urls);
    MetaFileUrlsAt("stock", ["splits", "dividends"], uid);
    assert urls == [urls[0], urls[1]];
  }

  /** Futures: contract archives for 1min then 1day (two files); Index,
      Forex and Crypto have no `metafiles`. */
  lemma OtherMetafiles(uid: string)
    ensures MetafilesOf(Futures, uid)
            == Some([FuturesContractUrl("1min", uid), FuturesContractUrl("1day", uid)])
    ensures MetafilesOf(Index, uid) == MetafilesOf(Forex, uid) == MetafilesOf(Crypto, uid) == None
  {
    var urls := FuturesContractUrls(["1min", "1day"], uid);
    assert MetafilesOf(Futures, uid) == Some(urls);
    FuturesContractUrlsAt(["1min", "1day"], uid);
    assert urls == [urls[0], urls[1]];
  }

  const TickerFilesBase := "https://firstratedata.com/api_ticker_files/"
  const ReadmeBase := "https://firstratedata.com/_readme/"

  /** `tickers()`: the class's ticker listing; the six literals of the
      classes are this layout around the API code. */
  function Tickers(ac: AssetClass): string
  {
    TickerFilesBase + Api(ac) + "_ticker_dates_listing.txt"
  }

  /** `readme()`: the class's readme, likewise. */
  function Readme(ac: AssetClass): string
  {
    ReadmeBase + Api(ac) + ".txt"
  }

  /** Both constant URLs of every class contain its API code and end in `.txt`. */
  lemma TickersAndReadmeNameTheClass(ac: AssetClass)
    ensures IsSubstring(Api(ac), Tickers(ac)) && LastFour(Tickers(ac)) == ".txt"
    ensures IsSubstring(Api(ac), Readme(ac)) && LastFour(Readme(ac)) == ".txt"
  {
    SubstringOfConcat(TickerFilesBase, Api(ac), "_ticker_dates_listing.txt");
    SubstringOfConcat(ReadmeBase, Api(ac), ".txt");
    LastFourOfConcat(TickerFilesBase + Api(ac), "_ticker_dates_listing.txt");
    LastFourOfConcat(ReadmeBase + Api(ac), ".txt");
  }
}
