# firstratedata URL enumerator, in Dafny

A model of the request enumerator in `firstratedata/download_via_api.py`.

The file downloads FirstRateData market data for six asset classes: Index, ETF, Forex, Stock, Futures and Crypto. Each Python class holds constant tables set in `__init__`: an API code, a period, timeframes, and, depending on the class, ticker ranges, adjustments and metafile types. Its methods build the URLs from these tables:

- `hist_urls(uid)` gives the historical data files;
- `metafiles(uid)` gives splits, dividends, delisted tickers and futures contracts;
- `tickers()` and `readme()` give the constant listing and readme URLs.

The driver `download_firstratedata` visits the classes in order. For each class it downloads the ticker listing and the readme as text, every historical URL as a zip, and then every metafile URL. Each metafile URL goes to the zip or the text downloader according to its last four characters.

The model has five modules:

- **Text**: Python's `s[-4:]`, `in` on strings, `endswith` and `reversed`.
- **Queries**: what varies between data-file requests is the ticker range, the timeframe and the adjustment. This module states, per loop nest of `hist_urls`, the sequence of those triples (`Query`) the loops visit. It proves membership (both directions), lengths, and block and index layouts for arbitrary tables.
- **Urls**: the URL layouts. Each `hist_urls` and `metafiles` loop is a method with its loops and invariants, proved to return the rendering of the corresponding query sequence.
- **AssetClasses**: the six classes as one datatype. `__init__` is a `Params` value, with one variant per loop shape. This module also evaluates the tables: 5 URLs for Index, Forex and Crypto, 312 for ETF and Stock, and 10 for Futures; 2, 4 and 2 metafiles for ETF, Stock and Futures.
- **Download**: the pure decisions of `download_zip`, `download_txt` and the driver:
  - the target file name `trg_subdir + r.url.split('/')[-1]`;
  - the `.zip` and `.txt` checks;
  - the suffix dispatch of metafiles;
  - the sequence of downloads the driver starts for one class.

The metafile API URLs (`meta_file?...` and `futures_contract?...`) end in `&userid=<uid>`. The suffix dispatch therefore routes them as the user id itself would be routed. For a user id such as `foo`, none of them is downloaded. Of all metafiles, only Stock's two delisted-ticker archives reach `download_zip`. `Download.MetaDownloadsSkipApiUrls` and `Download.PlanLength` state this behaviour.

## Model

| member | source | states |
|---|---|---|
| Text.LastFour | firstratedata/download_via_api.py:263 | `s[-4:]`: the last four characters, or the whole string when shorter; the result is a suffix of `s` |
| Text.ReversedAt | firstratedata/download_via_api.py:27 | element `k` of `reversed(s)` is element `len(s) - 1 - k` of `s` |
| Queries.PlainQueriesAt | firstratedata/download_via_api.py:25-36 | one query per visited timeframe, in visit order, with neither ticker range nor adjustment |
| Queries.KeptAdjustmentsMembership | firstratedata/download_via_api.py:59-61 | an adjustment is used for a timeframe exactly when it is declared and is not UNADJUSTED, or the timeframe is 1min or 1day |
| Queries.AdjustmentQueriesAt | firstratedata/download_via_api.py:59-82 | one (range, timeframe) pair yields one query per kept adjustment, in declared order |
| Queries.AdjustmentQueriesMembership | firstratedata/download_via_api.py:59-82 | a query is in a (range, timeframe) block exactly when it has that range and timeframe and a declared adjustment the filter keeps |
| Queries.TimeframeQueriesMembership | firstratedata/download_via_api.py:58-82 | a query is in one range's block exactly when its timeframe is visited and its adjustment is declared and kept |
| Queries.TimeframeQueriesLength | firstratedata/download_via_api.py:58-82 | every ticker range contributes the same number of queries, the per-range count |
| Queries.RangeQueriesLength | firstratedata/download_via_api.py:57-83 | the ranged enumeration has (number of ranges) × (per-range count) queries |
| Queries.RangeQueriesBlockAt | firstratedata/download_via_api.py:57-83 | block `i` of the ranged enumeration is exactly the queries of ticker range `i` |
| Queries.RangeQueriesBlocks | firstratedata/download_via_api.py:57-83 | the ranged enumeration is one equal-length block per ticker range, in range order |
| Queries.RangeQueriesMembership | firstratedata/download_via_api.py:136-164 | both directions: a query is visited exactly when its range, timeframe and adjustment are all declared and the UNADJUSTED filter keeps it |
| Queries.ContinuousBlockAt | firstratedata/download_via_api.py:195-204 | one Futures timeframe yields one query per adjustment, in declared order, with no ticker range |
| Queries.ContinuousQueriesLength | firstratedata/download_via_api.py:194-204 | Futures yields (timeframes) × (adjustments) queries; nothing is filtered |
| Queries.ContinuousQueryAt | firstratedata/download_via_api.py:194-204 | position j × (number of adjustments) + k holds timeframe `j` with adjustment `k` |
| Queries.ContinuousQueriesAt | firstratedata/download_via_api.py:192-205 | the whole Futures layout: timeframe outer, adjustment inner, with the length and every position |
| Urls.ApiUrlsEndWithUserId | firstratedata/download_via_api.py:62-70 | every data-file, meta-file and futures-contract URL ends with `&userid=<uid>` |
| Urls.EnumeratePlain | firstratedata/download_via_api.py:25-36 | the loop returns one URL per timeframe, last declared first; position `j` is timeframe `len - 1 - j`, with no ticker range or adjustment |
| Urls.EnumerateRanged | firstratedata/download_via_api.py:55-83 | the triple loop returns exactly the rendering of the ranged query sequence (ranges, then reversed timeframes, then filtered adjustments) |
| Urls.AppendTickerRange | firstratedata/download_via_api.py:58-82 | one ticker-range iteration appends that range's queries, rendered, to what came before |
| Urls.EnumerateContinuous | firstratedata/download_via_api.py:192-205 | the Futures double loop returns exactly the rendering of the continuous query sequence |
| Urls.MetaFileUrlsAt | firstratedata/download_via_api.py:85-90 | one metadata URL per metafile type, the `i`-th for the `i`-th type |
| Urls.AppendMetaFileUrls | firstratedata/download_via_api.py:166-174 | appends one metadata URL per type after the initial list, leaving the initial list unchanged |
| Urls.FuturesContractUrlsAt | firstratedata/download_via_api.py:207-217 | one contract-archive URL per metafile timeframe, in declared order |
| Urls.EnumerateFuturesContracts | firstratedata/download_via_api.py:207-217 | the Futures `metafiles` loop returns those contract URLs, length and positions included |
| AssetClasses.Letters | firstratedata/download_via_api.py:50 | `list(string.ascii_uppercase)`: 26 one-letter strings, A to Z in order |
| AssetClasses.Init | firstratedata/download_via_api.py:47-53 | each class's tables: the API code and period `full` for all six; the ETF/Stock and the Futures tables by shape |
| AssetClasses.HistUrls | firstratedata/download_via_api.py:314 | `hist_urls(uid)` of every class returns the rendering of its query sequence: 5, 312 or 10 URLs |
| AssetClasses.ReversedTimeframes | firstratedata/download_via_api.py:27 | `reversed(self.timeframes)` visits 1day, 1hour, 30min, 5min, 1min |
| AssetClasses.PlainHistQueries | firstratedata/download_via_api.py:106-117 | Index, Forex and Crypto request exactly five files, 1day first and 1min last |
| AssetClasses.EquityAdjustmentQueries | firstratedata/download_via_api.py:140-163 | per (range, timeframe): adj_split and adj_splitdiv, then UNADJUSTED only for 1min and 1day |
| AssetClasses.FilteredTimeframes | firstratedata/download_via_api.py:139-163 | over five timeframes, of which only the first and last keep UNADJUSTED, a range yields 3+2+2+2+3 queries in that order |
| AssetClasses.EquityTimeframeQueries | firstratedata/download_via_api.py:139-163 | one ETF or Stock ticker range yields exactly twelve queries, listed in order |
| AssetClasses.EquityRangeBlocks | firstratedata/download_via_api.py:138-164 | any list of ranges yields twelve queries per range, block `i` being range `i`'s twelve |
| AssetClasses.RangedHistQueries | firstratedata/tests/test_download_via_api.py:28-46 | ETF and Stock request 312 files; positions `12i` to `12i+11` are letter `i`'s twelve |
| AssetClasses.RangedHistQueriesMembership | firstratedata/download_via_api.py:55-83 | a query is requested exactly when it has a letter A to Z, a declared timeframe and a declared adjustment, with UNADJUSTED only for 1min and 1day |
| AssetClasses.FuturesBlock | firstratedata/download_via_api.py:195-204 | one Futures timeframe gives `contin_adj ` (trailing space kept), then `contin_UNadj` |
| AssetClasses.FuturesTimeframes | firstratedata/download_via_api.py:194-204 | five timeframes give ten queries, two per timeframe, in order |
| AssetClasses.FuturesHistQueries | firstratedata/tests/test_download_via_api.py:48-51 | Futures requests exactly ten files, 1day first, each timeframe with both adjustments |
| AssetClasses.HistQueryCounts | firstratedata/tests/test_download_via_api.py:22-58 | the URL counts 5, 312, 5, 312, 10, 5 for Index, ETF, Forex, Stock, Futures, Crypto |
| AssetClasses.Metafiles | firstratedata/download_via_api.py:322-323 | `metafiles(uid)` exists exactly for ETF, Stock and Futures, and returns their lists |
| AssetClasses.EtfMetafiles | firstratedata/download_via_api.py:85-90 | ETF metafiles: splits, then dividends (two URLs) |
| AssetClasses.StockMetafiles | firstratedata/download_via_api.py:166-174 | Stock metafiles: the two delisted-ticker archives unchanged, then splits and dividends (four URLs) |
| AssetClasses.OtherMetafiles | firstratedata/download_via_api.py:207-217 | Futures metafiles: contract archives for 1min, then 1day; Index, Forex and Crypto have none |
| AssetClasses.TickersAndReadmeNameTheClass | firstratedata/tests/test_download_via_api.py:61-72 | every class's ticker and readme URLs contain its API code and end in `.txt` |
| Download.LastSegmentSpec | firstratedata/download_via_api.py:262 | `split('/')[-1]` is a suffix with no '/', preceded by '/' or equal to the whole URL |
| Download.LastSegmentUnique | firstratedata/download_via_api.py:262 | only that segment has those properties, so they characterise `split('/')[-1]` |
| Download.Subdir | firstratedata/download_via_api.py:300 | a class's target directory ends in '/' |
| Download.TargetCheck | firstratedata/download_via_api.py:262-263 | with such a directory, the `trg_fn[-4:]` check accepts exactly when the resolved URL ends with the extension, and the file is then the directory plus the URL's last segment |
| Download.UserIdSuffixRoute | firstratedata/download_via_api.py:329-332 | a URL ending in `&userid=<uid>` is routed as `uid` is when `uid` has four characters or more, and to neither downloader otherwise |
| Download.EqualsSignSkips | firstratedata/download_via_api.py:329-332 | a URL with '=' among its last four characters goes to neither downloader |
| Download.MetafileApiUrlsRoute | firstratedata/download_via_api.py:323-332 | every metadata and futures-contract URL is routed as its user id is |
| Download.DelistedArchivesRoute | firstratedata/download_via_api.py:168-169 | both delisted-ticker archives go to `download_zip` |
| Download.DispatchMetafiles | firstratedata/download_via_api.py:326-332 | the metafile loop's downloads are `Dispatched(metafiles)` |
| Download.DispatchedMembership | firstratedata/download_via_api.py:329-332 | both directions: a download is started exactly when its URL is listed and its suffix routes it to that downloader |
| Download.DispatchedTxtAccepted | firstratedata/download_via_api.py:331-332 | the metafile loop passes only `.txt` URLs to `download_txt` |
| Download.ZipAllAt | firstratedata/download_via_api.py:316-319 | one zip download per historical URL, in the same order |
| Download.DownloadEach | firstratedata/download_via_api.py:316-319 | the historical loop starts exactly those downloads |
| Download.Plan | firstratedata/download_via_api.py:299-332 | the body of the class loop starts ticker listing, readme, historical zips and routed metafiles, in that order |
| Download.TxtRequestsAccepted | firstratedata/download_via_api.py:273 | the unguarded `url[-4:] == '.txt'` assert never fails: every text download the driver starts, for every class and user id, is of a `.txt` URL |
| Download.MetaDownloadsSkipApiUrls | firstratedata/download_via_api.py:322-332 | when the user id routes nowhere, the metafile loop downloads Stock's two archives as zips and nothing for any other class |
| Download.PlanLength | firstratedata/download_via_api.py:299-332 | for such a user id: 2 + 5 downloads for Index, Forex and Crypto; 2 + 312 for ETF; 2 + 312 + 2 for Stock; 2 + 10 for Futures |

## Left out

- Network access: `requests.get`, redirects, `iter_content` and the 'no active subscription' response. The URL a request resolves to is a parameter (`resolved`) of the target-name functions.
- The file system: `os.path.exists`, `os.makedirs`, opening and writing files, and `writelines`. A download is modelled as the `Action` that starts it.
- The exception handling inside `download_zip` and `download_txt`. A failed target check is modelled as a `Rejected` value; the printed error message is not modelled.
- Printing and the `file_count` progress counters of the driver.
- The credential import and the `input()` fallback in `download_firstratedata`. The user id is a parameter.
- The `__main__` block and the working-directory lookup.
- `firstratedata/extract_to_influxdb.py` and `setup.py` are not part of this model.
- AssetClasses.Tickers / AssetClasses.Readme: each is built as a common prefix, the API code and a suffix, not as the six literal strings of the source. The six results spell exactly those literals, but no lemma states that equality character by character.
- Download.MetaDownloadsSkipApiUrls: stated only for user ids that are routed to neither downloader, such as `foo`. For other user ids, `Download.DispatchedMembership` and `Download.MetafileApiUrlsRoute` give the routing.
- Download.PlanLength: stated only for the same user ids, for the same reason.
