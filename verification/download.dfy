/** The pure decisions of the download helpers and of the driver in
    firstratedata/download_via_api.py: where a downloaded file is written
    (`download_zip`, `download_txt`), which format checks it must pass, how
    metadata URLs are routed to a downloader, and the sequence of downloads
    the driver starts for one parameter class. The network and the file
    system are left out: a download is the `Action` of starting it. */
module Download {
  import opened Text
  import opened Queries
  import opened Urls
  import opened AssetClasses

  // ---------------------------------------------------------------------
  // Target file name
  // ---------------------------------------------------------------------

  /** `url.split('/')[-1]`. */
  function LastSegment(url: string): string
    decreases |url|
  {
    if url == [] || url[|url| - 1] == '/' then []
    else LastSegment(url[..|url| - 1]) + [url[|url| - 1]]
  }

  /** The last segment is the suffix of `url` that holds no '/' and is
      preceded by a '/' or is the whole of `url`. */
  lemma {:induction false} LastSegmentSpec(url: string)
    ensures |LastSegment(url)| <= |url|
    ensures url[|url| - |LastSegment(url)|..] == LastSegment(url)
    ensures '/' !in LastSegment(url)
    ensures |LastSegment(url)| == |url| || url[|url| - |LastSegment(url)| - 1] == '/'
    decreases |url|
  {
    if url != [] && url[|url| - 1] != '/' {
      var init := url[..|url| - 1];
      LastSegmentSpec(init);
      var s := LastSegment(init);
      assert url[|url| - |s| - 1..] == init[|init| - |s|..] + [url[|url| - 1]];
      if |s| < |init| {
        assert url[|url| - |s| - 2] == init[|init| - |s| - 1];
      }
    }
  }

  /** Conversely, only the last segment has those three properties: they
      define `split('/')[-1]`. */
  lemma {:induction false} LastSegmentUnique(url: string, s: string)
    requires |s| <= |url| && url[|url| - |s|..] == s && '/' !in s
    requires |s| == |url| || url[|url| - |s| - 1] == '/'
    ensures s == LastSegment(url)
    decreases |url|
  {
    if url != [] && url[|url| - 1] != '/' {
      var init := url[..|url| - 1];
      assert s != [];
      var t := s[..|s| - 1];
      assert init[|init| - |t|..] == t;
      assert '/' !in t by {
        forall k | 0 <= k < |t| ensures t[k] != '/' {
          assert t[k] == s[k];
        }
      }
      if |t| < |init| {
        assert init[|init| - |t| - 1] == url[|url| - |s| - 1];
      }
      LastSegmentUnique(init, t);
      assert s == t + [url[|url| - 1]];
    }
  }

  /** `trg_subdir + r.url.split('/')[-1]`, with `resolved` the URL the
      request ended at. */
  function TargetFilename(subdir: string, resolved: string): string
  {
    subdir + LastSegment(resolved)
  }

  /** The outcome of a format check on the target file name. */
  datatype Check = Accepted(path: string) | Rejected(suffix: string)

  /** `assert trg_fn[-4:] == extension`, for the target file name. */
  function CheckedTarget(subdir: string, resolved: string, extension: string): Check
  {
    var target := TargetFilename(subdir, resolved);
    if LastFour(target) == extension then Accepted(target) else Rejected(LastFour(target))
  }

  /** The target check of `download_zip`. */
  function ZipTarget(subdir: string, resolved: string): Check
  {
    CheckedTarget(subdir, resolved, ".zip")
  }

  /** The target check of `download_txt`. */
  function TxtTarget(subdir: string, resolved: string): Check
  {
    CheckedTarget(subdir, resolved, ".txt")
  }

  /** The check on the requested URL at the top of `download_txt`; it sits
      outside the `try`, so a URL that fails it stops the whole driver. */
  predicate TxtRequestAccepted(url: string)
  {
    LastFour(url) == ".txt"
  }

  /** `trg_dir + f"/{api.api}/"`: the directory a class downloads into. */
  function Subdir(targetDir: string, ac: AssetClass): (r: string)
    ensures EndsWith(r, "/")
  {
    targetDir + "/" + Api(ac) + "/"
  }

  /** For a directory ending in '/', the target check accepts exactly when
      the resolved URL itself ends with the four-character extension, and
      then writes to the directory plus the last segment of that URL. */
  lemma TargetCheck(subdir: string, resolved: string, extension: string)
    requires |extension| == 4 && '/' !in extension
    requires EndsWith(subdir, "/")
    ensures CheckedTarget(subdir, resolved, extension).Accepted? <==> LastFour(resolved) == extension
    ensures CheckedTarget(subdir, resolved, extension).Accepted? ==>
              CheckedTarget(subdir, resolved, extension).path == subdir + LastSegment(resolved)
  {
    var seg := LastSegment(resolved);
    var target := TargetFilename(subdir, resolved);
    if |seg| >= 4 {
      LongSegmentSuffix(subdir, resolved);
    } else {
      SlashInLastFour(subdir, seg);
      assert '/' in LastFour(target);
      assert LastFour(target) != extension;
      if LastFour(resolved) == extension {
        LongSegment(resolved, extension);
      }
    }
  }

  /** A segment of four characters or more decides the target's last four. */
  lemma LongSegmentSuffix(subdir: string, resolved: string)
    requires |LastSegment(resolved)| >= 4
    ensures LastFour(TargetFilename(subdir, resolved)) == LastFour(resolved)
  {
    var seg := LastSegment(resolved);
    LastSegmentSpec(resolved);
    var head := resolved[..|resolved| - |seg|];
    assert resolved == head + seg;
    LastFourOfConcat(head, seg);
    LastFourOfConcat(subdir, seg);
  }

  /** A target whose segment is shorter than four characters ends, in its
      last four, with the directory's '/'. */
  lemma SlashInLastFour(subdir: string, seg: string)
    requires EndsWith(subdir, "/") && |seg| < 4
    ensures '/' in LastFour(subdir + seg)
  {
    var target := subdir + seg;
    var r := LastFour(target);
    var k := |r| - |seg| - 1;
    assert target == target[..|target| - |r|] + r;
    assert r[k] == target[|target| - |seg| - 1];
  }

  /** A URL whose last four characters are an extension without '/' has a
      last segment of at least four characters. */
  lemma LongSegment(resolved: string, extension: string)
    requires |extension| == 4 && '/' !in extension
    requires LastFour(resolved) == extension
    ensures |LastSegment(resolved)| >= 4
  {
    LastSegmentSpec(resolved);
  }

  // ---------------------------------------------------------------------
  // Routing of metadata URLs
  // ---------------------------------------------------------------------

  datatype Route = ToZip | ToTxt | Skip

  /** `if meta[-4:] == '.zip' ... elif meta[-4:] == '.txt' ...`. */
  function RouteOf(url: string): Route
  {
    if LastFour(url) == ".zip" then ToZip
    else if LastFour(url) == ".txt" then ToTxt
    else Skip
  }

  /** Where a URL ending in `&userid=<uid>` is routed: as `uid` itself when
      it has four characters or more, otherwise nowhere, because the last
      four characters then include the '='. */
  function UserIdRoute(uid: string): Route
  {
    if |uid| >= 4 then RouteOf(uid) else Skip
  }

  lemma UserIdSuffixRoute(url: string, uid: string)
    requires EndsWith(url, "&userid=" + uid)
    ensures RouteOf(url) == UserIdRoute(uid)
  {
    var tail := "&userid=" + uid;
    var head := url[..|url| - |tail|];
    assert url == head + tail;
    if |uid| >= 4 {
      LastFourOfConcat(head + "&userid=", uid);
      assert url == (head + "&userid=") + uid;
    } else {
      LastFourOfConcat(head, tail);
      assert tail[7] == '=';
      assert LastFour(tail)[3 - |uid|] == tail[7];
      EqualsSignSkips(url);
    }
  }

  /** A URL with '=' among its last four characters is not downloaded. */
  lemma EqualsSignSkips(url: string)
    requires '=' in LastFour(url)
    ensures RouteOf(url) == Skip
  {
    assert '=' !in ".zip" && '=' !in ".txt";
  }

  /** The metadata API URLs and the futures contract URLs are routed as the
      user id is; with a user id such as `foo`, none of them is downloaded. */
  lemma MetafileApiUrlsRoute(api: string, metafile: string, uid: string)
    ensures RouteOf(MetaFileUrl(api, metafile, uid)) == UserIdRoute(uid)
    ensures RouteOf(FuturesContractUrl(metafile, uid)) == UserIdRoute(uid)
  {
    ApiUrlsEndWithUserId(api, "", Query(None, "", None), metafile, uid);
    UserIdSuffixRoute(MetaFileUrl(api, metafile, uid), uid);
    UserIdSuffixRoute(FuturesContractUrl(metafile, uid), uid);
  }

  /** The two delisted-ticker archives are routed to the zip downloader. */
  lemma DelistedArchivesRoute()
    ensures RouteOf(DelistedArchives[0]) == ToZip && RouteOf(DelistedArchives[1]) == ToZip
  {
    var a := DelistedArchives[0];
    var b := DelistedArchives[1];
    assert a[|a| - 4..] == ".zip";
    assert b[|b| - 4..] == ".zip";
  }

  // ---------------------------------------------------------------------
  // The downloads the driver starts
  // ---------------------------------------------------------------------

  /** A call of `download_zip` or `download_txt` on a URL. */
  datatype Action = ZipDownload(url: string) | TxtDownload(url: string)

  /** The downloader an action calls, as a route. */
  function Downloader(a: Action): Route
  {
    match a
    case ZipDownload(_) => ToZip
    case TxtDownload(_) => ToTxt
  }

  /** The download one metafile URL starts: by its suffix, or none. */
  function Routed(meta: string): seq<Action>
  {
    match RouteOf(meta)
    case ToZip => [ZipDownload(meta)]
    case ToTxt => [TxtDownload(meta)]
    case Skip => []
  }

  /** The downloads the metafile loop starts, in order. */
  function Dispatched(metafiles: seq<string>): seq<Action>
    decreases |metafiles|
  {
    if metafiles == [] then []
    else Dispatched(metafiles[..|metafiles| - 1]) + Routed(metafiles[|metafiles| - 1])
  }

  /** The metafile loop of the driver. */
  method DispatchMetafiles(metafiles: seq<string>) returns (actions: seq<Action>)
    ensures actions == Dispatched(metafiles)
  {
    actions := [];
    for i := 0 to |metafiles|
      invariant actions == Dispatched(metafiles[..i])
    {
      var meta := metafiles[i];
      assert metafiles[..i + 1][..i] == metafiles[..i];
      if LastFour(meta) == ".zip" {
        actions := actions + [ZipDownload(meta)];
      } else if LastFour(meta) == ".txt" {
        actions := actions + [TxtDownload(meta)];
      }
    }
    assert metafiles[..|metafiles|] == metafiles;
  }

  /** A metafile is downloaded exactly when it is listed and its suffix
      routes it to that downloader: `.zip` to the zip downloader, `.txt` to
      the text downloader. */
  lemma {:induction false} DispatchedMembership(metafiles: seq<string>, a: Action)
    ensures a in Dispatched(metafiles) <==> a.url in metafiles && RouteOf(a.url) == Downloader(a)
    decreases |metafiles|
  {
    if metafiles != [] {
      var init := metafiles[..|metafiles| - 1];
      var last := metafiles[|metafiles| - 1];
      DispatchedMembership(init, a);
      RoutedMembership(last, a);
      InPrefixOrLast(metafiles, a.url);
      assert Dispatched(metafiles) == Dispatched(init) + Routed(last);
    }
  }

  lemma RoutedMembership(meta: string, a: Action)
    ensures a in Routed(meta) <==> a.url == meta && RouteOf(meta) == Downloader(a)
  {
  }

  /** One zip download per URL, in order. */
  function ZipAll(urls: seq<string>): seq<Action>
    decreases |urls|
  {
    if urls == [] then [] else ZipAll(urls[..|urls| - 1]) + [ZipDownload(urls[|urls| - 1])]
  }

  lemma {:induction false} ZipAllAt(urls: seq<string>)
    ensures |ZipAll(urls)| == |urls|
    ensures forall i :: 0 <= i < |urls| ==> ZipAll(urls)[i] == ZipDownload(urls[i])
    decreases |urls|
  {
    if urls != [] {
      ZipAllAt(urls[..|urls| - 1]);
    }
  }

  /** `ZipAll` starts zip downloads only. */
  lemma ZipAllOnlyZip(urls: seq<string>)
    ensures forall a :: a in ZipAll(urls) ==> a.ZipDownload?
  {
    ZipAllAt(urls);
  }

  /** The metafiles a class downloads; none when it has no `metafiles`. */
  function MetaDownloads(ac: AssetClass, uid: string): seq<Action>
  {
    match MetafilesOf(ac, uid)
    case Some(metafiles) => Dispatched(metafiles)
    case None => []
  }

  /** Everything the driver starts for one class: its ticker listing and
      readme as text, every data file as a zip, then its routed metafiles. */
  function PlanOf(ac: AssetClass, uid: string): seq<Action>
  {
    [TxtDownload(Tickers(ac)), TxtDownload(Readme(ac))] + ZipAll(HistUrlsOf(ac, uid))
      + MetaDownloads(ac, uid)
  }

  /** The data-file loop of the driver: one zip download per URL. */
  method DownloadEach(urls: seq<string>) returns (actions: seq<Action>)
    ensures actions == ZipAll(urls)
  {
    actions := [];
    for i := 0 to |urls|
      invariant actions == ZipAll(urls[..i])
    {
      var url := urls[i];
      assert urls[..i + 1][..i] == urls[..i];
      actions := actions + [ZipDownload(url)];
    }
    assert urls[..|urls|] == urls;
  }

  /** The body of the driver's loop over the classes, for one class. */
  method Plan(ac: AssetClass, uid: string) returns (plan: seq<Action>)
    ensures plan == PlanOf(ac, uid)
  {
    var ticker := Tickers(ac);
    var readme := Readme(ac);
    var urls := HistUrls(ac, uid);
    var histActions := DownloadEach(urls);
    plan := [TxtDownload(ticker), TxtDownload(readme)] + histActions;
    var metas := Metafiles(ac, uid);
    if metas.Some? {
      var metaActions := DispatchMetafiles(metas.value);
      plan := plan + metaActions;
    }
  }

  /** Every text download among `actions` passes the check at the top of
      `download_txt`. */
  predicate TxtDownloadsAccepted(actions: seq<Action>)
  {
    forall a :: a in actions && a.TxtDownload? ==> TxtRequestAccepted(a.url)
  }

  /** The check at the top of `download_txt` never stops the driver: every
      text download it starts, for every class and user id, is of a URL
      ending in `.txt`. */
  lemma TxtRequestsAccepted(ac: AssetClass, uid: string)
    ensures TxtDownloadsAccepted(PlanOf(ac, uid))
  {
    var head := [TxtDownload(Tickers(ac)), TxtDownload(Readme(ac))];
    var hist := ZipAll(HistUrlsOf(ac, uid));
    var meta := MetaDownloads(ac, uid);
    TickersAndReadmeAccepted(ac);
    ZipAllOnlyZip(HistUrlsOf(ac, uid));
    MetaDownloadsTxtAccepted(ac, uid);
    AcceptedConcat(head, hist);
    AcceptedConcat(head + hist, meta);
  }

  lemma TickersAndReadmeAccepted(ac: AssetClass)
    ensures TxtDownloadsAccepted([TxtDownload(Tickers(ac)), TxtDownload(Readme(ac))])
  {
    TickersAndReadmeNameTheClass(ac);
  }

  lemma AcceptedConcat(x: seq<Action>, y: seq<Action>)
    requires TxtDownloadsAccepted(x) && TxtDownloadsAccepted(y)
    ensures TxtDownloadsAccepted(x + y)
  {
  }

  lemma MetaDownloadsTxtAccepted(ac: AssetClass, uid: string)
    ensures TxtDownloadsAccepted(MetaDownloads(ac, uid))
  {
    match MetafilesOf(ac, uid)
    case Some(metafiles) => DispatchedTxtAccepted(metafiles);
    case None =>
  }

  /** The metafile loop only hands `.txt` URLs to `download_txt`. */
  lemma DispatchedTxtAccepted(metafiles: seq<string>)
    ensures TxtDownloadsAccepted(Dispatched(metafiles))
  {
    forall a | a in Dispatched(metafiles) && a.TxtDownload?
      ensures TxtRequestAccepted(a.url)
    {
      DispatchedMembership(metafiles, a);
    }
  }

  /** What the metafile loop downloads when the user id routes nowhere (as
      `foo` does): the two archives for Stock, nothing for every other
      class, since the metadata API URLs end in the user id. */
  lemma MetaDownloadsSkipApiUrls(ac: AssetClass, uid: string)
    requires UserIdRoute(uid) == Skip
    ensures MetaDownloads(ac, uid)
            == if ac == Stock then [ZipDownload(DelistedArchives[0]), ZipDownload(DelistedArchives[1])] else []
  {
    match ac {
      case ETF => EtfMetaDownloads(uid);
      case Stock => StockMetaDownloads(uid);
      case Futures => FuturesMetaDownloads(uid);
      case Index => OtherMetafiles(uid);
      case Forex => OtherMetafiles(uid);
      case Crypto => OtherMetafiles(uid);
    }
  }

  lemma EtfMetaDownloads(uid: string)
    requires UserIdRoute(uid) == Skip
    ensures MetaDownloads(ETF, uid) == []
  {
    EtfMetafiles(uid);
    var u0 := MetaFileUrl("etf", "splits", uid);
    var u1 := MetaFileUrl("etf", "dividends", uid);
    MetafileApiUrlsRoute("etf", "splits", uid);
    MetafileApiUrlsRoute("etf", "dividends", uid);
    SkippedTail([], u0, u1);
    assert [] + [u0, u1] == [u0, u1];
  }

  lemma StockMetaDownloads(uid: string)
    requires UserIdRoute(uid) == Skip
    ensures MetaDownloads(Stock, uid) == [ZipDownload(DelistedArchives[0]), ZipDownload(DelistedArchives[1])]
  {
    StockMetafiles(uid);
    var m := DelistedArchives;
    DispatchedArchives();
    var u0 := MetaFileUrl("stock", "splits", uid);
    var u1 := MetaFileUrl("stock", "dividends", uid);
    MetafileApiUrlsRoute("stock", "splits", uid);
    MetafileApiUrlsRoute("stock", "dividends", uid);
    SkippedTail(m, u0, u1);
  }

  /** Both archives are downloaded as zip files, in order. */
  lemma DispatchedArchives()
    ensures Dispatched(DelistedArchives) == [ZipDownload(DelistedArchives[0]), ZipDownload(DelistedArchives[1])]
  {
    DelistedArchivesRoute();
    var m := DelistedArchives;
    assert m[..1][..0] == [];
    assert m[..2][..1] == m[..1];
    assert m[..2] == m;
  }

  lemma FuturesMetaDownloads(uid: string)
    requires UserIdRoute(uid) == Skip
    ensures MetaDownloads(Futures, uid) == []
  {
    OtherMetafiles(uid);
    var u0 := FuturesContractUrl("1min", uid);
    var u1 := FuturesContractUrl("1day", uid);
    MetafileApiUrlsRoute("", "1min", uid);
    MetafileApiUrlsRoute("", "1day", uid);
    SkippedTail([], u0, u1);
    assert [] + [u0, u1] == [u0, u1];
  }

  /** Two skipped URLs appended after `initial` add no download. */
  lemma SkippedTail(initial: seq<string>, u0: string, u1: string)
    requires RouteOf(u0) == Skip && RouteOf(u1) == Skip
    ensures Dispatched(initial + [u0, u1]) == Dispatched(initial)
  {
    DispatchedAppend(initial, u0);
    DispatchedAppend(initial + [u0], u1);
    assert initial + [u0, u1] == (initial + [u0]) + [u1];
  }

  /** Appending a URL appends its routed download. */
  lemma DispatchedAppend(metafiles: seq<string>, url: string)
    ensures Dispatched(metafiles + [url]) == Dispatched(metafiles) + Routed(url)
  {
    assert (metafiles + [url])[..|metafiles|] == metafiles;
  }

  /** With such a user id the driver starts 2 + 5 downloads for Index, Forex
      and Crypto, 2 + 312 for ETF, 2 + 312 + 2 for Stock and 2 + 10 for
      Futures. */
  lemma PlanLength(ac: AssetClass, uid: string)
    requires UserIdRoute(uid) == Skip
    ensures |PlanOf(ac, uid)| == 2 + HistUrlCount(ac) + (if ac == Stock then 2 else 0)
  {
    HistQueryCounts(ac);
    ZipAllAt(HistUrlsOf(ac, uid));
    MetaDownloadsSkipApiUrls(ac, uid);
  }
}
