/**
 * script/apps_data.py, the google_play_scraper client: the per-app 11-key
 * projection and the batched search loop that keeps the first hit per app
 * id. `search` and `app` are network calls, so they are parameters: the
 * search is the function from a query to its hits (`None` when it raises),
 * the app store the map from each app id `app` answers to its details
 * (absent when `app` raises).
 */
module AppsData {
  import opened Wrappers
  import opened Text
  import opened Dicts
  import opened Utils

  /** How much `n_hits` grows after each batch. */
  const Batch: int := 100
  const Language: string := "en"

  /** The record's columns, in order; "Cateory" is spelled as the source spells it. */
  const ScriptKeys: seq<string> := [
    "Cateory", "App name", "Downloads no.", "Last update", "Developer website",
    "Developer email", "Developer phone", "Developer address", "App URL",
    "Keywords", "Short Description"]

  /** One search result; only its app id is read. */
  datatype Hit = Hit(appId: string, fields: map<string, string>)

  datatype SearchQuery = SearchQuery(query: string, lang: string, country: string, nHits: int)

  /** `search(...)`: its hits, or `None` when it raises. */
  type Search = SearchQuery -> Option<seq<Hit>>

  /** `app(package_name)` answers for the ids in the map and raises for the others. */
  type AppStore = map<string, map<string, string>>

  // ---------------------------------------------------------------------
  // fetch_app_details
  // ---------------------------------------------------------------------

  /** The source key each column is read from; the keywords column has none. */
  const SourceKeys: seq<string> := [
    "genre", "title", "realInstalls", "lastUpdatedOn", "developerWebsite",
    "developerEmail", "developerPhone", "developerAddress", "url", "", "summary"]

  const KeywordsColumn: nat := 9

  /**
   * `fetch_app_details`: project the app's details onto the 11 columns,
   * `""` for a missing one, keywords from the description; `None` when
   * `app` raises.
   */
  function FetchAppDetails(store: AppStore, packageName: string, vectorize: Vectorizer): (r: Option<Dict>)
    ensures r.Some? <==> packageName in store
    ensures r.Some? ==> r.value.keys == ScriptKeys
  {
    if packageName !in store then None
    else
      var details := store[packageName];
      var description := Lookup(details, "description", "");
      Some(FromPairs(ScriptKeys, ScriptValues(details, ExtractKeywords(description, DefaultTopN, vectorize))))
  }

  /** The values of the returned dict literal, in column order. */
  function ScriptValues(details: map<string, string>, keywords: string): (r: seq<string>)
    ensures |r| == |ScriptKeys| && r[KeywordsColumn] == keywords
    ensures forall i :: 0 <= i < |r| && i != KeywordsColumn ==> r[i] == Lookup(details, SourceKeys[i], "")
  {
    [Lookup(details, "genre", ""), Lookup(details, "title", ""),
     Lookup(details, "realInstalls", ""), Lookup(details, "lastUpdatedOn", ""),
     Lookup(details, "developerWebsite", ""), Lookup(details, "developerEmail", ""),
     Lookup(details, "developerPhone", ""), Lookup(details, "developerAddress", ""),
     Lookup(details, "url", ""), keywords, Lookup(details, "summary", "")]
  }

  lemma ScriptKeysDistinct()
    ensures DistinctKeys(ScriptKeys)
  {
  }

  /**
   * A fetched record is a well-formed dict whose every column but the
   * keywords is the app's value under its source key, or `""`.
   */
  lemma FetchedColumns(store: AppStore, packageName: string, vectorize: Vectorizer)
    requires packageName in store
    ensures var r := FetchAppDetails(store, packageName, vectorize).value;
            && r.Valid()
            && (forall i :: 0 <= i < |ScriptKeys| && i != KeywordsColumn ==>
                  r.Get(ScriptKeys[i], "") == Lookup(store[packageName], SourceKeys[i], ""))
            && r.Get("Keywords", "") == ExtractKeywords(Lookup(store[packageName], "description", ""), DefaultTopN, vectorize)
  {
    ScriptKeysDistinct();
    FromPairsEntries(ScriptKeys, ScriptValues(store[packageName], ExtractKeywords(Lookup(store[packageName], "description", ""), DefaultTopN, vectorize)));
    assert ScriptKeys[KeywordsColumn] == "Keywords";
  }

  // ---------------------------------------------------------------------
  // fetch_apps_by_category: the specification
  // ---------------------------------------------------------------------

  /** The arguments the caller passes. */
  datatype Request = Request(category: string, country: string, numResults: int)

  /** The query of the `i`-th search call: `n_hits` has grown by one batch per earlier call. */
  function QueryAt(req: Request, i: nat): (q: SearchQuery)
    ensures q.query == req.category && q.lang == Language && q.country == req.country
    ensures q.nHits >= req.numResults
  {
    SearchQuery(req.category, Language, req.country, req.numResults + Batch * i)
  }

  /** The first call asks for `num_results` hits, and each later one for a batch more than the one before. */
  lemma QueryGrowth(req: Request, i: nat)
    ensures QueryAt(req, 0).nHits == req.numResults
    ensures QueryAt(req, i + 1).nHits == QueryAt(req, i).nHits + Batch
  {
  }

  /** A search result that ends the loop: an exception or an empty batch. */
  predicate Stops(o: Option<seq<Hit>>) {
    o.None? || o.value == []
  }

  /** What the `i`-th call adds to the tally and scans: its hits, or nothing when it raises. */
  function BatchAt(search: Search, req: Request, i: nat): seq<Hit> {
    match search(QueryAt(req, i))
    case None => []
    case Some(hits) => hits
  }

  /** The hits of the first `m` calls, in the order they arrive. */
  function HitsUpTo(search: Search, req: Request, m: nat): seq<Hit> {
    if m == 0 then [] else HitsUpTo(search, req, m - 1) + BatchAt(search, req, m - 1)
  }

  /** The first call at or after `i` that ends the loop, given that call `bound` does. */
  function FirstStop(search: Search, req: Request, i: nat, bound: nat): (r: nat)
    requires i <= bound && Stops(search(QueryAt(req, bound)))
    decreases bound - i
    ensures i <= r <= bound && Stops(search(QueryAt(req, r)))
    ensures forall j :: i <= j < r ==> !Stops(search(QueryAt(req, j)))
  {
    if Stops(search(QueryAt(req, i))) then i else FirstStop(search, req, i + 1, bound)
  }

  /** The app ids of a list of hits, in order. */
  function Ids(hs: seq<Hit>): (r: seq<string>)
    ensures |r| == |hs|
    ensures forall i :: 0 <= i < |hs| ==> r[i] == hs[i].appId
  {
    seq(|hs|, i requires 0 <= i < |hs| => hs[i].appId)
  }

  /** Hits in order, each dropped when an earlier one had the same id. */
  function Dedup(hs: seq<Hit>): (r: seq<Hit>)
    ensures |r| <= |hs|
    ensures forall h :: h in r ==> h in hs
  {
    if hs == [] then []
    else
      var d := Dedup(hs[..|hs| - 1]);
      var h := hs[|hs| - 1];
      if h.appId in Ids(d) then d else d + [h]
  }

  /** Hit `i` is the first with its id. */
  predicate IsFirst(hs: seq<Hit>, i: nat)
    requires i < |hs|
  {
    forall j :: 0 <= j < i ==> hs[j].appId != hs[i].appId
  }

  /** Reference definition: the hits among the first `n` that are first with their id. */
  function FirstOccurrences(hs: seq<Hit>, n: nat): seq<Hit>
    requires n <= |hs|
  {
    if n == 0 then []
    else FirstOccurrences(hs, n - 1) + (if IsFirst(hs, n - 1) then [hs[n - 1]] else [])
  }

  // ---------------------------------------------------------------------
  // Properties of the specification
  // ---------------------------------------------------------------------

  /** The id set of a deduplicated list is the id set of the input. */
  lemma {:induction false} DedupIds(hs: seq<Hit>)
    ensures forall id :: id in Ids(Dedup(hs)) <==> id in Ids(hs)
  {
    if hs != [] {
      var init := hs[..|hs| - 1];
      var h := hs[|hs| - 1];
      DedupIds(init);
      assert init + [h] == hs;
      IdsSnoc(init, h);
      IdsSnoc(Dedup(init), h);
    }
  }

  /** No id occurs twice in a deduplicated list. */
  lemma {:induction false} DedupDistinct(hs: seq<Hit>)
    ensures forall i, j :: 0 <= i < j < |Dedup(hs)| ==> Dedup(hs)[i].appId != Dedup(hs)[j].appId
  {
    if hs != [] {
      DedupDistinct(hs[..|hs| - 1]);
    }
  }

  /** Deduplication keeps exactly the first hit per id, in encounter order. */
  lemma {:induction false} DedupIsFirstOccurrences(hs: seq<Hit>, n: nat)
    requires n <= |hs|
    ensures Dedup(hs[..n]) == FirstOccurrences(hs, n)
  {
    if n > 0 {
      DedupIsFirstOccurrences(hs, n - 1);
      var prefix, h := hs[..n - 1], hs[n - 1];
      assert hs[..n] == prefix + [h];
      DedupSnoc(prefix, h);
      DedupIds(prefix);
      FirstIffNewId(hs, n - 1);
      var d := Dedup(prefix);
      if IsFirst(hs, n - 1) {
        assert h.appId !in Ids(d);
        assert Dedup(hs[..n]) == d + [h];
      } else {
        assert h.appId in Ids(d);
        assert Dedup(hs[..n]) == d;
        assert FirstOccurrences(hs, n) == FirstOccurrences(hs, n - 1) + [];
        assert d + [] == d;
      }
    }
  }

  /** Hit `i` is the first with its id exactly when that id is not among the ids before it. */
  lemma FirstIffNewId(hs: seq<Hit>, i: nat)
    requires i < |hs|
    ensures IsFirst(hs, i) <==> hs[i].appId !in Ids(hs[..i])
  {
    var prefix := hs[..i];
    if !IsFirst(hs, i) {
      var j :| 0 <= j < i && hs[j].appId == hs[i].appId;
      assert Ids(prefix)[j] == hs[i].appId;
    }
    if hs[i].appId in Ids(prefix) {
      var j :| 0 <= j < |prefix| && Ids(prefix)[j] == hs[i].appId;
      assert prefix[j] == hs[j];
    }
  }

  /** On a list without repeated ids, deduplication changes nothing. */
  lemma {:induction false} DedupOfDistinct(hs: seq<Hit>)
    requires forall i, j :: 0 <= i < j < |hs| ==> hs[i].appId != hs[j].appId
    ensures Dedup(hs) == hs
  {
    if hs != [] {
      var init, h := hs[..|hs| - 1], hs[|hs| - 1];
      DedupOfDistinct(init);
      forall j | 0 <= j < |init| ensures Ids(init)[j] != h.appId {
        assert init[j] == hs[j];
      }
      assert init + [h] == hs;
      DedupSnoc(init, h);
    }
  }

  lemma IdsSnoc(hs: seq<Hit>, h: Hit)
    ensures Ids(hs + [h]) == Ids(hs) + [h.appId]
  {
    assert (hs + [h])[..|hs|] == hs;
  }

  /** One more hit: deduplication grows by that hit exactly when its id is new. */
  lemma DedupSnoc(hs: seq<Hit>, h: Hit)
    ensures Dedup(hs + [h]) == if h.appId in Ids(Dedup(hs)) then Dedup(hs) else Dedup(hs) + [h]
  {
    assert (hs + [h])[..|hs|] == hs;
  }

  /** The loop's step over one more hit of the current batch. */
  lemma DedupStep(seen: seq<Hit>, apps: seq<Hit>, k: nat)
    requires k < |apps|
    ensures var d := Dedup(seen + apps[..k]);
            Dedup(seen + apps[..k + 1]) == if apps[k].appId in Ids(d) then d else d + [apps[k]]
  {
    assert apps[..k + 1] == apps[..k] + [apps[k]];
    assert seen + apps[..k + 1] == (seen + apps[..k]) + [apps[k]];
    DedupSnoc(seen + apps[..k], apps[k]);
  }

  /** Deduplicating twice is deduplicating once. */
  lemma DedupIdempotent(hs: seq<Hit>)
    ensures Dedup(Dedup(hs)) == Dedup(hs)
  {
    DedupDistinct(hs);
    DedupOfDistinct(Dedup(hs));
  }

  /** `[fetch_app_details(app["appId"]) for app in apps]` */
  function Fetched(store: AppStore, apps: seq<Hit>, vectorize: Vectorizer): (r: seq<Option<Dict>>)
    ensures |r| == |apps|
    ensures forall i :: 0 <= i < |apps| ==> r[i] == FetchAppDetails(store, apps[i].appId, vectorize)
  {
    seq(|apps|, i requires 0 <= i < |apps| => FetchAppDetails(store, apps[i].appId, vectorize))
  }

  /**
   * The details of each listed app, `None` where `app` raises, with the
   * `None`s removed: only fetched records, every app `app` answers for, and
   * all of them in order when none fails.
   */
  function DetailsOf(store: AppStore, apps: seq<Hit>, vectorize: Vectorizer): (r: seq<Dict>)
    ensures |r| <= |apps|
    ensures forall d :: d in r ==> exists i :: 0 <= i < |apps| && FetchAppDetails(store, apps[i].appId, vectorize) == Some(d)
    ensures forall i :: 0 <= i < |apps| && apps[i].appId in store ==> FetchAppDetails(store, apps[i].appId, vectorize).value in r
    ensures (forall i :: 0 <= i < |apps| ==> apps[i].appId in store) ==>
              |r| == |apps| && forall i :: 0 <= i < |apps| ==> r[i] == FetchAppDetails(store, apps[i].appId, vectorize).value
  {
    var fetched := Fetched(store, apps, vectorize);
    var r := FilterSome(fetched);
    assert forall d :: d in r ==> Some(d) in fetched;
    r
  }

  /** Fetching a concatenation fetches each part: details come out in the order of the apps. */
  lemma DetailsOfAppend(store: AppStore, a: seq<Hit>, b: seq<Hit>, vectorize: Vectorizer)
    ensures DetailsOf(store, a + b, vectorize) == DetailsOf(store, a, vectorize) + DetailsOf(store, b, vectorize)
  {
    assert Fetched(store, a + b, vectorize) == Fetched(store, a, vectorize) + Fetched(store, b, vectorize);
    FilterSomeAppend(Fetched(store, a, vectorize), Fetched(store, b, vectorize));
  }

  /** One more app: its details are appended when `app` answers for it, and nothing otherwise. */
  lemma DetailsOfSnoc(store: AppStore, apps: seq<Hit>, h: Hit, vectorize: Vectorizer)
    ensures DetailsOf(store, apps + [h], vectorize) ==
              DetailsOf(store, apps, vectorize) + (if h.appId in store then [FetchAppDetails(store, h.appId, vectorize).value] else [])
  {
    DetailsOfAppend(store, apps, [h], vectorize);
  }

  // ---------------------------------------------------------------------
  // fetch_apps_by_category
  // ---------------------------------------------------------------------

  /**
   * `fetch_apps_by_category`: search batch after batch with `n_hits`
   * growing by 100, tally every hit, keep each new app id once, and stop at
   * the first empty batch or exception; then fetch each kept app's details
   * and drop the failures. `bound` names a call that stops the loop (the
   * source has no such bound and may loop forever otherwise); the model
   * proves nothing depends on it but termination.
   */
  method FetchAppsByCategory(req: Request, search: Search, store: AppStore, vectorize: Vectorizer, ghost bound: nat)
    returns (details: seq<Dict>, totalSearched: nat)
    requires Stops(search(QueryAt(req, bound)))
    ensures var stop := FirstStop(search, req, 0, bound);
            && totalSearched == |HitsUpTo(search, req, stop)|
            && details == DetailsOf(store, Dedup(HitsUpTo(search, req, stop)), vectorize)
  {
    var count, batch := 0, Batch;
    var appsId: seq<string>, appsList: seq<Hit> := [], [];
    totalSearched := 0;
    var numResults := req.numResults;
    ghost var calls: nat := 0;
    while true
      invariant calls <= bound
      invariant numResults == req.numResults + Batch * calls
      invariant forall j :: 0 <= j < calls ==> !Stops(search(QueryAt(req, j)))
      invariant appsList == Dedup(HitsUpTo(search, req, calls))
      invariant appsId == Ids(appsList)
      invariant count == |appsId| == |appsList|
      invariant totalSearched == |HitsUpTo(search, req, calls)|
      decreases bound - calls
    {
      var response := search(SearchQuery(req.category, Language, req.country, numResults));
      assert response == search(QueryAt(req, calls));
      if response.None? {
        break;
      }
      var apps := response.value;
      totalSearched := totalSearched + |apps|;
      if apps == [] {
        break;
      }
      ghost var seen := HitsUpTo(search, req, calls);
      NextBatch(search, req, calls, bound, apps);
      count, appsId, appsList := KeepNewIds(apps, count, appsId, appsList, seen);
      numResults := numResults + batch;
      calls := calls + 1;
    }
    assert calls == FirstStop(search, req, 0, bound) by {
      FirstStopIsFirst(search, req, calls, bound);
    }
    details := DetailsOf(store, appsList, vectorize);
  }

  /**
   * The body of `for app in apps`: each hit whose id is not yet in
   * `apps_id` is counted and appended to both lists.
   */
  method KeepNewIds(apps: seq<Hit>, count: nat, appsId: seq<string>, appsList: seq<Hit>, ghost seen: seq<Hit>)
    returns (count': nat, appsId': seq<string>, appsList': seq<Hit>)
    requires appsList == Dedup(seen) && appsId == Ids(appsList) && count == |appsList|
    ensures appsList' == Dedup(seen + apps) && appsId' == Ids(appsList') && count' == |appsList'|
  {
    count', appsId', appsList' := count, appsId, appsList;
    assert seen + apps[..0] == seen;
    for k := 0 to |apps|
      invariant appsList' == Dedup(seen + apps[..k])
      invariant appsId' == Ids(appsList')
      invariant count' == |appsList'|
    {
      var app := apps[k];
      DedupStep(seen, apps, k);
      if app.appId !in appsId' {
        IdsSnoc(appsList', app);
        count' := count' + 1;
        appsId' := appsId' + [app.appId];
        appsList' := appsList' + [app];
      }
    }
    assert apps[..|apps|] == apps;
  }

  /** A call that returns a non-empty batch does not stop the loop, adds its hits, and comes before `bound`. */
  lemma NextBatch(search: Search, req: Request, calls: nat, bound: nat, apps: seq<Hit>)
    requires Stops(search(QueryAt(req, bound)))
    requires search(QueryAt(req, calls)) == Some(apps) && apps != []
    ensures !Stops(search(QueryAt(req, calls))) && calls != bound
    ensures HitsUpTo(search, req, calls + 1) == HitsUpTo(search, req, calls) + apps
  {
  }

  /** A call that stops the loop, with none before it, is the first stop. */
  lemma FirstStopIsFirst(search: Search, req: Request, m: nat, bound: nat)
    requires m <= bound && Stops(search(QueryAt(req, bound)))
    requires Stops(search(QueryAt(req, m)))
    requires forall j :: 0 <= j < m ==> !Stops(search(QueryAt(req, j)))
    ensures FirstStop(search, req, 0, bound) == m
  {
  }
}
