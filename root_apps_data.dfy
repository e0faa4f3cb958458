/**
 * apps_data.py at the repository root: one search call, the 10-column
 * record (no developer address, five keywords) per hit, failures dropped.
 * The search and the app store are the same parameters as for
 * script/apps_data.py.
 */
module RootAppsData {
  import opened Wrappers
  import opened Dicts
  import opened Utils
  import AppsData

  const TopKeywords: nat := 5

  /** The record's columns, in order: the script's columns without the developer address. */
  const RootKeys: seq<string> := [
    "Cateory", "App name", "Downloads no.", "Last update", "Developer website",
    "Developer email", "Developer phone", "App URL", "Keywords", "Short Description"]

  /** The source key each column is read from; the keywords column has none. */
  const RootSourceKeys: seq<string> := [
    "genre", "title", "realInstalls", "lastUpdatedOn", "developerWebsite",
    "developerEmail", "developerPhone", "url", "", "summary"]

  const KeywordsColumn: nat := 8

  lemma RootKeysDistinct()
    ensures DistinctKeys(RootKeys)
  {
  }

  /** The values of the returned dict literal, in column order. */
  function RootValues(details: map<string, string>, keywords: string): (r: seq<string>)
    ensures |r| == |RootKeys| && r[KeywordsColumn] == keywords
    ensures forall i :: 0 <= i < |r| && i != KeywordsColumn ==> r[i] == Lookup(details, RootSourceKeys[i], "")
  {
    [Lookup(details, "genre", ""), Lookup(details, "title", ""),
     Lookup(details, "realInstalls", ""), Lookup(details, "lastUpdatedOn", ""),
     Lookup(details, "developerWebsite", ""), Lookup(details, "developerEmail", ""),
     Lookup(details, "developerPhone", ""), Lookup(details, "url", ""), keywords,
     Lookup(details, "summary", "")]
  }

  /**
   * `fetch_app_details`: the 10 columns, `""` for a missing one, keywords
   * from the description; `None` when `app` raises.
   */
  function FetchAppDetails(store: AppsData.AppStore, packageName: string, vectorize: Vectorizer): (r: Option<Dict>)
    ensures r.Some? <==> packageName in store
    ensures r.Some? ==> r.value.keys == RootKeys
  {
    if packageName !in store then None
    else
      var details := store[packageName];
      var description := Lookup(details, "description", "");
      Some(FromPairs(RootKeys, RootValues(details, ExtractKeywords(description, TopKeywords, vectorize))))
  }

  /**
   * A fetched record is a well-formed dict whose every column but the
   * keywords is the app's value under its source key, or `""`; it has no
   * developer address.
   */
  lemma FetchedColumns(store: AppsData.AppStore, packageName: string, vectorize: Vectorizer)
    requires packageName in store
    ensures var r := FetchAppDetails(store, packageName, vectorize).value;
            && r.Valid()
            && (forall i :: 0 <= i < |RootKeys| && i != KeywordsColumn ==>
                  r.Get(RootKeys[i], "") == Lookup(store[packageName], RootSourceKeys[i], ""))
            && r.Get("Keywords", "") == ExtractKeywords(Lookup(store[packageName], "description", ""), TopKeywords, vectorize)
            && r.Get("Developer address", "") == ""
  {
    var details := store[packageName];
    var values := RootValues(details, ExtractKeywords(Lookup(details, "description", ""), TopKeywords, vectorize));
    RootKeysDistinct();
    FromPairsEntries(RootKeys, values);
    assert RootKeys[KeywordsColumn] == "Keywords";
    assert "Developer address" !in RootKeys;
  }

  /** The root columns and their source keys are the script's without the address. */
  lemma ColumnsCorrespond()
    ensures RootKeys == AppsData.ScriptKeys[..7] + AppsData.ScriptKeys[8..]
    ensures RootSourceKeys == AppsData.SourceKeys[..7] + AppsData.SourceKeys[8..]
  {
  }

  /**
   * The root record is the script's record with the address column removed
   * and the keywords taken from five features instead of fifteen.
   */
  lemma SameColumnsAsScript(store: AppsData.AppStore, packageName: string, vectorize: Vectorizer)
    requires packageName in store
    ensures var root := FetchAppDetails(store, packageName, vectorize).value;
            var script := AppsData.FetchAppDetails(store, packageName, vectorize).value;
            forall i :: 0 <= i < |RootKeys| && i != KeywordsColumn ==> root.Get(RootKeys[i], "") == script.Get(RootKeys[i], "")
  {
    var root := FetchAppDetails(store, packageName, vectorize).value;
    var script := AppsData.FetchAppDetails(store, packageName, vectorize).value;
    FetchedColumns(store, packageName, vectorize);
    AppsData.FetchedColumns(store, packageName, vectorize);
    ColumnsCorrespond();
    forall i | 0 <= i < |RootKeys| && i != KeywordsColumn ensures root.Get(RootKeys[i], "") == script.Get(RootKeys[i], "") {
      var j := if i < 7 then i else i + 1;
      assert RootKeys[i] == AppsData.ScriptKeys[j] && RootSourceKeys[i] == AppsData.SourceKeys[j];
      assert j != AppsData.KeywordsColumn;
    }
  }

  /**
   * `[fetch_app_details(app["appId"]) for app in apps]` with this file's own
   * 10-column `fetch_app_details`. It mirrors `AppsData.Fetched` instead of
   * sharing one definition over a fetch-function parameter, because two
   * lambdas that are written alike need not be provably equal in Dafny.
   */
  function Fetched(store: AppsData.AppStore, apps: seq<AppsData.Hit>, vectorize: Vectorizer): (r: seq<Option<Dict>>)
    ensures |r| == |apps|
    ensures forall i :: 0 <= i < |apps| ==> r[i] == FetchAppDetails(store, apps[i].appId, vectorize)
  {
    seq(|apps|, i requires 0 <= i < |apps| => FetchAppDetails(store, apps[i].appId, vectorize))
  }

  /**
   * The 10-column details of each hit with the failures removed: only fetched
   * records, every app `app` answers for, and all of them in order when none fails.
   */
  function DetailsOf(store: AppsData.AppStore, apps: seq<AppsData.Hit>, vectorize: Vectorizer): (r: seq<Dict>)
    ensures |r| <= |apps|
    ensures forall d :: d in r ==> d.keys == RootKeys
    ensures forall d :: d in r ==> exists i :: 0 <= i < |apps| && FetchAppDetails(store, apps[i].appId, vectorize) == Some(d)
    ensures forall i :: 0 <= i < |apps| && apps[i].appId in store ==> FetchAppDetails(store, apps[i].appId, vectorize).value in r
    ensures (forall i :: 0 <= i < |apps| ==> apps[i].appId in store) ==>
              |r| == |apps| && forall i :: 0 <= i < |apps| ==> r[i] == FetchAppDetails(store, apps[i].appId, vectorize).value
  {
    var fetched := Fetched(store, apps, vectorize);
    var r := FilterSome(fetched);
    assert forall d :: d in r ==> Some(d) in fetched;
    r
  }

  /**
   * Fetching a concatenation fetches each part: details come out in search
   * order. This is `AppsData.DetailsOfAppend` for the 10-column fetch.
   */
  lemma DetailsOfAppend(store: AppsData.AppStore, a: seq<AppsData.Hit>, b: seq<AppsData.Hit>, vectorize: Vectorizer)
    ensures DetailsOf(store, a + b, vectorize) == DetailsOf(store, a, vectorize) + DetailsOf(store, b, vectorize)
  {
    assert Fetched(store, a + b, vectorize) == Fetched(store, a, vectorize) + Fetched(store, b, vectorize);
    FilterSomeAppend(Fetched(store, a, vectorize), Fetched(store, b, vectorize));
  }

  /**
   * `fetch_apps_by_category`: one search; the details of each hit in search
   * order, `None`s removed; a search that raises gives `[]`.
   */
  function FetchAppsByCategory(req: AppsData.Request, search: AppsData.Search, store: AppsData.AppStore, vectorize: Vectorizer): (r: seq<Dict>)
    ensures search(AppsData.QueryAt(req, 0)).None? ==> r == []
    ensures search(AppsData.QueryAt(req, 0)).Some? ==>
              var apps := search(AppsData.QueryAt(req, 0)).value;
              && r == DetailsOf(store, apps, vectorize)
              && |r| <= |apps|
              && (forall d :: d in r ==> d.keys == RootKeys)
              && (forall d :: d in r ==> exists i :: 0 <= i < |apps| && Some(d) == FetchAppDetails(store, apps[i].appId, vectorize))
              && (forall i :: 0 <= i < |apps| && apps[i].appId in store ==> FetchAppDetails(store, apps[i].appId, vectorize).value in r)
              && ((forall i :: 0 <= i < |apps| ==> apps[i].appId in store) ==>
                    |r| == |apps| && forall i :: 0 <= i < |apps| ==> r[i] == FetchAppDetails(store, apps[i].appId, vectorize).value)
  {
    match search(AppsData.QueryAt(req, 0))
    case None => []
    case Some(apps) => DetailsOf(store, apps, vectorize)
  }
}
