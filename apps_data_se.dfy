/**
 * script/apps_data_se.py, the Selenium scraper: per-listing record
 * assembly, the catalog link set and its per-link dispatch, the catalog URL
 * and the output file name. The root apps_data_se.py has its own
 * `scrape_play_store_app_details`, `scrape_play_store` and
 * `get_text_from_html`, which behave the same once driver creation is left
 * aside, so this module models both files; its own `save_to_csv` is
 * `Utils.FileSystem.SaveToCsvHere`.
 *
 * The browser is abstracted: a listing page is the map from each looked-up
 * element to the string the driver returns for it (absent when
 * `find_element` raises), and a catalog page is what `find_elements`
 * returns after each scroll.
 */
module AppsDataSe {
  import opened Wrappers
  import opened Text
  import opened Dicts
  import opened Utils

  const NotAvailable: string := "N/A"
  const ScrollPasses: nat := 20
  const CatalogBase: string := "https://play.google.com/store/apps/category/"
  const CountryQuery: string := "?gl="
  const FileSuffix: string := "_file.csv"

  /** The record's columns, in the order the scraper returns them. */
  const RecordKeys: seq<string> := [
    "Category", "App name", "Downloads no.", "Last update", "Developer website",
    "Developer email", "Developer phone", "Developer address", "App URL",
    "Keywords", "Short Description"]

  /** The elements a listing page is searched for. */
  datatype Field =
    | Title        // `.text` of the name span
    | Installs     // outer HTML of the downloads div
    | LastUpdated  // `.text` of the "Updated on" div
    | Website      // `href` of the website link
    | Email        // outer HTML of the e-mail div
    | Phone        // outer HTML of the phone div
    | Address      // outer HTML of the address div
    | Summary      // outer HTML of the description div

  /** What the driver returns per element; a missing field is a raised lookup. */
  type Page = map<Field, string>

  /**
   * `catalogs`: for each URL that loads, the hrefs `find_elements` returns
   * after each scroll; `pages`: each listing URL that loads.
   */
  datatype Browser = Browser(catalogs: map<string, nat -> seq<string>>, pages: map<string, Page>)

  /** The exceptions that escape `scrape_play_store`: `driver.get` raising. */
  datatype ScrapeError = CatalogLoadFailed(url: string) | PageLoadFailed(link: string)

  // ---------------------------------------------------------------------
  // scrape_play_store_app_details
  // ---------------------------------------------------------------------

  /** A field read as `.text` or `get_attribute("href")`, or "N/A". */
  function PlainField(page: Page, f: Field): (r: string)
    ensures f in page ==> r == page[f]
    ensures f !in page ==> r == NotAvailable
  {
    if f in page then page[f] else NotAvailable
  }

  /** A field read through `get_text_from_html` of its outer HTML, or "N/A". */
  function HtmlField(page: Page, f: Field): (r: string)
    ensures f !in page ==> r == NotAvailable
    ensures f in page ==> r == GetTextFromHtml(page[f])
    ensures f in page ==> |r| <= |page[f]| && IsSlice(r, page[f])
    ensures f in page ==> r == [] || (!IsSpace(r[0]) && !IsSpace(r[|r| - 1]))
  {
    if f in page then GetTextFromHtml(page[f]) else NotAvailable
  }

  /** The summary handed to `extract_keywords`: "" when its element is missing. */
  function SummaryText(page: Page): (r: string)
    ensures Summary !in page ==> r == ""
    ensures Summary in page ==> r == HtmlField(page, Summary)
  {
    if Summary in page then GetTextFromHtml(page[Summary]) else ""
  }

  /**
   * What the record for one listing holds: the 11 columns in order, each the
   * looked-up value or "N/A"; the address only "" (found, but stored under
   * another key than the one read back) or "N/A"; keywords from the summary.
   */
  predicate DescribesPage(r: Dict, page: Page, appUrl: string, category: string, vectorize: Vectorizer) {
    && r.Valid()
    && r.keys == RecordKeys
    && r.Get("Category", "") == category
    && r.Get("App name", "") == PlainField(page, Title)
    && r.Get("Downloads no.", "") == HtmlField(page, Installs)
    && r.Get("Last update", "") == PlainField(page, LastUpdated)
    && r.Get("Developer website", "") == PlainField(page, Website)
    && r.Get("Developer email", "") == HtmlField(page, Email)
    && r.Get("Developer phone", "") == HtmlField(page, Phone)
    && r.Get("Developer address", "") == (if Address in page then "" else NotAvailable)
    && r.Get("App URL", "") == appUrl
    && r.Get("Keywords", "") == ExtractKeywords(SummaryText(page), DefaultTopN, vectorize)
    && r.Get("Short Description", "") == HtmlField(page, Summary)
  }

  /** The 11-column record with the given values, in column order. */
  function Record(category: string, name: string, downloads: string, updated: string, website: string,
                  email: string, phone: string, address: string, url: string, keywords: string,
                  description: string): (r: Dict)
    ensures r.keys == RecordKeys
    ensures r.Get("Category", "") == category
    ensures r.Get("App name", "") == name
    ensures r.Get("Downloads no.", "") == downloads
    ensures r.Get("Last update", "") == updated
    ensures r.Get("Developer website", "") == website
    ensures r.Get("Developer email", "") == email
    ensures r.Get("Developer phone", "") == phone
    ensures r.Get("Developer address", "") == address
    ensures r.Get("App URL", "") == url
    ensures r.Get("Keywords", "") == keywords
    ensures r.Get("Short Description", "") == description
  {
    Dict(RecordKeys, map[
      "Category" := category, "App name" := name, "Downloads no." := downloads,
      "Last update" := updated, "Developer website" := website, "Developer email" := email,
      "Developer phone" := phone, "Developer address" := address, "App URL" := url,
      "Keywords" := keywords, "Short Description" := description])
  }

  /** Every such record is a well-formed dict. */
  lemma RecordValid(category: string, name: string, downloads: string, updated: string, website: string,
                    email: string, phone: string, address: string, url: string, keywords: string,
                    description: string)
    ensures Record(category, name, downloads, updated, website, email, phone, address, url, keywords, description).Valid()
  {
  }

  /** The record `scrape_play_store_app_details` builds for a page: its 11 columns. */
  function PageRecord(page: Page, appUrl: string, category: string, vectorize: Vectorizer): (r: Dict)
    ensures r.keys == RecordKeys
    ensures r.Get("App URL", "") == appUrl
  {
    Record(category, PlainField(page, Title), HtmlField(page, Installs), PlainField(page, LastUpdated),
           PlainField(page, Website), HtmlField(page, Email), HtmlField(page, Phone),
           if Address in page then "" else NotAvailable, appUrl,
           ExtractKeywords(SummaryText(page), DefaultTopN, vectorize), HtmlField(page, Summary))
  }

  /** That record is the one the page describes. */
  lemma PageRecordDescribes(page: Page, appUrl: string, category: string, vectorize: Vectorizer)
    ensures DescribesPage(PageRecord(page, appUrl, category, vectorize), page, appUrl, category, vectorize)
  {
    RecordValid(category, PlainField(page, Title), HtmlField(page, Installs), PlainField(page, LastUpdated),
                PlainField(page, Website), HtmlField(page, Email), HtmlField(page, Phone),
                if Address in page then "" else NotAvailable, appUrl,
                ExtractKeywords(SummaryText(page), DefaultTopN, vectorize), HtmlField(page, Summary));
  }

  /** What `.get` reads back from the filled `details` dict. */
  lemma DetailsLookups(category: string, title: string, installs: string, updated: string, website: string,
                       email: string, phone: string, addressFound: bool, address: string, url: string,
                       keywords: string, description: string, details: map<string, string>)
    requires details ==
      (var d := map["genre" := category, "title" := title, "realInstalls" := installs, "lastUpdatedOn" := updated,
                    "developerWebsite" := website, "developerEmail" := email, "developerPhone" := phone];
       var d := if addressFound then d["developer_address" := address] else d["developerAddress" := address];
       d["url" := url]["keywords" := keywords]["summary" := description])
    ensures Lookup(details, "genre", "") == category
    ensures Lookup(details, "title", "") == title
    ensures Lookup(details, "realInstalls", "") == installs
    ensures Lookup(details, "lastUpdatedOn", "") == updated
    ensures Lookup(details, "developerWebsite", "") == website
    ensures Lookup(details, "developerEmail", "") == email
    ensures Lookup(details, "developerPhone", "") == phone
    ensures Lookup(details, "developerAddress", "") == (if addressFound then "" else address)
    ensures Lookup(details, "url", "") == url
    ensures Lookup(details, "keywords", "") == keywords
    ensures Lookup(details, "summary", "") == description
  {
  }

  /**
   * Fills the `details` dict one guarded lookup at a time, then projects it
   * onto the 11 columns with `.get(key, "")`.
   */
  method ScrapeAppDetails(page: Page, appUrl: string, category: string, vectorize: Vectorizer)
    returns (r: Dict)
    ensures r == PageRecord(page, appUrl, category, vectorize)
    ensures Summary !in page ==> r.Get("Keywords", "") == "" && r.Get("Short Description", "") == NotAvailable
  {
    var title, installs, updated := PlainField(page, Title), HtmlField(page, Installs), PlainField(page, LastUpdated);
    var website, email, phone := PlainField(page, Website), HtmlField(page, Email), HtmlField(page, Phone);
    var summary, description := SummaryText(page), HtmlField(page, Summary);
    var keywords := ExtractKeywords(summary, DefaultTopN, vectorize);
    var details: map<string, string> := map["genre" := category];
    details := details["title" := title];
    details := details["realInstalls" := installs];
    details := details["lastUpdatedOn" := updated];
    details := details["developerWebsite" := website];
    details := details["developerEmail" := email];
    details := details["developerPhone" := phone];
    if Address in page {
      details := details["developer_address" := GetTextFromHtml(page[Address])];
    } else {
      details := details["developerAddress" := NotAvailable];
    }
    details := details["url" := appUrl];
    details := details["keywords" := keywords];
    details := details["summary" := description];
    DetailsLookups(category, title, installs, updated, website, email, phone, Address in page,
                   if Address in page then GetTextFromHtml(page[Address]) else NotAvailable, appUrl, keywords, description, details);
    r := Record(
      Lookup(details, "genre", ""), Lookup(details, "title", ""),
      Lookup(details, "realInstalls", ""), Lookup(details, "lastUpdatedOn", ""),
      Lookup(details, "developerWebsite", ""), Lookup(details, "developerEmail", ""),
      Lookup(details, "developerPhone", ""), Lookup(details, "developerAddress", ""),
      Lookup(details, "url", ""), Lookup(details, "keywords", ""), Lookup(details, "summary", ""));
  }

  /** The address column never carries the extracted address text. */
  lemma AddressNeverExtracted(page: Page, appUrl: string, category: string, vectorize: Vectorizer)
    ensures var a := PageRecord(page, appUrl, category, vectorize).Get("Developer address", "");
            && (a == "" || a == NotAvailable)
            && (Address in page ==> a == "")
            && (Address in page && GetTextFromHtml(page[Address]) !in {"", NotAvailable} ==> a != GetTextFromHtml(page[Address]))
  {
    PageRecordDescribes(page, appUrl, category, vectorize);
  }

  /** `PageRecord` is the only record that describes the page: the description leaves nothing open. */
  lemma DescribesPageUnique(r: Dict, page: Page, appUrl: string, category: string, vectorize: Vectorizer)
    requires DescribesPage(r, page, appUrl, category, vectorize)
    ensures r == PageRecord(page, appUrl, category, vectorize)
  {
    PageRecordDescribes(page, appUrl, category, vectorize);
    SameRecord(r, PageRecord(page, appUrl, category, vectorize));
  }

  /** Two well-formed records that agree on each of the 11 columns are the same dict. */
  lemma SameRecord(r1: Dict, r2: Dict)
    requires r1.Valid() && r2.Valid() && r1.keys == RecordKeys && r2.keys == RecordKeys
    requires r1.Get("Category", "") == r2.Get("Category", "")
    requires r1.Get("App name", "") == r2.Get("App name", "")
    requires r1.Get("Downloads no.", "") == r2.Get("Downloads no.", "")
    requires r1.Get("Last update", "") == r2.Get("Last update", "")
    requires r1.Get("Developer website", "") == r2.Get("Developer website", "")
    requires r1.Get("Developer email", "") == r2.Get("Developer email", "")
    requires r1.Get("Developer phone", "") == r2.Get("Developer phone", "")
    requires r1.Get("Developer address", "") == r2.Get("Developer address", "")
    requires r1.Get("App URL", "") == r2.Get("App URL", "")
    requires r1.Get("Keywords", "") == r2.Get("Keywords", "")
    requires r1.Get("Short Description", "") == r2.Get("Short Description", "")
    ensures r1 == r2
  {
    forall i | 0 <= i < |RecordKeys| ensures r1.Get(RecordKeys[i], "") == r2.Get(RecordKeys[i], "") {
      assert i in {0, 1, 2, 3, 4, 5, 6, 7, 8, 9, 10};
    }
    SameEntries(r1, r2);
  }

  /**
   * A page where every lookup fails still gives the full 11-column record:
   * the category and URL from the arguments, empty keywords, "N/A" elsewhere.
   */
  lemma BlankPageRecord(appUrl: string, category: string, vectorize: Vectorizer)
    ensures var r := PageRecord(map[], appUrl, category, vectorize);
            && r.Get("Category", "") == category && r.Get("App URL", "") == appUrl && r.Get("Keywords", "") == ""
            && r.Get("App name", "") == r.Get("Downloads no.", "") == r.Get("Last update", "") == NotAvailable
            && r.Get("Developer website", "") == r.Get("Developer email", "") == r.Get("Developer phone", "") == NotAvailable
            && r.Get("Developer address", "") == r.Get("Short Description", "") == NotAvailable
  {
    PageRecordDescribes(map[], appUrl, category, vectorize);
  }

  // ---------------------------------------------------------------------
  // scrape_play_store and get_apps_data
  // ---------------------------------------------------------------------

  /** The catalog page for a category in a country. */
  function CatalogUrl(category: string, countryCode: string): (r: string)
    ensures |r| == |CatalogBase| + |category| + |CountryQuery| + |countryCode|
    ensures r[..|CatalogBase|] == CatalogBase
    ensures r[|CatalogBase|..|CatalogBase| + |category|] == category
    ensures r[|CatalogBase| + |category|..|CatalogBase| + |category| + |CountryQuery|] == CountryQuery
    ensures r[|r| - |countryCode|..] == countryCode
  {
    CatalogBase + category + CountryQuery + countryCode
  }

  /** Reads the category and country code back out of a catalog URL. */
  function ParseCatalogUrl(url: string): Option<(string, string)> {
    if |url| < |CatalogBase| || url[..|CatalogBase|] != CatalogBase then None
    else
      var rest := url[|CatalogBase|..];
      var k := Find(rest, CountryQuery);
      if k < 0 then None else Some((rest[..k], rest[k + |CountryQuery|..]))
  }

  /** A catalog URL gives back its category and country code. */
  lemma CatalogUrlRoundTrip(category: string, countryCode: string)
    requires '?' !in category
    ensures ParseCatalogUrl(CatalogUrl(category, countryCode)) == Some((category, countryCode))
  {
    var url := CatalogUrl(category, countryCode);
    var rest := category + CountryQuery + countryCode;
    assert url[..|CatalogBase|] == CatalogBase;
    assert url[|CatalogBase|..] == rest;
    FindAfterFirst(category, CountryQuery, countryCode);
    assert rest[..|category|] == category;
    assert rest[|category| + |CountryQuery|..] == countryCode;
  }

  /** The URL `scrape_play_store` loads names the upper-cased category and country. */
  lemma ScrapedCatalogIsUpperCase(category: string, countryCode: string)
    requires '?' !in category
    ensures ParseCatalogUrl(CatalogUrl(Upper(category), Upper(countryCode))) == Some((Upper(category), Upper(countryCode)))
    ensures forall c :: c in Upper(category) + Upper(countryCode) ==> !IsLower(c)
  {
    assert '?' !in Upper(category);
    CatalogUrlRoundTrip(Upper(category), Upper(countryCode));
  }

  /**
   * The catalog pass: `for _ in range(20)` scrolls, adds every href it sees
   * and breaks, so only what was visible after the first scroll is kept.
   */
  method CollectLinks(visibleAfterScroll: nat -> seq<string>) returns (appLinks: set<string>)
    ensures forall link :: link in appLinks <==> link in visibleAfterScroll(0)
  {
    appLinks := {};
    for pass := 0 to ScrollPasses
      invariant pass == 0
    {
      var apps := visibleAfterScroll(pass);
      for k := 0 to |apps|
        invariant forall link :: link in appLinks <==> link in apps[..k]
      {
        appLinks := appLinks + {apps[k]};
      }
      assert apps[..|apps|] == apps;
      break;
    }
  }

  /** The URL column of each record, in order. */
  function Urls(records: seq<Dict>): (r: seq<string>)
    ensures |r| == |records|
  {
    seq(|records|, i requires 0 <= i < |records| => records[i].Get("App URL", ""))
  }

  /** Each record describes the page its URL column names. */
  ghost predicate AllDescribed(records: seq<Dict>, pages: map<string, Page>, category: string, vectorize: Vectorizer) {
    forall i :: 0 <= i < |records| ==>
      var u := records[i].Get("App URL", "");
      u in pages && records[i] == PageRecord(pages[u], u, category, vectorize)
  }

  /**
   * One record per distinct link, each describing that link's page with the
   * given category.
   */
  ghost predicate ScrapedAll(records: seq<Dict>, links: set<string>, pages: map<string, Page>, category: string, vectorize: Vectorizer) {
    var urls := Urls(records);
    && |records| == |links|
    && (forall u :: u in urls <==> u in links)
    && (forall i, j :: 0 <= i < j < |urls| ==> urls[i] != urls[j])
    && AllDescribed(records, pages, category, vectorize)
  }

  lemma UrlsSnoc(records: seq<Dict>, r: Dict)
    ensures Urls(records + [r]) == Urls(records) + [r.Get("App URL", "")]
  {
  }

  lemma AllDescribedSnoc(records: seq<Dict>, r: Dict, pages: map<string, Page>, category: string, vectorize: Vectorizer)
    requires AllDescribed(records, pages, category, vectorize)
    requires var u := r.Get("App URL", ""); u in pages && r == PageRecord(pages[u], u, category, vectorize)
    ensures AllDescribed(records + [r], pages, category, vectorize)
  {
    forall i | 0 <= i < |records| + 1
      ensures var u := (records + [r])[i].Get("App URL", "");
              u in pages && (records + [r])[i] == PageRecord(pages[u], u, category, vectorize)
    {
      if i < |records| {
        assert (records + [r])[i] == records[i];
      }
    }
  }

  /** Every described record has its 11 keys, so none of them is dropped as falsy. */
  lemma AllDescribedTruthy(records: seq<Dict>, pages: map<string, Page>, category: string, vectorize: Vectorizer)
    requires AllDescribed(records, pages, category, vectorize)
    ensures KeepTruthy(records) == records
  {
    forall i | 0 <= i < |records| ensures records[i].Truthy() {
      var u := records[i].Get("App URL", "");
      assert records[i] == PageRecord(pages[u], u, category, vectorize);
    }
  }

  /** The links the catalog pass gathers for a category and country, if the catalog loads. */
  function CatalogLinks(browser: Browser, category: string, countryCode: string): Option<set<string>> {
    var url := CatalogUrl(Upper(category), Upper(countryCode));
    if url in browser.catalogs then Some(set link | link in browser.catalogs[url](0)) else None
  }

  /** A sequence without repeats that lists exactly the elements of `xs` has `|xs|` elements. */
  lemma {:induction false} DistinctCard(s: seq<string>, xs: set<string>)
    requires forall i, j :: 0 <= i < j < |s| ==> s[i] != s[j]
    requires forall x :: x in s <==> x in xs
    ensures |s| == |xs|
  {
    if s != [] {
      var last := s[|s| - 1];
      var init := s[..|s| - 1];
      assert forall x :: x in s <==> x in init || x == last by {
        assert s == init + [last];
      }
      DistinctCard(init, xs - {last});
    } else {
      assert xs == {};
    }
  }

  /**
   * The dispatch loop of `scrape_play_store`: scrape every link in the set's
   * (unspecified) order; a link whose page does not load raises.
   */
  method ScrapeLinks(appLinks: set<string>, pages: map<string, Page>, category: string, vectorize: Vectorizer)
    returns (result: Result<seq<Dict>, ScrapeError>)
    ensures result.Success? <==> appLinks <= pages.Keys
    ensures result.Failure? ==> result.error.PageLoadFailed? && result.error.link in appLinks && result.error.link !in pages
    ensures result.Success? ==> ScrapedAll(result.value, appLinks, pages, category, vectorize)
  {
    var remaining := appLinks;
    var appDetails: seq<Dict> := [];
    ghost var visited: seq<string> := [];
    while remaining != {}
      invariant remaining <= appLinks
      invariant forall u :: u in visited <==> u in appLinks && u !in remaining
      invariant forall i, j :: 0 <= i < j < |visited| ==> visited[i] != visited[j]
      invariant Urls(appDetails) == visited
      invariant AllDescribed(appDetails, pages, category, vectorize)
      decreases remaining
    {
      var link :| link in remaining;
      if link !in pages {
        return Failure(PageLoadFailed(link));
      }
      var record := ScrapeAppDetails(pages[link], link, category, vectorize);
      UrlsSnoc(appDetails, record);
      AllDescribedSnoc(appDetails, record, pages, category, vectorize);
      appDetails := appDetails + [record];
      visited := visited + [link];
      remaining := remaining - {link};
    }
    DistinctCard(visited, appLinks);
    AllDescribedTruthy(appDetails, pages, category, vectorize);
    result := Success(KeepTruthy(appDetails));
  }

  /**
   * `scrape_play_store`: upper-case both inputs, load the catalog, gather
   * the link set, scrape every link and drop falsy records. A `driver.get`
   * that raises escapes as the error.
   */
  method ScrapePlayStore(category: string, countryCode: string, browser: Browser, vectorize: Vectorizer)
    returns (result: Result<seq<Dict>, ScrapeError>)
    ensures CatalogLinks(browser, category, countryCode).None? ==>
              result == Failure(CatalogLoadFailed(CatalogUrl(Upper(category), Upper(countryCode))))
    ensures CatalogLinks(browser, category, countryCode).Some? ==>
              var links := CatalogLinks(browser, category, countryCode).value;
              && (result.Success? <==> links <= browser.pages.Keys)
              && (result.Failure? ==> result.error.PageLoadFailed? && result.error.link in links && result.error.link !in browser.pages)
              && (result.Success? ==> ScrapedAll(result.value, links, browser.pages, Upper(category), vectorize))
  {
    var upperCategory, upperCountry := Upper(category), Upper(countryCode);
    var url := CatalogUrl(upperCategory, upperCountry);
    if url !in browser.catalogs {
      return Failure(CatalogLoadFailed(url));
    }
    var appLinks := CollectLinks(browser.catalogs[url]);
    assert appLinks == CatalogLinks(browser, category, countryCode).value;
    result := ScrapeLinks(appLinks, browser.pages, upperCategory, vectorize);
  }

  /** Described records all have the record's columns, so each fits under that header. */
  lemma AllDescribedFit(records: seq<Dict>, pages: map<string, Page>, category: string, vectorize: Vectorizer)
    requires AllDescribed(records, pages, category, vectorize)
    ensures forall i :: 0 <= i < |records| ==> records[i].keys == RecordKeys
    ensures AllFit(RecordKeys, records)
  {
    forall i | 0 <= i < |records| ensures records[i].keys == RecordKeys {
      var u := records[i].Get("App URL", "");
      assert records[i] == PageRecord(pages[u], u, category, vectorize);
    }
  }

  /**
   * `get_apps_data`'s output name: the category with spaces turned into
   * underscores and lower-cased, then the caller's country code as given.
   */
  function OutputFileName(category: string, countryCode: string): (r: string)
    ensures |r| == |category| + 2 + |countryCode| + |FileSuffix|
    ensures r[|category|..] == "__" + countryCode + FileSuffix
    ensures ' ' !in r[..|category|]
    ensures forall i :: 0 <= i < |category| ==> !IsUpper(r[i])
    ensures forall i :: 0 <= i < |category| ==> r[i] == if category[i] == ' ' then '_' else LowerChar(category[i])
  {
    var stem := Lower(ReplaceChar(category, ' ', '_'));
    assert (stem + "__" + countryCode + FileSuffix)[..|category|] == stem;
    stem + "__" + countryCode + FileSuffix
  }

  /** Lower-casing and replacing spaces commute, character by character. */
  lemma LowerReplaceCommute(s: string)
    ensures Lower(ReplaceChar(s, ' ', '_')) == ReplaceChar(Lower(s), ' ', '_')
  {
  }

  /**
   * The file name ignores the category's letter case but keeps the country
   * code's: "MEDICAL"/"medical" share a file, "AE"/"ae" do not.
   */
  lemma OutputFileNameCase(c1: string, c2: string, k1: string, k2: string)
    ensures Lower(c1) == Lower(c2) ==> OutputFileName(c1, k1) == OutputFileName(c2, k1)
    ensures k1 != k2 ==> OutputFileName(c1, k1) != OutputFileName(c1, k2)
  {
    LowerReplaceCommute(c1);
    LowerReplaceCommute(c2);
    if k1 != k2 && |k1| == |k2| {
      assert OutputFileName(c1, k1)[|c1|..] != OutputFileName(c1, k2)[|c1|..] by {
        assert ("__" + k1 + FileSuffix)[2..2 + |k1|] == k1;
        assert ("__" + k2 + FileSuffix)[2..2 + |k2|] == k2;
      }
    }
  }

  /**
   * `get_apps_data`: scrape, then save under `data/` with the name built from
   * the original arguments. The scrape's errors escape before anything is written.
   */
  method GetAppsData(fs: FileSystem, category: string, countryCode: string, browser: Browser, vectorize: Vectorizer)
    returns (result: Result<Option<string>, ScrapeError>, ghost records: seq<Dict>)
    modifies fs
    ensures result.Failure? ==> fs.files == old(fs.files)
    ensures result.Success? <==>
              CatalogLinks(browser, category, countryCode).Some? &&
              CatalogLinks(browser, category, countryCode).value <= browser.pages.Keys
    ensures result.Success? ==>
              var links := CatalogLinks(browser, category, countryCode).value;
              var p := PathJoin(DataFolder, OutputFileName(category, countryCode));
              && (links == {} || p in fs.unwritable ==> result.value == None && fs.files == old(fs.files))
              && (links != {} && p !in fs.unwritable ==>
                    && result.value == Some(AbsPath(fs.cwd, p))
                    && ScrapedAll(records, links, browser.pages, Upper(category), vectorize)
                    && fs.files == old(fs.files)[p := Rewritten(records)]
                    && |fs.files[p]| == |links| + 1
                    && fs.files[p][0] == Header(RecordKeys)
                    && forall i :: 1 <= i < |fs.files[p]| ==> fs.files[p][i] == Cells(CellsOf(RecordKeys, records[i - 1])))
  {
    var appsData := ScrapePlayStore(category, countryCode, browser, vectorize);
    if appsData.Failure? {
      return Failure(appsData.error), [];
    }
    var scraped := appsData.value;
    AllDescribedFit(scraped, browser.pages, Upper(category), vectorize);
    var outputFile := OutputFileName(category, countryCode);
    var filePath := fs.SaveToCsv(outputFile, scraped);
    return Success(filePath), scraped;
  }
}
