/**
 * script/utils.py: the HTML text slicer, the keyword guard and the two CSV
 * sinks. The plain `save_to_csv` that apps_data.py, apps_data_se.py and
 * script/apps_data.py each define (no folder, no return value) lives here
 * as well, beside the folder-aware one.
 */
module Utils {
  import opened Wrappers
  import opened Text
  import opened Dicts

  // ---------------------------------------------------------------------
  // get_text_from_html
  // ---------------------------------------------------------------------

  const CloseDiv: string := "</div>"

  /** `t` is a contiguous piece of `s`. */
  ghost predicate IsSlice(t: string, s: string) {
    exists i :: OccursAt(s, t, i)
  }

  /** A slice of a slice is a slice. */
  lemma SliceOfSlice(s: string, a: nat, b: nat, t: string)
    requires a <= b <= |s| && IsSlice(t, s[a..b])
    ensures IsSlice(t, s)
  {
    var i :| OccursAt(s[a..b], t, i);
    forall k | 0 <= k < |t| ensures s[a + i + k] == t[k] {
      assert t[k] == s[a..b][i..i + |t|][k] == s[a..b][i + k];
    }
    assert s[a + i..a + i + |t|] == t;
    assert OccursAt(s, t, a + i);
  }

  /** A slice of a slice of `s` is a slice of `s`. */
  lemma SliceTransitive(t: string, u: string, s: string)
    requires IsSlice(t, u) && IsSlice(u, s)
    ensures IsSlice(t, s)
  {
    var j :| OccursAt(s, u, j);
    assert u == s[j..j + |u|];
    SliceOfSlice(s, j, j + |u|, t);
  }

  /** `s[i:j]` is a slice of `s`. */
  lemma PySliceIsSlice(s: string, i: int, j: int)
    ensures IsSlice(PySlice(s, i, j), s)
  {
    var a, b := SliceBound(i, |s|), SliceBound(j, |s|);
    if a < b {
      assert OccursAt(s, s[a..b], a);
    } else {
      assert s[0..0] == [];
      assert OccursAt(s, [], 0);
    }
  }

  /** `s.strip()` is a slice of `s`. */
  lemma StripIsSlice(s: string)
    ensures IsSlice(Strip(s), s)
  {
    var r := Strip(s);
    var i :| SpaceAround(s, r, i);
    assert OccursAt(s, r, i);
  }

  /**
   * The text between the first `>` and the last `</div>`, stripped. Python's
   * `find` gives -1 without a `>`, so the slice starts at 0; `rfind` gives -1
   * without a `</div>`, and the slice then stops one character short of the end.
   */
  function GetTextFromHtml(html: string): (r: string)
    ensures |r| <= |html|
    ensures r == [] || (!IsSpace(r[0]) && !IsSpace(r[|r| - 1]))
    ensures IsSlice(r, html)
  {
    var piece := PySlice(html, Find(html, ">") + 1, RFind(html, CloseDiv));
    PySliceIsSlice(html, Find(html, ">") + 1, RFind(html, CloseDiv));
    StripIsSlice(piece);
    SliceTransitive(Strip(piece), piece, html);
    Strip(piece)
  }

  /** A one-character string occurs exactly where that character stands. */
  lemma OccursChar(s: string, c: char, j: int)
    ensures OccursAt(s, [c], j) <==> 0 <= j < |s| && s[j] == c
  {
    if 0 <= j < |s| {
      assert s[j..j + 1][0] == s[j];
    }
  }

  /** `s.find(c)` is the index of the first `c`. */
  lemma FindFirstChar(s: string, c: char, k: nat)
    requires k < |s| && s[k] == c && c !in s[..k]
    ensures Find(s, [c]) == k
  {
    OccursChar(s, c, k);
    forall j | 0 <= j < k ensures !OccursAt(s, [c], j) {
      OccursChar(s, c, j);
      assert s[j] == s[..k][j];
    }
  }

  /** `s.find(c)` is -1 when `c` is absent. */
  lemma FindNoChar(s: string, c: char)
    requires c !in s
    ensures Find(s, [c]) == -1
  {
    forall j ensures !OccursAt(s, [c], j) {
      OccursChar(s, c, j);
    }
  }

  /** The text of `<div attrs>s</div>` is `s` stripped, whatever `s` holds. */
  lemma TextOfWrappedDiv(attrs: string, s: string)
    requires '>' !in attrs
    ensures GetTextFromHtml("<div" + attrs + ">" + s + CloseDiv) == Strip(s)
  {
    var html := "<div" + attrs + ">" + s + CloseDiv;
    var k := 4 + |attrs|;
    assert html[..k] == "<div" + attrs;
    FindFirstChar(html, '>', k);
    var e := |html| - 6;
    assert html[e..e + 6] == CloseDiv;
    assert OccursAt(html, CloseDiv, e);
    assert RFind(html, CloseDiv) == e;
    assert html[k + 1..e] == s;
  }

  /** Without `>` and without `</div>` the slice is `html[0:-1]`: the last character is lost. */
  lemma TextWithoutMarkup(html: string)
    requires |html| > 0 && '>' !in html
    requires forall j :: !OccursAt(html, CloseDiv, j)
    ensures GetTextFromHtml(html) == Strip(html[..|html| - 1])
  {
    FindNoChar(html, '>');
    assert RFind(html, CloseDiv) == -1;
    var n := |html| - 1;
    assert SliceBound(0, |html|) == 0 && SliceBound(-1, |html|) == n;
    assert PySlice(html, 0, -1) == html[..n] by {
      if n == 0 {
        assert html[..n] == [];
      }
    }
  }

  /** Without `</div>` the slice runs from after the first `>` to one before the end, or is empty. */
  lemma TextWithoutCloseTag(html: string, k: nat)
    requires k < |html| && html[k] == '>' && '>' !in html[..k]
    requires forall j :: !OccursAt(html, CloseDiv, j)
    ensures GetTextFromHtml(html) == if k + 1 < |html| - 1 then Strip(html[k + 1..|html| - 1]) else ""
  {
    FindFirstChar(html, '>', k);
    assert RFind(html, CloseDiv) == -1;
    assert SliceBound(-1, |html|) == |html| - 1;
  }

  /** When the last `</div>` starts at or before the character after the first `>`, the text is empty. */
  lemma TextEmptyWhenCloseComesFirst(html: string, k: nat, e: nat)
    requires k < |html| && html[k] == '>' && '>' !in html[..k]
    requires OccursAt(html, CloseDiv, e)
    requires forall j :: OccursAt(html, CloseDiv, j) ==> j <= k + 1
    ensures GetTextFromHtml(html) == ""
  {
    FindFirstChar(html, '>', k);
  }

  // ---------------------------------------------------------------------
  // extract_keywords
  // ---------------------------------------------------------------------

  /**
   * The CountVectorizer fit, as an opaque function of the text and
   * `max_features`: the feature names it produces, or None when it raises.
   */
  type Vectorizer = (string, nat) -> Option<seq<string>>

  /** The default `top_n` of script/utils.py, script/apps_data.py and apps_data_se.py. */
  const DefaultTopN: nat := 15

  const KeywordSeparator: string := ", "

  /** Empty text, or a vectorizer that raises, gives "". */
  function ExtractKeywords(text: string, topN: nat, vectorize: Vectorizer): (r: string)
    ensures text == "" ==> r == ""
    ensures vectorize(text, topN).None? ==> r == ""
  {
    if text == "" then ""
    else
      match vectorize(text, topN)
      case None => ""
      case Some(features) => Join(features, KeywordSeparator)
  }

  /**
   * The keywords string splits back at ", " into exactly the vectorizer's
   * feature names; CountVectorizer's tokens are runs of word characters, so
   * none contains a comma.
   */
  lemma KeywordsSplitBack(text: string, topN: nat, vectorize: Vectorizer)
    requires text != ""
    requires vectorize(text, topN).Some? && |vectorize(text, topN).value| > 0
    requires forall t :: t in vectorize(text, topN).value ==> ',' !in t
    ensures SplitOn(ExtractKeywords(text, topN, vectorize), KeywordSeparator) == vectorize(text, topN).value
  {
    SplitJoin(vectorize(text, topN).value, KeywordSeparator);
  }

  // ---------------------------------------------------------------------
  // CSV rows as csv.DictWriter produces them
  // ---------------------------------------------------------------------

  /** One line of a CSV file: the header, or a record's cells in header order. */
  datatype Row = Header(names: seq<string>) | Cells(cells: seq<string>)

  /** DictWriter raises ValueError for a key that is not a field name. */
  predicate Fits(header: seq<string>, d: Dict) {
    forall i :: 0 <= i < |d.keys| ==> d.keys[i] in header
  }

  predicate AllFit(header: seq<string>, ds: seq<Dict>) {
    forall i :: 0 <= i < |ds| ==> Fits(header, ds[i])
  }

  /** The cells DictWriter writes for `d`: its value per field name, "" when it lacks one. */
  function CellsOf(header: seq<string>, d: Dict): (r: seq<string>)
    ensures |r| == |header|
    ensures forall i :: 0 <= i < |header| && header[i] in d.values ==> r[i] == d.values[header[i]]
    ensures forall i :: 0 <= i < |header| && header[i] !in d.values ==> r[i] == ""
  {
    seq(|header|, i requires 0 <= i < |header| => d.Get(header[i], ""))
  }

  /**
   * `writer.writerows(ds)`: one row per record, in order, until the first
   * record that does not fit, where the writer raises.
   */
  function DictRows(header: seq<string>, ds: seq<Dict>): (r: seq<Row>)
    ensures |r| <= |ds|
    ensures AllFit(header, ds) ==> |r| == |ds|
    ensures forall i :: 0 <= i < |r| ==> Fits(header, ds[i]) && r[i] == Cells(CellsOf(header, ds[i]))
    ensures |r| < |ds| ==> !Fits(header, ds[|r|])
  {
    if ds == [] || !Fits(header, ds[0]) then []
    else
      var rest := DictRows(header, ds[1..]);
      assert AllFit(header, ds) ==> AllFit(header, ds[1..]);
      [Cells(CellsOf(header, ds[0]))] + rest
  }

  /** The number of header rows in a file. */
  function HeaderCount(rows: seq<Row>): nat {
    if rows == [] then 0
    else (if rows[0].Header? then 1 else 0) + HeaderCount(rows[1..])
  }

  lemma {:induction false} HeaderCountConcat(a: seq<Row>, b: seq<Row>)
    ensures HeaderCount(a + b) == HeaderCount(a) + HeaderCount(b)
  {
    if a != [] {
      assert (a + b)[0] == a[0];
      assert (a + b)[1..] == a[1..] + b;
      HeaderCountConcat(a[1..], b);
      assert HeaderCount(a + b) == (if a[0].Header? then 1 else 0) + HeaderCount(a[1..] + b);
    } else {
      assert a + b == b;
    }
  }

  /** `writer.writerows` never writes a header row. */
  lemma {:induction false} NoHeaderInDictRows(header: seq<string>, ds: seq<Dict>)
    ensures HeaderCount(DictRows(header, ds)) == 0
  {
    if ds != [] && Fits(header, ds[0]) {
      NoHeaderInDictRows(header, ds[1..]);
    }
  }

  // ---------------------------------------------------------------------
  // Paths
  // ---------------------------------------------------------------------

  const DataFolder: string := "data"
  const TempFolder: string := "temp_data"

  /** `os.path.join(folder, name)`: an absolute `name` replaces the folder. */
  function PathJoin(folder: string, name: string): (r: string)
    ensures |name| <= |r| && r[|r| - |name|..] == name
    ensures |name| > 0 && name[0] == '/' ==> r == name
    ensures !(|name| > 0 && name[0] == '/') ==> |folder| < |r| && r[..|folder|] == folder && r[|folder|] == '/'
  {
    if |name| > 0 && name[0] == '/' then name else folder + "/" + name
  }

  /** `os.path.abspath(path)` for a working directory `cwd`, without normalisation. */
  function AbsPath(cwd: string, path: string): (r: string)
    ensures |path| <= |r| && r[|r| - |path|..] == path
    ensures |path| > 0 && path[0] == '/' ==> r == path
    ensures (|path| > 0 && path[0] == '/') || (|cwd| > 0 && cwd[0] == '/') ==> |r| > 0 && r[0] == '/'
  {
    if |path| > 0 && path[0] == '/' then path else cwd + "/" + path
  }

  /** What `open(path, "w")` followed by `writeheader` and `writerows` leaves in the file. */
  function Rewritten(ds: seq<Dict>): (r: seq<Row>)
    requires ds != []
    ensures 1 <= |r| <= |ds| + 1 && r[0] == Header(ds[0].keys) && HeaderCount(r) == 1
    ensures AllFit(ds[0].keys, ds) ==> |r| == |ds| + 1
    ensures forall i :: 1 <= i < |r| ==> r[i] == Cells(CellsOf(ds[0].keys, ds[i - 1]))
  {
    var rows := DictRows(ds[0].keys, ds);
    NoHeaderInDictRows(ds[0].keys, ds);
    HeaderCountConcat([Header(ds[0].keys)], rows);
    [Header(ds[0].keys)] + rows
  }

  /**
   * What `open(path, "a")`, the header when the file did not exist, and
   * `writerows` leave in the file.
   */
  function Appended(files: map<string, seq<Row>>, path: string, ds: seq<Dict>): (r: seq<Row>)
    requires ds != []
    ensures path !in files ==> r == Rewritten(ds)
    ensures path in files ==> r == files[path] + DictRows(ds[0].keys, ds)
    ensures path in files ==> |files[path]| <= |r| && r[..|files[path]|] == files[path]
    ensures path in files ==> HeaderCount(r) == HeaderCount(files[path])
  {
    if path in files then
      var rows := DictRows(ds[0].keys, ds);
      NoHeaderInDictRows(ds[0].keys, ds);
      HeaderCountConcat(files[path], rows);
      assert (files[path] + rows)[..|files[path]|] == files[path];
      files[path] + rows
    else Rewritten(ds)
  }

  /** `append_to_csv` takes one dict or a list of them. */
  datatype AppendData = OneRecord(record: Dict) | Records(records: seq<Dict>) {

    /** `not data` */
    predicate IsEmpty() {
      match this
      case OneRecord(d) => !d.Truthy()
      case Records(ds) => ds == []
    }

    /** `[data] if isinstance(data, dict) else data` */
    function AsList(): (r: seq<Dict>)
      ensures !IsEmpty() ==> r != []
      ensures OneRecord? ==> r == [record]
      ensures Records? ==> r == records
    {
      match this
      case OneRecord(d) => [d]
      case Records(ds) => ds
    }
  }

  /**
   * Two appends to a file that did not exist leave exactly one header row,
   * the first batch's keys, followed by the rows of both batches in call order.
   */
  lemma AppendTwiceOneHeader(files: map<string, seq<Row>>, path: string, first: seq<Dict>, second: seq<Dict>)
    requires path !in files && first != [] && second != []
    ensures var after := files[path := Appended(files, path, first)];
      && Appended(after, path, second)
         == [Header(first[0].keys)] + DictRows(first[0].keys, first) + DictRows(second[0].keys, second)
      && HeaderCount(Appended(after, path, second)) == 1
  {
    var r1, r2 := DictRows(first[0].keys, first), DictRows(second[0].keys, second);
    NoHeaderInDictRows(first[0].keys, first);
    NoHeaderInDictRows(second[0].keys, second);
    HeaderCountConcat([Header(first[0].keys)], r1);
    HeaderCountConcat([Header(first[0].keys)] + r1, r2);
  }

  /** The file system the CSV sinks write to: one sequence of rows per path. */
  class FileSystem {
    var files: map<string, seq<Row>>
    /** Paths that `open` refuses (permissions, a directory in the way, ...). */
    const unwritable: set<string>
    /** The working directory `os.path.abspath` resolves against. */
    const cwd: string

    constructor (files: map<string, seq<Row>>, unwritable: set<string>, cwd: string)
      ensures this.files == files && this.unwritable == unwritable && this.cwd == cwd
    {
      this.files := files;
      this.unwritable := unwritable;
      this.cwd := cwd;
    }

    /**
     * script/utils.py `save_to_csv`: nothing for empty data; otherwise
     * `data/<file_name>` is replaced by a header of the first record's keys
     * and the records' rows, and the absolute path is returned unless
     * opening or writing raised.
     */
    method SaveToCsv(fileName: string, data: seq<Dict>) returns (path: Option<string>)
      modifies this
      ensures data == [] ==> path == None && files == old(files)
      ensures data != [] && PathJoin(DataFolder, fileName) in unwritable ==>
                path == None && files == old(files)
      ensures data != [] && PathJoin(DataFolder, fileName) !in unwritable ==>
                && files == old(files)[PathJoin(DataFolder, fileName) := Rewritten(data)]
                && (path.Some? <==> AllFit(data[0].keys, data))
                && (path.Some? ==> path.value == AbsPath(cwd, PathJoin(DataFolder, fileName)))
    {
      if data == [] {
        return None;
      }
      var p := PathJoin(DataFolder, fileName);
      var fullPath := AbsPath(cwd, p);
      var header := data[0].keys;
      if p in unwritable {
        return None;
      }
      files := files[p := [Header(header)] + DictRows(header, data)];
      path := if AllFit(header, data) then Some(fullPath) else None;
    }

    /**
     * The `save_to_csv` of apps_data.py, apps_data_se.py and
     * script/apps_data.py: the same write, at `file_name` itself, returning nothing.
     */
    method SaveToCsvHere(fileName: string, data: seq<Dict>)
      modifies this
      ensures data == [] || fileName in unwritable ==> files == old(files)
      ensures data != [] && fileName !in unwritable ==> files == old(files)[fileName := Rewritten(data)]
    {
      if data == [] {
        return;
      }
      var header := data[0].keys;
      if fileName in unwritable {
        return;
      }
      files := files[fileName := [Header(header)] + DictRows(header, data)];
    }

    /**
     * script/utils.py `append_to_csv`: nothing for empty data; otherwise the
     * rows go after what `temp_data/<file_name>` holds, with a header first
     * only when the file did not exist.
     */
    method AppendToCsv(fileName: string, data: AppendData)
      modifies this
      ensures data.IsEmpty() || PathJoin(TempFolder, fileName) in unwritable ==> files == old(files)
      ensures !data.IsEmpty() && PathJoin(TempFolder, fileName) !in unwritable ==>
                var p := PathJoin(TempFolder, fileName);
                files == old(files)[p := Appended(old(files), p, data.AsList())]
    {
      if data.IsEmpty() {
        return;
      }
      var p := PathJoin(TempFolder, fileName);
      var records := data.AsList();
      var header := records[0].keys;
      if p in unwritable {
        return;
      }
      var fileExists := p in files;
      if fileExists {
        files := files[p := files[p] + DictRows(header, records)];
      } else {
        files := files[p := [Header(header)] + DictRows(header, records)];
      }
    }
  }
}
