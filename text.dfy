/**
 * The Python string operations the scraper relies on: `str.find`,
 * `str.rfind`, slicing with negative indices, `str.strip`, `str.upper`,
 * `str.lower`, `str.replace` of one character and `", ".join`.
 */
module Text {

  /** `p` occurs in `s` starting at index `i`. */
  predicate OccursAt(s: string, p: string, i: int) {
    0 <= i && i + |p| <= |s| && s[i..i + |p|] == p
  }

  /** `s.find(p, i)`: the first index at or after `i` where `p` occurs, or -1. */
  function FindFrom(s: string, p: string, i: nat): (r: int)
    decreases |s| - i
    ensures r == -1 || (i <= r && OccursAt(s, p, r))
    ensures r == -1 ==> forall j :: i <= j ==> !OccursAt(s, p, j)
    ensures r != -1 ==> forall j :: i <= j < r ==> !OccursAt(s, p, j)
  {
    if i + |p| > |s| then -1
    else if OccursAt(s, p, i) then i
    else FindFrom(s, p, i + 1)
  }

  /** `s.find(p)` */
  function Find(s: string, p: string): int {
    FindFrom(s, p, 0)
  }

  /** `s.rfind(p)` restricted to start indices at or below `i`. */
  function RFindFrom(s: string, p: string, i: int): (r: int)
    decreases i + 1
    ensures r == -1 || (0 <= r <= i && OccursAt(s, p, r))
    ensures r == -1 ==> forall j :: 0 <= j <= i ==> !OccursAt(s, p, j)
    ensures r != -1 ==> forall j :: r < j <= i ==> !OccursAt(s, p, j)
  {
    if i < 0 then -1
    else if OccursAt(s, p, i) then i
    else RFindFrom(s, p, i - 1)
  }

  /** `s.rfind(p)`: the last index where `p` occurs, or -1. */
  function RFind(s: string, p: string): (r: int)
    ensures r == -1 || OccursAt(s, p, r)
    ensures r == -1 ==> forall j :: !OccursAt(s, p, j)
    ensures forall j :: r < j ==> !OccursAt(s, p, j)
  {
    RFindFrom(s, p, |s| - |p|)
  }

  /** Where a Python slice bound `i` lands in a sequence of length `n`. */
  function SliceBound(i: int, n: nat): (r: nat)
    ensures r <= n
    ensures 0 <= i <= n ==> r == i
    ensures -(n as int) <= i < 0 ==> r == i + n
    ensures i > n ==> r == n
    ensures i < -(n as int) ==> r == 0
  {
    if i < 0 then (if i + n < 0 then 0 else i + n)
    else if i > n then n
    else i
  }

  /** `s[i:j]` with Python's rules for negative and out-of-range bounds. */
  function PySlice(s: string, i: int, j: int): (r: string)
    ensures SliceBound(j, |s|) <= SliceBound(i, |s|) ==> r == []
    ensures SliceBound(i, |s|) < SliceBound(j, |s|) ==> r == s[SliceBound(i, |s|)..SliceBound(j, |s|)]
  {
    var a, b := SliceBound(i, |s|), SliceBound(j, |s|);
    if a < b then s[a..b] else []
  }

  /** `c.isspace()`: the characters Python's `str.strip()` removes. */
  predicate IsSpace(c: char) {
    || c == ' '
    || '\t' <= c <= '\r'
    || '\U{1C}' <= c <= '\U{1F}'
    || c == '\U{85}' || c == '\U{A0}' || c == '\U{1680}'
    || '\U{2000}' <= c <= '\U{200A}'
    || c == '\U{2028}' || c == '\U{2029}' || c == '\U{202F}' || c == '\U{205F}' || c == '\U{3000}'
  }

  predicate AllSpace(s: string) {
    forall i :: 0 <= i < |s| ==> IsSpace(s[i])
  }

  /** The length of the run of whitespace that `s` starts with. */
  function LeadingSpaces(s: string): (n: nat)
    ensures n <= |s|
    ensures AllSpace(s[..n])
    ensures n < |s| ==> !IsSpace(s[n])
  {
    if s == [] || !IsSpace(s[0]) then 0
    else
      var n := 1 + LeadingSpaces(s[1..]);
      assert s[..n] == [s[0]] + s[1..][..n - 1];
      n
  }

  /** The length of the run of whitespace that `s` ends with. */
  function TrailingSpaces(s: string): (n: nat)
    ensures n <= |s|
    ensures AllSpace(s[|s| - n..])
    ensures n < |s| ==> !IsSpace(s[|s| - 1 - n])
  {
    if s == [] || !IsSpace(s[|s| - 1]) then 0
    else
      var t := s[..|s| - 1];
      var n := 1 + TrailingSpaces(t);
      assert s[|s| - n..] == t[|t| - (n - 1)..] + [s[|s| - 1]];
      assert AllSpace(t[|t| - (n - 1)..]) && IsSpace(s[|s| - 1]);
      n
  }

  /** `r` stands at `i` in `s` with only whitespace before and after it. */
  predicate SpaceAround(s: string, r: string, i: int) {
    0 <= i <= |s| - |r| && s[i..i + |r|] == r && AllSpace(s[..i]) && AllSpace(s[i + |r|..])
  }

  /**
   * `s.strip()`: the part of `s` left after removing whitespace at both
   * ends; it is a slice of `s`, everything cut away is whitespace, and it
   * neither starts nor ends with whitespace.
   */
  function Strip(s: string): (r: string)
    ensures |r| <= |s|
    ensures r == [] || (!IsSpace(r[0]) && !IsSpace(r[|r| - 1]))
    ensures exists i :: SpaceAround(s, r, i)
  {
    var k := LeadingSpaces(s);
    var t := s[k..];
    var m := TrailingSpaces(t);
    StripCut(s, k, t, m);
    t[..|t| - m]
  }

  /** Cutting the leading and then the trailing whitespace leaves a slice with only whitespace around it. */
  lemma StripCut(s: string, k: nat, t: string, m: nat)
    requires k <= |s| && t == s[k..] && AllSpace(s[..k]) && (k < |s| ==> !IsSpace(s[k]))
    requires m <= |t| && AllSpace(t[|t| - m..]) && (m < |t| ==> !IsSpace(t[|t| - 1 - m]))
    ensures var r := t[..|t| - m];
            && SpaceAround(s, r, k)
            && (r == [] || (!IsSpace(r[0]) && !IsSpace(r[|r| - 1])))
  {
    var r := t[..|t| - m];
    assert s[k..k + |r|] == r;
    assert s[k + |r|..] == t[|t| - m..];
    if r != [] {
      assert r[0] == s[k] && r[|r| - 1] == t[|t| - 1 - m];
    }
  }

  /** ASCII letters only: Python's full Unicode case mapping is out of scope. */
  predicate IsLower(c: char) { 'a' <= c <= 'z' }

  predicate IsUpper(c: char) { 'A' <= c <= 'Z' }

  function UpperChar(c: char): char {
    if IsLower(c) then (c as int - 32) as char else c
  }

  function LowerChar(c: char): char {
    if IsUpper(c) then (c as int + 32) as char else c
  }

  /** `s.upper()`: same length, no lower-case letter left, other characters kept. */
  function Upper(s: string): (r: string)
    ensures |r| == |s|
    ensures forall i :: 0 <= i < |r| ==> !IsLower(r[i])
    ensures forall i :: 0 <= i < |r| && !IsLower(s[i]) ==> r[i] == s[i]
    ensures forall i :: 0 <= i < |r| && IsLower(s[i]) ==> r[i] as int == s[i] as int - 32
  {
    seq(|s|, i requires 0 <= i < |s| => UpperChar(s[i]))
  }

  /** `s.lower()`: same length, no upper-case letter left, other characters kept. */
  function Lower(s: string): (r: string)
    ensures |r| == |s|
    ensures forall i :: 0 <= i < |r| ==> !IsUpper(r[i])
    ensures forall i :: 0 <= i < |r| && !IsUpper(s[i]) ==> r[i] == s[i]
    ensures forall i :: 0 <= i < |r| && IsUpper(s[i]) ==> r[i] as int == s[i] as int + 32
  {
    seq(|s|, i requires 0 <= i < |s| => LowerChar(s[i]))
  }

  /** `s.replace(a, b)` for one-character `a` and `b`. */
  function ReplaceChar(s: string, a: char, b: char): (r: string)
    ensures |r| == |s|
    ensures a != b ==> a !in r
    ensures forall i :: 0 <= i < |s| && s[i] != a ==> r[i] == s[i]
    ensures forall i :: 0 <= i < |s| && s[i] == a ==> r[i] == b
  {
    seq(|s|, i requires 0 <= i < |s| => if s[i] == a then b else s[i])
  }

  /** `sep.join(ts)`: "" for no pieces, otherwise it starts with the first piece and ends with the last. */
  function Join(ts: seq<string>, sep: string): (r: string)
    ensures |ts| == 0 ==> r == ""
    ensures |ts| > 0 ==> |ts[0]| <= |r| && r[..|ts[0]|] == ts[0]
    ensures |ts| > 0 ==> |ts[|ts| - 1]| <= |r| && r[|r| - |ts[|ts| - 1]|..] == ts[|ts| - 1]
  {
    if |ts| == 0 then ""
    else if |ts| == 1 then ts[0]
    else ts[0] + sep + Join(ts[1..], sep)
  }

  /** `s.split(sep)` for a non-empty separator. */
  function SplitOn(s: string, sep: string): (r: seq<string>)
    requires |sep| > 0
    decreases |s|
    ensures |r| > 0
  {
    var k := Find(s, sep);
    if k < 0 then [s] else [s[..k]] + SplitOn(s[k + |sep|..], sep)
  }

  lemma UpperIdempotent(s: string)
    ensures Upper(Upper(s)) == Upper(s)
  {
  }

  /** `Strip` leaves a string that is already stripped alone. */
  lemma {:induction false} StripIdempotent(s: string)
    ensures Strip(Strip(s)) == Strip(s)
  {
    var r := Strip(s);
    assert LeadingSpaces(r) == 0;
    assert r[0..] == r;
    assert TrailingSpaces(r) == 0;
  }

  /** A separator whose first character is nowhere in `t` does not occur in `t`. */
  lemma NotOccurring(t: string, sep: string, j: int)
    requires |sep| > 0 && sep[0] !in t
    ensures !OccursAt(t, sep, j)
  {
    if 0 <= j && j + |sep| <= |t| {
      assert t[j..j + |sep|][0] == t[j] != sep[0];
    }
  }

  /** The separator is found right after the first piece. */
  lemma FindAfterFirst(t: string, sep: string, rest: string)
    requires |sep| > 0 && sep[0] !in t
    ensures Find(t + sep + rest, sep) == |t|
  {
    var s := t + sep + rest;
    assert s[|t|..|t| + |sep|] == sep;
    assert OccursAt(s, sep, |t|);
    forall j | 0 <= j < |t|
      ensures !OccursAt(s, sep, j)
    {
      if j + |sep| <= |s| {
        assert s[j..j + |sep|][0] == s[j] == t[j] != sep[0];
      }
    }
  }

  /**
   * Splitting a join at the separator gives the pieces back, as long as no
   * piece contains the separator's first character.
   */
  lemma {:induction false} SplitJoin(ts: seq<string>, sep: string)
    requires |ts| > 0 && |sep| > 0
    requires forall t :: t in ts ==> sep[0] !in t
    ensures SplitOn(Join(ts, sep), sep) == ts
  {
    if |ts| == 1 {
      SplitWithoutSeparator(ts[0], sep);
    } else {
      var rest := Join(ts[1..], sep);
      assert Join(ts, sep) == ts[0] + sep + rest;
      SplitFirstPiece(ts[0], sep, rest);
      assert forall u :: u in ts[1..] ==> u in ts;
      SplitJoin(ts[1..], sep);
      assert [ts[0]] + ts[1..] == ts;
    }
  }

  /** A string without the separator's first character splits into itself alone. */
  lemma SplitWithoutSeparator(t: string, sep: string)
    requires |sep| > 0 && sep[0] !in t
    ensures SplitOn(t, sep) == [t]
  {
    forall j ensures !OccursAt(t, sep, j) {
      NotOccurring(t, sep, j);
    }
  }

  /** Splitting `t + sep + rest` cuts off `t` first when `t` has no separator character. */
  lemma SplitFirstPiece(t: string, sep: string, rest: string)
    requires |sep| > 0 && sep[0] !in t
    ensures SplitOn(t + sep + rest, sep) == [t] + SplitOn(rest, sep)
  {
    var s := t + sep + rest;
    FindAfterFirst(t, sep, rest);
    assert s[..|t|] == t;
    assert s[|t| + |sep|..] == rest;
  }
}
