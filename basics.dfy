/**
 * Shared vocabulary of the model: optional values, the loosely typed
 * dictionary values the Python backend passes around, Python truthiness,
 * and the few ASCII string operations the sources use (upper/lower casing,
 * strip, substring search).
 */
module Basics {

  datatype Option<T> = None | Some(value: T)

  /** Times are whole seconds since the epoch, in local time; a day starts at midnight. */
  const SecondsPerDay := 86400

  function DayOf(t: int): int {
    t / SecondsPerDay
  }

  /** A dictionary value as the backend sees it: `None` or a string. */
  datatype Val = Null | Str(s: string)

  /** A Python dict with string keys; an absent key is simply not in the map. */
  type Dict = map<string, Val>

  /**
   * A Redfish inventory item as the backend receives it: its `Status`
   * sub-dictionary (None when the key is missing) and its other keys.
   */
  datatype Item = Item(status: Option<Dict>, attrs: Dict)

  /** `d.get(k)`: `None` when the key is absent. */
  function Get(d: Dict, k: string): (v: Val)
    ensures k !in d ==> v == Null
    ensures k in d ==> v == d[k]
  {
    if k in d then d[k] else Null
  }

  /** `d.get(k, default)`: the default applies only when the key is ABSENT. */
  function GetOr(d: Dict, k: string, default: Val): (v: Val)
    ensures k !in d ==> v == default
    ensures k in d ==> v == d[k]
  {
    if k in d then d[k] else default
  }

  /** Python truthiness of a value: `None` and `''` are falsy. */
  predicate Truthy(v: Val) {
    v.Str? && v.s != ""
  }

  /** Python truthiness of an optional string. */
  predicate Present(v: Option<string>) {
    v.Some? && v.value != ""
  }

  /** Python `a or b`. */
  function Or(a: Val, b: Val): (r: Val)
    ensures Truthy(a) ==> r == a
    ensures !Truthy(a) ==> r == b
  {
    if Truthy(a) then a else b
  }

  /**
   * Python `v0 or v1 or ... or default`: the first truthy value, else the
   * trailing literal.
   */
  function FirstTruthy(vs: seq<Val>, default: string): (r: string)
    ensures (forall i :: 0 <= i < |vs| ==> !Truthy(vs[i])) ==> r == default
    ensures (exists i :: 0 <= i < |vs| && Truthy(vs[i])) ==>
              exists k :: 0 <= k < |vs| && Truthy(vs[k]) && r == vs[k].s &&
                (forall j :: 0 <= j < k ==> !Truthy(vs[j]))
  {
    if vs == [] then default
    else if Truthy(vs[0]) then vs[0].s
    else
      var r := FirstTruthy(vs[1..], default);
      assert forall i :: 1 <= i < |vs| ==> vs[i] == vs[1..][i - 1];
      r
  }

  /** Python `str(v or '')`-style view of a value. */
  function TextOf(v: Val): string {
    if v.Str? then v.s else ""
  }

  predicate IsValue(v: Val, s: string) {
    v == Str(s)
  }

  // ---------------------------------------------------------------- ASCII

  function UpperChar(c: char): char {
    if 'a' <= c <= 'z' then (c as int - 32) as char else c
  }

  function LowerChar(c: char): char {
    if 'A' <= c <= 'Z' then (c as int + 32) as char else c
  }

  /** `str.upper()` over ASCII letters. */
  function Upper(s: string): (r: string)
    ensures |r| == |s|
  {
    if s == [] then [] else [UpperChar(s[0])] + Upper(s[1..])
  }

  /** `str.lower()` over ASCII letters. */
  function Lower(s: string): (r: string)
    ensures |r| == |s|
  {
    if s == [] then [] else [LowerChar(s[0])] + Lower(s[1..])
  }

  lemma {:induction false} UpperAt(s: string, i: nat)
    requires i < |s|
    ensures Upper(s)[i] == UpperChar(s[i])
  {
    if i > 0 {
      UpperAt(s[1..], i - 1);
    }
  }

  lemma {:induction false} LowerAt(s: string, i: nat)
    requires i < |s|
    ensures Lower(s)[i] == LowerChar(s[i])
  {
    if i > 0 {
      LowerAt(s[1..], i - 1);
    }
  }

  lemma {:induction false} UpperOfLower(s: string)
    ensures Upper(Lower(s)) == Upper(s)
  {
    if s != [] {
      UpperOfLower(s[1..]);
      assert Lower(s)[1..] == Lower(s[1..]);
    }
  }

  lemma {:induction false} UpperOfUpper(s: string)
    ensures Upper(Upper(s)) == Upper(s)
  {
    if s != [] {
      UpperOfUpper(s[1..]);
      assert Upper(s)[1..] == Upper(s[1..]);
    }
  }

  lemma {:induction false} LowerOfLower(s: string)
    ensures Lower(Lower(s)) == Lower(s)
  {
    if s != [] {
      LowerOfLower(s[1..]);
      assert Lower(s)[1..] == Lower(s[1..]);
    }
  }

  /** A string without upper-case ASCII letters is its own lower case. */
  lemma {:induction false} LowerOfNoUpper(s: string)
    requires forall i :: 0 <= i < |s| ==> !('A' <= s[i] <= 'Z')
    ensures Lower(s) == s
  {
    if s != [] {
      LowerOfNoUpper(s[1..]);
    }
  }

  // ---------------------------------------------------------------- strip

  predicate IsSpace(c: char) {
    c == ' ' || c == '\t' || c == '\n' || c == '\r' || c == '\U{000B}' || c == '\U{000C}'
  }

  function StripLeft(s: string): (r: string)
    ensures |r| <= |s|
    ensures r == [] || !IsSpace(r[0])
  {
    if s != [] && IsSpace(s[0]) then StripLeft(s[1..]) else s
  }

  function StripRight(s: string): (r: string)
    ensures |r| <= |s|
    ensures r == [] || !IsSpace(r[|r| - 1])
  {
    if s != [] && IsSpace(s[|s| - 1]) then StripRight(s[..|s| - 1]) else s
  }

  /** `str.strip()` with the ASCII whitespace set. */
  function Strip(s: string): (r: string)
    ensures |r| <= |s|
  {
    StripRight(StripLeft(s))
  }

  /** A string with no surrounding whitespace. */
  predicate Trimmed(s: string) {
    s == [] || (!IsSpace(s[0]) && !IsSpace(s[|s| - 1]))
  }

  lemma {:induction false} StripRightKeepsHead(s: string)
    requires s == [] || !IsSpace(s[0])
    ensures StripRight(s) == [] || StripRight(s)[0] == s[0]
  {
    if s != [] && IsSpace(s[|s| - 1]) {
      StripRightKeepsHead(s[..|s| - 1]);
    }
  }

  lemma StripIsTrimmed(s: string)
    ensures Trimmed(Strip(s))
  {
    StripRightKeepsHead(StripLeft(s));
  }

  lemma StripOfTrimmed(s: string)
    requires Trimmed(s)
    ensures Strip(s) == s
  {
  }

  lemma {:induction false} LowerKeepsTrimmed(s: string)
    requires Trimmed(s)
    ensures Trimmed(Lower(s))
  {
    if s != [] {
      LowerAt(s, 0);
      LowerAt(s, |s| - 1);
    }
  }

  /** A code made of lower-case letters and underscores is already normalised. */
  lemma Canonical(code: string)
    requires forall i :: 0 <= i < |code| ==> 'a' <= code[i] <= 'z' || code[i] == '_'
    ensures Strip(code) == code && Lower(code) == code
  {
    if code != [] {
      assert !IsSpace(code[0]) && !IsSpace(code[|code| - 1]);
    }
    StripOfTrimmed(code);
    LowerOfNoUpper(code);
  }

  // ---------------------------------------------------------------- search

  /** `needle` occurs in `hay` starting at index `j`. */
  predicate MatchAt(hay: string, needle: string, j: int) {
    0 <= j && j + |needle| <= |hay| && hay[j..j + |needle|] == needle
  }

  lemma MatchAtTail(hay: string, needle: string, j: int)
    requires hay != [] && 1 <= j
    ensures MatchAt(hay, needle, j) == MatchAt(hay[1..], needle, j - 1)
  {
    if j + |needle| <= |hay| {
      var a, b := hay[j..j + |needle|], hay[1..][j - 1..j - 1 + |needle|];
      assert |a| == |b|;
      assert forall k :: 0 <= k < |a| ==> a[k] == hay[j + k] == b[k];
      assert a == b;
    }
  }

  /** Index of the first occurrence of `needle` in `hay`, as `str.find`. */
  function Find(hay: string, needle: string): (r: Option<nat>)
    ensures r.Some? ==> MatchAt(hay, needle, r.value)
    ensures r.Some? ==> forall j :: 0 <= j < r.value ==> !MatchAt(hay, needle, j)
    ensures r.None? ==> forall j :: !MatchAt(hay, needle, j)
    decreases |hay|
  {
    if |needle| > |hay| then None
    else if hay[..|needle|] == needle then Some(0)
    else
      var t := Find(hay[1..], needle);
      assert forall j :: 1 <= j ==> MatchAt(hay, needle, j) == MatchAt(hay[1..], needle, j - 1) by {
        forall j | 1 <= j ensures MatchAt(hay, needle, j) == MatchAt(hay[1..], needle, j - 1) {
          MatchAtTail(hay, needle, j);
        }
      }
      match t
        case None => None
        case Some(k) => Some(k + 1)
  }

  /** Python `needle in hay` for strings. */
  predicate Contains(hay: string, needle: string) {
    Find(hay, needle).Some?
  }

  lemma ContainsAt(hay: string, needle: string, j: nat)
    requires MatchAt(hay, needle, j)
    ensures Contains(hay, needle)
  {
  }

  /** Texts compared character by character, a prefix first: the order of a binary collation. */
  predicate TextLe(a: string, b: string)
    decreases |a|
  {
    a == [] || (b != [] && (a[0] < b[0] || (a[0] == b[0] && TextLe(a[1..], b[1..]))))
  }

  /** Any two texts are comparable. */
  lemma {:induction false} TextLeTotal(a: string, b: string)
    ensures TextLe(a, b) || TextLe(b, a)
    decreases |a|
  {
    if a != [] && b != [] && a[0] == b[0] {
      TextLeTotal(a[1..], b[1..]);
    }
  }

  lemma {:induction false} TextLeTrans(a: string, b: string, c: string)
    requires TextLe(a, b) && TextLe(b, c)
    ensures TextLe(a, c)
    decreases |a|
  {
    if a != [] && a[0] == b[0] && b[0] == c[0] {
      TextLeTrans(a[1..], b[1..], c[1..]);
    }
  }

  /** Python `s.startswith(p)`. */
  predicate StartsWith(s: string, p: string) {
    |p| <= |s| && s[..|p|] == p
  }

  /**
   * `s.replace(pat, repl)`: every non-overlapping occurrence, scanning left
   * to right.
   */
  function ReplaceAll(s: string, pat: string, repl: string): string
    requires pat != []
    decreases |s|
  {
    if |s| < |pat| then s
    else if s[..|pat|] == pat then repl + ReplaceAll(s[|pat|..], pat, repl)
    else [s[0]] + ReplaceAll(s[1..], pat, repl)
  }

  lemma NotContainsTail(s: string, pat: string)
    requires s != [] && !Contains(s, pat)
    ensures !Contains(s[1..], pat)
  {
    forall j | 0 <= j ensures !MatchAt(s[1..], pat, j) {
      MatchAtTail(s, pat, j + 1);
    }
  }

  /** Replacing a pattern that does not occur leaves the string unchanged. */
  lemma {:induction false} ReplaceAllAbsent(s: string, pat: string, repl: string)
    requires pat != [] && !Contains(s, pat)
    ensures ReplaceAll(s, pat, repl) == s
    decreases |s|
  {
    if |s| >= |pat| {
      assert !MatchAt(s, pat, 0);
      NotContainsTail(s, pat);
      ReplaceAllAbsent(s[1..], pat, repl);
      assert [s[0]] + s[1..] == s;
    }
  }

  /** `s.split(sep)` for a non-empty separator. */
  function Split(s: string, sep: string): (parts: seq<string>)
    requires sep != []
    ensures |parts| >= 1
    ensures !Contains(s, sep) ==> parts == [s]
    decreases |s|
  {
    match Find(s, sep)
      case None => [s]
      case Some(i) => [s[..i]] + Split(s[i + |sep|..], sep)
  }

  /** `sep.join(parts)`. */
  function Join(parts: seq<string>, sep: string): string {
    if parts == [] then ""
    else if |parts| == 1 then parts[0]
    else parts[0] + sep + Join(parts[1..], sep)
  }

  /** The decimal digit for a value below ten. */
  function DigitChar(k: nat): (c: char)
    requires k < 10
    ensures '0' <= c <= '9' && c as int - '0' as int == k
  {
    ('0' as int + k) as char
  }

  /** Digits of a non-negative integer in base ten. */
  function NatToString(n: nat): (r: string)
    ensures |r| >= 1
    decreases n
  {
    var d := DigitChar(n % 10);
    if n < 10 then [d] else NatToString(n / 10) + [d]
  }

  function IntToString(n: int): (r: string)
    ensures |r| >= 1
  {
    if n < 0 then "-" + NatToString(-n) else NatToString(n)
  }

  predicate IsDigit(c: char) {
    '0' <= c <= '9'
  }

  predicate AllDigits(s: string) {
    forall i :: 0 <= i < |s| ==> IsDigit(s[i])
  }

  /** The value of a run of decimal digits. */
  function DigitsValue(s: string): nat
    requires AllDigits(s)
  {
    if s == [] then 0
    else
      var last := s[|s| - 1];
      assert IsDigit(last);
      DigitsValue(s[..|s| - 1]) * 10 + (last as int - '0' as int)
  }

  /** The digits after an optional leading sign. */
  function Unsigned(t: string): string {
    if t != [] && (t[0] == '-' || t[0] == '+') then t[1..] else t
  }

  /**
   * Python `int(s)` for a string: surrounding whitespace, an optional sign
   * and at least one ASCII digit; anything else raises (`None`).
   */
  function PyInt(s: string): (r: Option<int>)
    ensures r.Some? ==> Strip(s) != [] && AllDigits(Unsigned(Strip(s)))
  {
    var t := Strip(s);
    var body := Unsigned(t);
    if body == [] || !AllDigits(body) then None
    else
      var v: int := DigitsValue(body);
      if t[0] == '-' then Some(-v) else Some(v)
  }

  lemma {:induction false} NatToStringDigits(n: nat)
    ensures AllDigits(NatToString(n))
    ensures DigitsValue(NatToString(n)) == n
    decreases n
  {
    var d := DigitChar(n % 10);
    if n >= 10 {
      NatToStringDigits(n / 10);
      var s := NatToString(n / 10);
      assert NatToString(n) == s + [d];
      assert (s + [d])[..|s|] == s;
    }
  }

  /** A trimmed signed or unsigned digit string parses to its value. */
  lemma PyIntOfDigits(text: string, digits: string, negative: bool)
    requires digits != [] && AllDigits(digits)
    requires text == if negative then "-" + digits else digits
    ensures PyInt(text) == Some(if negative then -(DigitsValue(digits) as int) else DigitsValue(digits))
  {
    assert IsDigit(digits[0]) && IsDigit(digits[|digits| - 1]);
    assert text[|text| - 1] == digits[|digits| - 1];
    assert Trimmed(text);
    StripOfTrimmed(text);
    assert Unsigned(text) == digits by {
      if negative {
        assert text[1..] == digits;
      }
    }
  }

  /** `int(str(n)) == n`. */
  lemma PyIntOfIntToString(n: int)
    ensures PyInt(IntToString(n)) == Some(n)
  {
    var m: nat := if n < 0 then -n else n;
    NatToStringDigits(m);
    PyIntOfDigits(IntToString(n), NatToString(m), n < 0);
  }

  /** The offset of page `pageNum`, counted from 1, of `pageSize` rows. */
  function PageOffset(pageNum: int, pageSize: int): (offset: int)
    ensures pageNum >= 1 && pageSize >= 0 ==> offset >= 0
  {
    (pageNum - 1) * pageSize
  }

  /**
   * SQL `OFFSET offset LIMIT limit` over an ordered result; a negative
   * offset or limit is a database error (`None`).
   */
  function SqlPage<T>(rows: seq<T>, offset: int, limit: int): (r: Option<seq<T>>)
    ensures r.None? <==> offset < 0 || limit < 0
    ensures r.Some? ==> |r.value| == (if offset >= |rows| then 0 else if limit < |rows| - offset then limit else |rows| - offset)
    ensures r.Some? ==> forall k :: 0 <= k < |r.value| ==> offset + k < |rows| && r.value[k] == rows[offset + k]
  {
    if offset < 0 || limit < 0 then None
    else if offset >= |rows| then Some([])
    else if limit < |rows| - offset then Some(rows[offset..offset + limit])
    else Some(rows[offset..])
  }

  /** Number of elements satisfying a test, used by the counting loops. */
  function CountIf<T>(s: seq<T>, p: T -> bool): (n: nat)
    ensures n <= |s|
  {
    if s == [] then 0 else (if p(s[0]) then 1 else 0) + CountIf(s[1..], p)
  }

  /** Concatenation is associative; stated once for any element type. */
  lemma AppendAssoc<T>(a: seq<T>, b: seq<T>, c: seq<T>)
    ensures a + (b + c) == (a + b) + c
  {
  }

  lemma CountIfAppend<T>(s: seq<T>, x: T, p: T -> bool)
    ensures CountIf(s + [x], p) == CountIf(s, p) + (if p(x) then 1 else 0)
  {
    if s == [] {
      assert s + [x] == [x];
    } else {
      assert (s + [x])[1..] == s[1..] + [x];
      CountIfAppend(s[1..], x, p);
    }
  }

  /** The elements satisfying a test, in order (Python list comprehension). */
  function FilterSeq<T>(s: seq<T>, p: T -> bool): (r: seq<T>)
    ensures |r| <= |s|
    ensures forall x :: x in r ==> x in s && p(x)
  {
    if s == [] then [] else (if p(s[0]) then [s[0]] else []) + FilterSeq(s[1..], p)
  }

  lemma {:induction false} FilterSeqAppend<T>(s: seq<T>, x: T, p: T -> bool)
    ensures FilterSeq(s + [x], p) == FilterSeq(s, p) + (if p(x) then [x] else [])
  {
    if s == [] {
      assert s + [x] == [x];
      assert FilterSeq([x], p) == (if p(x) then [x] else []) + FilterSeq([], p);
    } else {
      var head := if p(s[0]) then [s[0]] else [];
      var tail := if p(x) then [x] else [];
      assert (s + [x])[0] == s[0];
      assert (s + [x])[1..] == s[1..] + [x];
      FilterSeqAppend(s[1..], x, p);
      assert FilterSeq(s + [x], p) == head + FilterSeq(s[1..] + [x], p);
      assert FilterSeq(s, p) == head + FilterSeq(s[1..], p);
      assert head + (FilterSeq(s[1..], p) + tail) == (head + FilterSeq(s[1..], p)) + tail;
    }
  }

  lemma FilterSeqComplete<T>(s: seq<T>, p: T -> bool, x: T)
    requires x in s && p(x)
    ensures x in FilterSeq(s, p)
  {
    if s[0] != x {
      FilterSeqComplete(s[1..], p, x);
    }
  }

  /** The filter keeps exactly the elements that pass. */
  lemma FilterSeqMembers<T>(s: seq<T>, p: T -> bool)
    ensures forall x :: x in FilterSeq(s, p) <==> x in s && p(x)
  {
    forall x | x in s && p(x)
      ensures x in FilterSeq(s, p)
    {
      FilterSeqComplete(s, p, x);
    }
  }

  /** A relation holding between every earlier and later element still holds after filtering. */
  lemma {:induction false} FilterSeqPairwise<T>(s: seq<T>, p: T -> bool, rel: (T, T) -> bool)
    requires forall i, j :: 0 <= i < j < |s| ==> rel(s[i], s[j])
    ensures forall i, j :: 0 <= i < j < |FilterSeq(s, p)| ==> rel(FilterSeq(s, p)[i], FilterSeq(s, p)[j])
  {
    if s != [] {
      var rest := s[1..];
      FilterSeqPairwise(rest, p, rel);
      var tail := FilterSeq(rest, p);
      if p(s[0]) {
        var r := [s[0]] + tail;
        assert r == FilterSeq(s, p);
        forall i, j | 0 <= i < j < |r|
          ensures rel(r[i], r[j])
        {
          assert r[j] == tail[j - 1];
          if i == 0 {
            assert r[j] in rest;
            var m :| 0 <= m < |rest| && rest[m] == r[j];
            assert s[m + 1] == r[j];
          } else {
            assert r[i] == tail[i - 1];
          }
        }
      }
    }
  }

  /** The filter keeps every passing element as often as it occurs, and no other. */
  lemma {:induction false} FilterSeqMultiset<T>(s: seq<T>, p: T -> bool)
    ensures forall x :: multiset(FilterSeq(s, p))[x] == if p(x) then multiset(s)[x] else 0
  {
    if s != [] {
      FilterSeqMultiset(s[1..], p);
      assert s == [s[0]] + s[1..];
    }
  }

  lemma CountIsFilterLength<T>(s: seq<T>, p: T -> bool)
    ensures CountIf(s, p) == |FilterSeq(s, p)|
  {
    if s != [] {
      CountIsFilterLength(s[1..], p);
    }
  }

  /** A filter over rows none of which pass is empty. */
  lemma {:induction false} NoneLeft<T>(rows: seq<T>, p: T -> bool)
    requires forall x :: x in rows ==> !p(x)
    ensures FilterSeq(rows, p) == []
  {
    if rows != [] {
      assert rows[0] in rows;
      NoneLeft(rows[1..], p);
    }
  }

  /** A filter every element passes keeps the whole sequence. */
  lemma {:induction false} FilterAllPass<T>(rows: seq<T>, p: T -> bool)
    requires forall x :: x in rows ==> p(x)
    ensures FilterSeq(rows, p) == rows
  {
    if rows != [] {
      assert rows[0] in rows;
      FilterAllPass(rows[1..], p);
    }
  }

  /** Rows split between a test and its negation. */
  lemma {:induction false} CountComplement<T>(s: seq<T>, p: T -> bool, q: T -> bool)
    requires forall x :: q(x) == !p(x)
    ensures CountIf(s, p) + CountIf(s, q) == |s|
  {
    if s != [] {
      CountComplement(s[1..], p, q);
    }
  }

  /** A weaker test counts at least as many elements. */
  lemma {:induction false} CountIfMono<T>(s: seq<T>, p: T -> bool, q: T -> bool)
    requires forall x :: p(x) ==> q(x)
    ensures CountIf(s, p) <= CountIf(s, q)
  {
    if s != [] {
      CountIfMono(s[1..], p, q);
    }
  }

  /** Filters with tests that agree on the elements give the same result. */
  lemma {:induction false} FilterSeqSame<T>(s: seq<T>, p: T -> bool, q: T -> bool)
    requires forall x :: x in s ==> p(x) == q(x)
    ensures FilterSeq(s, p) == FilterSeq(s, q)
  {
    if s != [] {
      assert s[0] in s;
      assert forall x :: x in s[1..] ==> x in s;
      FilterSeqSame(s[1..], p, q);
    }
  }

  /** Filtering twice is filtering once by both tests. */
  lemma {:induction false} FilterSeqTwice<T>(s: seq<T>, p: T -> bool, q: T -> bool)
    ensures FilterSeq(FilterSeq(s, p), q) == FilterSeq(s, (x: T) => p(x) && q(x))
  {
    if s != [] {
      FilterSeqTwice(s[1..], p, q);
      var rest := FilterSeq(s[1..], p);
      if p(s[0]) {
        assert FilterSeq(s, p) == [s[0]] + rest;
        assert FilterSeq(s, p)[1..] == rest;
      } else {
        assert FilterSeq(s, p) == rest;
      }
    }
  }
}
