/**
 * The pieces of the JavaScript runtime that the client's decisions depend on:
 * thrown values, falsy strings, `slice`, `toLowerCase`, `includes`, `trim`,
 * `Number.prototype.toString` and `parseInt`, and dates compared with `<`.
 */
module Js {
  import opened Wrappers

  /** A thrown value: an instance of `Error` with its message, or anything else. */
  datatype Thrown = Error(message: string) | NonError

  /** A `Date`: a time value in milliseconds, or an Invalid Date (its time value is NaN). */
  datatype Date = At(ms: int) | InvalidDate

  /** `now < d` for a clock reading `now`; an Invalid Date compares false. */
  predicate Before(now: int, d: Date) {
    d.At? && now < d.ms
  }

  /** `now >= d`; an Invalid Date compares false as well. */
  predicate NotBefore(now: int, d: Date) {
    d.At? && now >= d.ms
  }

  /** An optional string is truthy when present and not "". */
  predicate Truthy(s: Option<string>) {
    s.Some? && s.value != ""
  }

  /** `s || d` where `s` is an optional string: both `undefined` and "" are falsy. */
  function OrElse(s: Option<string>, d: string): string {
    if Truthy(s) then s.value else d
  }

  lemma OrElseNonEmpty(s: Option<string>, d: string)
    requires d != ""
    ensures OrElse(s, d) != ""
  {
  }

  /** How `slice` normalises one index against a length `n`. */
  function SliceIndex(i: int, n: nat): (r: nat)
    ensures r <= n
  {
    if i < 0 then (if n + i < 0 then 0 else n + i) else if i > n then n else i
  }

  /** `s.slice(start, end)` for arrays and strings. */
  function Slice<T>(s: seq<T>, start: int, end: int): (r: seq<T>)
    ensures |r| <= |s|
  {
    var lo := SliceIndex(start, |s|);
    var hi := SliceIndex(end, |s|);
    if lo < hi then s[lo..hi] else []
  }

  /** For non-negative bounds `slice` is the clamped subsequence. */
  lemma SliceNonNegative<T>(s: seq<T>, start: nat, end: nat)
    requires start <= end
    ensures start <= |s| ==> Slice(s, start, end) == s[start..if end <= |s| then end else |s|]
    ensures start > |s| ==> Slice(s, start, end) == []
  {
  }

  /** `s.slice(0, n)` keeps the first `min(n, |s|)` elements. */
  lemma SlicePrefix<T>(s: seq<T>, n: nat)
    ensures |Slice(s, 0, n)| == (if n <= |s| then n else |s|)
    ensures Slice(s, 0, n) <= s
    ensures n >= |s| ==> Slice(s, 0, n) == s
  {
  }

  /** `toLowerCase` on one character, for ASCII and Latin-1 letters. */
  function LowerChar(c: char): char {
    if 'A' <= c <= 'Z' || ('\U{C0}' <= c <= '\U{DE}' && c != '\U{D7}') then
      (c as int + 32) as char
    else
      c
  }

  /** `s.toLowerCase()`, character by character. */
  function ToLower(s: string): (r: string)
    ensures |r| == |s|
    ensures forall i :: 0 <= i < |s| ==> r[i] == LowerChar(s[i])
  {
    if s == [] then [] else [LowerChar(s[0])] + ToLower(s[1..])
  }

  /** A string is the lower-case form of another when it agrees with it character by character. */
  lemma ToLowerIs(t: string, k: string)
    requires |t| == |k| && forall i :: 0 <= i < |t| ==> LowerChar(t[i]) == k[i]
    ensures ToLower(t) == k
  {
  }

  lemma LowerCharIdempotent(c: char)
    ensures LowerChar(LowerChar(c)) == LowerChar(c)
  {
  }

  /** Lowering twice is lowering once. */
  lemma ToLowerIdempotent(s: string)
    ensures ToLower(ToLower(s)) == ToLower(s)
  {
    forall i | 0 <= i < |s| ensures ToLower(ToLower(s))[i] == ToLower(s)[i] {
      LowerCharIdempotent(s[i]);
    }
  }

  /** `h.includes(n)`: `n` occurs in `h` as a contiguous substring. */
  predicate Includes(h: string, n: string)
    decreases |h|
  {
    n <= h || (|h| > 0 && Includes(h[1..], n))
  }

  /** `n` occurs in `h` starting at offset `i`. */
  predicate OccursAt(h: string, n: string, i: int) {
    0 <= i && i + |n| <= |h| && h[i..i + |n|] == n
  }

  /** `includes` agrees with the positional reading: some offset of `h` starts a copy of `n`. */
  lemma {:induction false} IncludesAt(h: string, n: string)
    ensures Includes(h, n) <==> exists i :: OccursAt(h, n, i)
    decreases |h|
  {
    if Includes(h, n) {
      if n <= h {
        assert OccursAt(h, n, 0);
      } else {
        IncludesAt(h[1..], n);
        var i :| OccursAt(h[1..], n, i);
        forall k | 0 <= k < |n| ensures h[i + 1..i + 1 + |n|][k] == n[k] {
          assert h[1..][i..i + |n|][k] == n[k];
        }
        assert h[i + 1..i + 1 + |n|] == n;
        assert OccursAt(h, n, i + 1);
      }
    }
    if exists i :: OccursAt(h, n, i) {
      var i :| OccursAt(h, n, i);
      if i == 0 {
        assert h[..|n|] == n;
      } else {
        forall k | 0 <= k < |n| ensures h[1..][i - 1..i - 1 + |n|][k] == n[k] {
          assert h[i..i + |n|][k] == n[k];
        }
        assert h[1..][i - 1..i - 1 + |n|] == n;
        assert OccursAt(h[1..], n, i - 1);
        IncludesAt(h[1..], n);
      }
    }
  }

  /** `h.toLowerCase().includes(n.toLowerCase())`, the case-insensitive search of the job screens. */
  predicate IncludesIgnoringCase(h: string, n: string) {
    Includes(ToLower(h), ToLower(n))
  }

  /** Every string includes the empty string. */
  lemma IncludesEmpty(h: string)
    ensures Includes(h, "")
  {
  }

  /** The white-space and line-terminator characters that `trim` removes. */
  predicate IsWhite(c: char) {
    c == ' ' || c == '\t' || c == '\n' || c == '\U{B}' || c == '\U{C}' || c == '\r'
    || c == '\U{A0}' || c == '\U{1680}' || ('\U{2000}' <= c <= '\U{200A}')
    || c == '\U{2028}' || c == '\U{2029}' || c == '\U{202F}' || c == '\U{205F}'
    || c == '\U{3000}' || c == '\U{FEFF}'
  }

  function TrimStart(s: string): string {
    if s != [] && IsWhite(s[0]) then TrimStart(s[1..]) else s
  }

  function TrimEnd(s: string): string {
    if s != [] && IsWhite(s[|s| - 1]) then TrimEnd(s[..|s| - 1]) else s
  }

  /** `s.trim()`. */
  function Trim(s: string): string {
    TrimEnd(TrimStart(s))
  }

  lemma {:induction false} TrimStartFacts(s: string)
    ensures |TrimStart(s)| <= |s|
    ensures TrimStart(s) == s[|s| - |TrimStart(s)|..]
    ensures forall i :: 0 <= i < |s| - |TrimStart(s)| ==> IsWhite(s[i])
    ensures TrimStart(s) != [] ==> !IsWhite(TrimStart(s)[0])
  {
    if s != [] && IsWhite(s[0]) {
      var rest := s[1..];
      TrimStartFacts(rest);
      var t := TrimStart(rest);
      assert TrimStart(s) == t;
      assert rest[|rest| - |t|..] == s[|s| - |t|..];
      forall i | 1 <= i < |s| - |t| ensures IsWhite(s[i]) {
        assert s[i] == rest[i - 1];
      }
    }
  }

  lemma {:induction false} TrimEndFacts(s: string)
    ensures |TrimEnd(s)| <= |s|
    ensures TrimEnd(s) == s[..|TrimEnd(s)|]
    ensures forall i :: |TrimEnd(s)| <= i < |s| ==> IsWhite(s[i])
    ensures TrimEnd(s) != [] ==> !IsWhite(TrimEnd(s)[|TrimEnd(s)| - 1])
  {
    if s != [] && IsWhite(s[|s| - 1]) {
      TrimEndFacts(s[..|s| - 1]);
    }
  }

  /** A string is blank (`s.trim() === ""`) exactly when every character is white space. */
  lemma TrimBlank(s: string)
    ensures Trim(s) == "" <==> forall i :: 0 <= i < |s| ==> IsWhite(s[i])
  {
    TrimStartFacts(s);
    var t := TrimStart(s);
    TrimEndFacts(t);
    if Trim(s) != "" {
      assert !IsWhite(t[0]);
      assert s[|s| - |t|] == t[0];
    }
  }

  /** `trim` never lengthens a string and leaves no white space at either end. */
  lemma TrimFacts(s: string)
    ensures |Trim(s)| <= |s|
    ensures Trim(s) != "" ==> !IsWhite(Trim(s)[0]) && !IsWhite(Trim(s)[|Trim(s)| - 1])
  {
    TrimStartFacts(s);
    TrimEndFacts(TrimStart(s));
    if Trim(s) != "" {
      assert Trim(s)[0] == TrimStart(s)[0];
    }
  }

  function DigitChar(d: nat): char
    requires d < 10
  {
    ('0' as int + d) as char
  }

  predicate IsDigit(c: char) {
    '0' <= c <= '9'
  }

  function DigitValue(c: char): nat
    requires IsDigit(c)
  {
    c as int - '0' as int
  }

  /** `n.toString()` for a non-negative integer: its decimal digits, no leading zeros. */
  function Decimal(n: nat): (r: string)
    ensures |r| >= 1
    ensures forall i :: 0 <= i < |r| ==> IsDigit(r[i])
  {
    if n < 10 then [DigitChar(n)] else Decimal(n / 10) + [DigitChar(n % 10)]
  }

  /** The value of a string of decimal digits. */
  function DigitsValue(ds: string): nat
    requires forall i :: 0 <= i < |ds| ==> IsDigit(ds[i])
  {
    if ds == [] then 0 else DigitsValue(ds[..|ds| - 1]) * 10 + DigitValue(ds[|ds| - 1])
  }

  /** The longest prefix of `s` made of decimal digits. */
  function LeadingDigits(s: string): (r: string)
    ensures r <= s
    ensures forall i :: 0 <= i < |r| ==> IsDigit(r[i])
  {
    if s != [] && IsDigit(s[0]) then [s[0]] + LeadingDigits(s[1..]) else []
  }

  /** A JavaScript number as far as `parseInt` produces one. */
  datatype Number = Num(n: int) | NaN

  /**
   * `parseInt(s)` for decimal text: leading white space, an optional sign,
   * then the longest run of decimal digits. A "0x" prefix is not read as hex.
   */
  function ParseInt(s: string): Number {
    var t := TrimStart(s);
    var negative := t != [] && t[0] == '-';
    var body := if t != [] && (t[0] == '-' || t[0] == '+') then t[1..] else t;
    var ds := LeadingDigits(body);
    var v: int := if ds == [] then 0 else DigitsValue(ds);
    if ds == [] then NaN else Num(if negative then -v else v)
  }

  lemma {:induction false} DecimalValue(n: nat)
    ensures DigitsValue(Decimal(n)) == n
  {
    if n >= 10 {
      var d := Decimal(n);
      assert d[..|d| - 1] == Decimal(n / 10);
      DecimalValue(n / 10);
    }
  }

  lemma {:induction false} LeadingDigitsAll(s: string)
    requires forall i :: 0 <= i < |s| ==> IsDigit(s[i])
    ensures LeadingDigits(s) == s
  {
    if s != [] {
      LeadingDigitsAll(s[1..]);
    }
  }

  /** `parseInt(n.toString()) === n`: the round trip the skill and company ids rely on. */
  lemma ParseIntDecimal(n: nat)
    ensures ParseInt(Decimal(n)) == Num(n)
  {
    var d := Decimal(n);
    assert !IsWhite(d[0]);
    assert TrimStart(d) == d;
    LeadingDigitsAll(d);
    DecimalValue(n);
  }
}
