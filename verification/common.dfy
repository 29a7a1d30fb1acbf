/** Shared vocabulary of the model: nullable values, JavaScript truthiness of
    nullable strings, decimal text, whitespace trimming, ASCII case mapping,
    prefix and substring tests, and the stable sort that `Array.prototype.sort`
    performs. Every other module imports this one. */
module Common {

  datatype Option<+T> = None | Some(value: T) {
    function GetOr(default: T): T {
      if Some? then value else default
    }
  }

  // ---------------------------------------------------------------------------
  // Nullable strings and JavaScript truthiness

  /** `!!x` for a `string | null`: null and the empty string are falsy. */
  predicate Truthy(x: Option<string>) {
    x.Some? && x.value != ""
  }

  /** `a || b` for two `string | null` values. */
  function Or(a: Option<string>, b: Option<string>): Option<string> {
    if Truthy(a) then a else b
  }

  /** `x || null`: falsy strings collapse to null. */
  function OrNull(x: Option<string>): Option<string> {
    if Truthy(x) then x else None
  }

  /** `s || fallback` for a plain string. */
  function OrStr(s: string, fallback: string): string {
    if s != "" then s else fallback
  }

  // ---------------------------------------------------------------------------
  // Decimal text

  predicate IsDigit(c: char) {
    '0' <= c <= '9'
  }

  predicate AllDigits(s: string) {
    forall i | 0 <= i < |s| :: IsDigit(s[i])
  }

  function DigitChar(d: nat): char
    requires d < 10
  {
    ('0' as int + d) as char
  }

  function DigitValue(c: char): nat
    requires IsDigit(c)
  {
    c as int - '0' as int
  }

  /** `String(n)` for a non-negative integer: shortest decimal form. */
  function NatToString(n: nat): (s: string)
    ensures 1 <= |s| && AllDigits(s)
    ensures |s| > 1 ==> s[0] != '0'
    decreases n
  {
    if n < 10 then [DigitChar(n)] else NatToString(n / 10) + [DigitChar(n % 10)]
  }

  /** Value of a string of decimal digits (the empty string is 0). */
  function DigitsValue(s: string): nat
    requires AllDigits(s)
    decreases |s|
  {
    if s == [] then 0 else 10 * DigitsValue(s[..|s| - 1]) + DigitValue(s[|s| - 1])
  }

  /** A non-empty run of decimal digits read as a number; anything else is rejected. */
  function ParseNat(s: string): Option<nat> {
    if s != [] && AllDigits(s) then Some(DigitsValue(s)) else None
  }

  lemma {:induction false} DigitsValueOfNatToString(n: nat)
    ensures DigitsValue(NatToString(n)) == n
    decreases n
  {
    if n >= 10 {
      DigitsValueOfNatToString(n / 10);
      var s := NatToString(n);
      assert s[..|s| - 1] == NatToString(n / 10);
    }
  }

  /** Decimal printing and parsing are inverse. */
  lemma ParseNatToString(n: nat)
    ensures ParseNat(NatToString(n)) == Some(n)
  {
    DigitsValueOfNatToString(n);
  }

  /** Printing is injective: distinct numbers print differently. */
  lemma NatToStringInjective(a: nat, b: nat)
    requires NatToString(a) == NatToString(b)
    ensures a == b
  {
    ParseNatToString(a);
    ParseNatToString(b);
  }

  /** The longest run of digits at the head of `s`. */
  function DigitPrefix(s: string): (d: string)
    ensures AllDigits(d) && |d| <= |s| && d == s[..|d|]
    ensures |d| < |s| ==> !IsDigit(s[|d|])
    decreases |s|
  {
    if s != [] && IsDigit(s[0]) then [s[0]] + DigitPrefix(s[1..]) else []
  }

  /** `parseInt(s, 10)`: leading whitespace skipped, an optional sign, then
      the longest run of digits; `None` stands for NaN, when no digit
      follows. */
  function ParseInt(s: string): Option<int> {
    var t := TrimStart(s);
    var signed := t != [] && (t[0] == '-' || t[0] == '+');
    var digits := DigitPrefix(if signed then t[1..] else t);
    var magnitude: int := if digits == [] then 0 else DigitsValue(digits);
    if digits == [] then None
    else if signed && t[0] == '-' then Some(-magnitude)
    else Some(magnitude)
  }

  /** A string made only of digits reads the same under `parseInt` as under
      `ParseNat`. */
  lemma ParseIntOfDigits(s: string)
    requires s != [] && AllDigits(s)
    ensures ParseInt(s) == Some(DigitsValue(s))
  {
    assert !IsJsWhitespace(s[0]);
    assert TrimStart(s) == s;
    DigitPrefixOfDigits(s);
  }

  /** A run of digits is its own digit prefix. */
  lemma DigitPrefixOfDigits(s: string)
    requires AllDigits(s)
    ensures DigitPrefix(s) == s
  {
    assert |DigitPrefix(s)| == |s|;
  }

  /** `parseInt` reads back the decimal text of a number. */
  lemma ParseIntNatToString(n: nat)
    ensures ParseInt(NatToString(n)) == Some(n)
  {
    ParseIntOfDigits(NatToString(n));
    DigitsValueOfNatToString(n);
  }

  /** `parseInt` reads back the decimal text of a negated number. */
  lemma ParseIntNegated(n: nat)
    ensures ParseInt("-" + NatToString(n)) == Some(-(n as int))
  {
    var s := NatToString(n);
    DigitsValueOfNatToString(n);
    var t := "-" + s;
    assert t[0] == '-' && t[1..] == s;
    ParseIntMinusDigits(t, s);
  }

  /** A minus sign followed by a run of digits reads as the negated run. */
  lemma ParseIntMinusDigits(t: string, s: string)
    requires s != [] && AllDigits(s)
    requires t != [] && t[0] == '-' && t[1..] == s
    ensures ParseInt(t) == Some(-(DigitsValue(s) as int))
  {
    assert !IsJsWhitespace(t[0]);
    assert TrimStart(t) == t;
    DigitPrefixOfDigits(s);
  }

  predicate IsHexDigit(c: char) {
    IsDigit(c) || 'a' <= c <= 'f' || 'A' <= c <= 'F'
  }

  predicate AllHexDigits(s: string) {
    forall i | 0 <= i < |s| :: IsHexDigit(s[i])
  }

  function HexDigitValue(c: char): (v: nat)
    requires IsHexDigit(c)
    ensures v < 16
  {
    if IsDigit(c) then DigitValue(c)
    else if 'a' <= c <= 'f' then c as int - 'a' as int + 10
    else c as int - 'A' as int + 10
  }

  /** Value of a string of hexadecimal digits (the empty string is 0). */
  function HexValue(s: string): nat
    requires AllHexDigits(s)
    decreases |s|
  {
    if s == [] then 0 else 16 * HexValue(s[..|s| - 1]) + HexDigitValue(s[|s| - 1])
  }

  /** The longest run of hexadecimal digits at the head of `s`. */
  function HexPrefix(s: string): (d: string)
    ensures AllHexDigits(d) && |d| <= |s| && d == s[..|d|]
    ensures |d| < |s| ==> !IsHexDigit(s[|d|])
    decreases |s|
  {
    if s != [] && IsHexDigit(s[0]) then [s[0]] + HexPrefix(s[1..]) else []
  }

  /** The text `parseInt` reads digits from: leading whitespace and one
      sign removed. */
  function Unsigned(s: string): string {
    var t := TrimStart(s);
    if t != [] && (t[0] == '-' || t[0] == '+') then t[1..] else t
  }

  /** After the whitespace and the sign, the text starts with "0x" or "0X". */
  predicate HexPrefixed(s: string) {
    var body := Unsigned(s);
    |body| >= 2 && body[0] == '0' && (body[1] == 'x' || body[1] == 'X')
  }

  /** `parseInt(s)` without a radix: like `parseInt(s, 10)`, except that a
      "0x" or "0X" after the sign switches to base 16 and is skipped; `None`
      stands for NaN, when no digit of the base follows. */
  function ParseIntNoRadix(s: string): Option<int> {
    if !HexPrefixed(s) then ParseInt(s)
    else
      var t := TrimStart(s);
      var digits := HexPrefix(Unsigned(s)[2..]);
      if digits == [] then None
      else if t[0] == '-' then Some(-(HexValue(digits) as int))
      else Some(HexValue(digits))
  }

  /** Decimal text of a number never starts with "0x", so both readings
      of `parseInt` agree on it. */
  lemma NatToStringNotHexPrefixed(n: nat)
    ensures !HexPrefixed(NatToString(n)) && !HexPrefixed("-" + NatToString(n))
  {
    var s := NatToString(n);
    assert !IsJsWhitespace(s[0]) && TrimStart(s) == s;
    var m := "-" + s;
    assert !IsJsWhitespace(m[0]) && TrimStart(m) == m && m[1..] == s;
  }

  /** Without a radix, `parseInt` reads back the decimal text of a number. */
  lemma ParseIntNoRadixNatToString(n: nat)
    ensures ParseIntNoRadix(NatToString(n)) == Some(n)
    ensures ParseIntNoRadix("-" + NatToString(n)) == Some(-(n as int))
  {
    NatToStringNotHexPrefixed(n);
    ParseIntNatToString(n);
    ParseIntNegated(n);
  }

  /** Without a radix, "0x" or "0X" and a run of hexadecimal digits, with an
      optional minus sign before them, read as that hexadecimal number,
      where `parseInt(s, 10)` stops at the "x" and reads 0. */
  lemma ParseIntNoRadixHex(d: string, x: char, negative: bool)
    requires d != [] && AllHexDigits(d) && (x == 'x' || x == 'X')
    ensures var s := (if negative then "-" else "") + ['0', x] + d;
      ParseIntNoRadix(s) == Some(if negative then -(HexValue(d) as int) else HexValue(d))
      && ParseInt(s) == Some(0)
  {
    var sign := if negative then "-" else "";
    var body := ['0', x] + d;
    var s := sign + body;
    assert s == (if negative then "-" else "") + ['0', x] + d;
    SignedBody(s, sign, body);
    HexBodyReads(s, body, d);
    DecimalStopsAtX(s, body);
  }

  lemma HexBodyReads(s: string, body: string, d: string)
    requires TrimStart(s) == s && Unsigned(s) == body
    requires |body| >= 2 && body[0] == '0' && (body[1] == 'x' || body[1] == 'X') && body[2..] == d
    requires d != [] && AllHexDigits(d)
    ensures ParseIntNoRadix(s) == Some(if s[0] == '-' then -(HexValue(d) as int) else HexValue(d))
  {
    HexPrefixOfHex(d);
  }

  lemma DecimalStopsAtX(s: string, body: string)
    requires TrimStart(s) == s && Unsigned(s) == body
    requires |body| >= 2 && body[0] == '0' && !IsDigit(body[1])
    ensures ParseInt(s) == Some(0)
  {
    assert DigitPrefix(body) == "0" by {
      assert DigitPrefix(body[1..]) == [];
    }
    assert DigitsValue("0") == 0 by {
      assert "0"[..0] == [];
    }
  }

  /** A text that starts with an optional minus sign and then a digit is its
      own trimmed form, and reads its digits from after the sign. */
  lemma SignedBody(s: string, sign: string, body: string)
    requires sign == "" || sign == "-"
    requires body != [] && IsDigit(body[0]) && s == sign + body
    ensures TrimStart(s) == s && Unsigned(s) == body
    ensures TrimStart(s)[0] == '-' <==> sign == "-"
  {
    assert !IsJsWhitespace(s[0]);
    if sign == "-" {
      assert s[1..] == body;
    }
  }

  /** A run of hexadecimal digits is its own hexadecimal prefix. */
  lemma HexPrefixOfHex(d: string)
    requires AllHexDigits(d)
    ensures HexPrefix(d) == d
  {
    assert |HexPrefix(d)| == |d|;
  }

  /** `s.padStart(width, c)`. */
  function PadStart(s: string, width: nat, c: char): string {
    if |s| >= width then s else seq(width - |s|, _ => c) + s
  }

  // ---------------------------------------------------------------------------
  // Whitespace, trimming, case mapping

  /** The characters that `String.prototype.trim` removes and that `\s`
      matches in a JavaScript regular expression. */
  predicate IsJsWhitespace(c: char) {
    var n := c as int;
    n == 0x09 || n == 0x0A || n == 0x0B || n == 0x0C || n == 0x0D || n == 0x20
    || n == 0xA0 || n == 0x1680 || (0x2000 <= n <= 0x200A) || n == 0x2028
    || n == 0x2029 || n == 0x202F || n == 0x205F || n == 0x3000 || n == 0xFEFF
  }

  function TrimStart(s: string): string
    decreases |s|
  {
    if s != [] && IsJsWhitespace(s[0]) then TrimStart(s[1..]) else s
  }

  function TrimEnd(s: string): string
    decreases |s|
  {
    if s != [] && IsJsWhitespace(s[|s| - 1]) then TrimEnd(s[..|s| - 1]) else s
  }

  /** `s.trim()`. */
  function Trim(s: string): string {
    TrimEnd(TrimStart(s))
  }

  /** A string that neither starts nor ends with whitespace. */
  predicate Trimmed(s: string) {
    s == [] || (!IsJsWhitespace(s[0]) && !IsJsWhitespace(s[|s| - 1]))
  }

  lemma {:induction false} TrimStartShape(s: string)
    ensures TrimStart(s) == [] || !IsJsWhitespace(TrimStart(s)[0])
    decreases |s|
  {
    if s != [] && IsJsWhitespace(s[0]) {
      TrimStartShape(s[1..]);
    }
  }

  lemma {:induction false} TrimEndKeepsHead(s: string)
    requires s == [] || !IsJsWhitespace(s[0])
    ensures Trimmed(TrimEnd(s))
    decreases |s|
  {
    if s != [] && IsJsWhitespace(s[|s| - 1]) {
      var t := s[..|s| - 1];
      assert t == [] || t[0] == s[0];
      TrimEndKeepsHead(t);
    }
  }

  /** The result of `trim()` has no surrounding whitespace. */
  lemma TrimIsTrimmed(s: string)
    ensures Trimmed(Trim(s))
  {
    TrimStartShape(s);
    TrimEndKeepsHead(TrimStart(s));
  }

  /** `trim()` leaves a trimmed string alone, so it is idempotent. */
  lemma TrimIdempotent(s: string)
    ensures Trim(Trim(s)) == Trim(s)
  {
    TrimIsTrimmed(s);
    var t := Trim(s);
    assert TrimStart(t) == t;
    assert TrimEnd(t) == t;
  }

  function UpperChar(c: char): char {
    if 'a' <= c <= 'z' then (c as int - 32) as char else c
  }

  function LowerChar(c: char): char {
    if 'A' <= c <= 'Z' then (c as int + 32) as char else c
  }

  /** `toUpperCase()` on the ASCII letters. */
  function ToUpper(s: string): string {
    seq(|s|, i requires 0 <= i < |s| => UpperChar(s[i]))
  }

  /** `toLowerCase()` on the ASCII letters. */
  function ToLower(s: string): string {
    seq(|s|, i requires 0 <= i < |s| => LowerChar(s[i]))
  }

  // ---------------------------------------------------------------------------
  // Prefix and substring tests

  /** `s.startsWith(p)`. */
  predicate StartsWith(s: string, p: string) {
    |p| <= |s| && s[..|p|] == p
  }

  /** `s.includes(sub)`. */
  predicate Contains(s: string, sub: string)
    decreases |s|
  {
    StartsWith(s, sub) || (s != [] && Contains(s[1..], sub))
  }

  /** Every occurrence of `sub` in `s` has its characters at some index of `s`,
      so a character of `sub` that `s` lacks rules the occurrence out. */
  lemma {:induction false} NotContainsMissingChar(s: string, sub: string, k: nat)
    requires k < |sub|
    requires forall i | 0 <= i < |s| :: s[i] != sub[k]
    ensures !Contains(s, sub)
    decreases |s|
  {
    if |sub| <= |s| {
      assert s[..|sub|][k] == s[k] != sub[k];
    }
    if s != [] {
      NotContainsMissingChar(s[1..], sub, k);
    }
  }

  // ---------------------------------------------------------------------------
  // Stable sort by an integer key (`Array.prototype.sort` with `key(a) - key(b)`)

  ghost predicate SortedBy<T>(s: seq<T>, key: T -> int) {
    forall i, j | 0 <= i < j < |s| :: key(s[i]) <= key(s[j])
  }

  /** A prefix of a sorted sequence is sorted. */
  lemma SortedPrefix<T>(s: seq<T>, key: T -> int, n: nat)
    requires SortedBy(s, key) && n <= |s|
    ensures SortedBy(s[..n], key)
  {
    var t := s[..n];
    forall i, j | 0 <= i < j < |t|
      ensures key(t[i]) <= key(t[j])
    {
      assert t[i] == s[i] && t[j] == s[j];
    }
  }

  /** A head no larger than the first of a sorted tail keeps it sorted. */
  lemma SortedCons<T>(h: T, t: seq<T>, key: T -> int)
    requires SortedBy(t, key) && (t != [] ==> key(h) <= key(t[0]))
    ensures SortedBy([h] + t, key)
  {
    var r := [h] + t;
    forall i, j | 0 <= i < j < |r|
      ensures key(r[i]) <= key(r[j])
    {
      assert r[j] == t[j - 1];
      if i == 0 {
        assert key(t[0]) <= key(t[j - 1]);
      } else {
        assert r[i] == t[i - 1];
      }
    }
  }

  /** The step of `Insert` that keeps the head in front of the insertion. */
  lemma InsertBehind<T>(x: T, s: seq<T>, rest: seq<T>, key: T -> int)
    requires s != [] && SortedBy(s, key) && key(s[0]) < key(x)
    requires SortedBy(rest, key) && multiset(rest) == multiset(s[1..]) + multiset{x}
    ensures SortedBy([s[0]] + rest, key)
    ensures multiset([s[0]] + rest) == multiset(s) + multiset{x}
  {
    assert s == [s[0]] + s[1..];
    if rest != [] {
      assert rest[0] in multiset(rest);
      if rest[0] != x {
        assert rest[0] in multiset(s[1..]);
        var i :| 0 <= i < |s[1..]| && s[1..][i] == rest[0];
        assert s[1..][i] == s[i + 1];
      }
    }
    SortedCons(s[0], rest, key);
  }

  /** Puts `x` in front of the first element whose key is not smaller, so
      that `x` stays ahead of equal keys that came after it in the input. */
  function Insert<T>(x: T, s: seq<T>, key: T -> int): (r: seq<T>)
    requires SortedBy(s, key)
    ensures SortedBy(r, key)
    ensures multiset(r) == multiset(s) + multiset{x}
    ensures |r| == |s| + 1
    decreases |s|
  {
    if s == [] then [x]
    else if key(x) <= key(s[0]) then
      SortedCons(x, s, key);
      [x] + s
    else
      var rest := Insert(x, s[1..], key);
      InsertBehind(x, s, rest, key);
      [s[0]] + rest
  }

  /** The ascending stable sort: the result is ordered by `key` and is a
      permutation of the input. */
  function SortBy<T>(s: seq<T>, key: T -> int): (r: seq<T>)
    ensures SortedBy(r, key)
    ensures multiset(r) == multiset(s)
    ensures |r| == |s|
    decreases |s|
  {
    if s == [] then []
    else
      assert s == [s[0]] + s[1..];
      Insert(s[0], SortBy(s[1..], key), key)
  }

  /** Elements of a permutation are elements of the original. */
  lemma PermutationMembers<T>(r: seq<T>, s: seq<T>, x: T)
    requires multiset(r) == multiset(s)
    ensures x in r <==> x in s
  {
    assert x in r <==> x in multiset(r);
    assert x in s <==> x in multiset(s);
  }

  // ---------------------------------------------------------------------------
  // Sequences

  /** `s.map(f)`. */
  function MapSeq<T, U>(f: T -> U, s: seq<T>): seq<U> {
    seq(|s|, i requires 0 <= i < |s| => f(s[i]))
  }

  /** A sequence without repeated elements. */
  predicate Distinct<T(==)>(s: seq<T>) {
    forall i, j | 0 <= i < j < |s| :: s[i] != s[j]
  }

  /** No two elements of `s` agree on `f`. */
  predicate DistinctBy<T, K(==)>(s: seq<T>, f: T -> K) {
    forall i, j | 0 <= i < j < |s| :: f(s[i]) != f(s[j])
  }

  /** A head whose image differs from every image of a tail free of
      repeats keeps it free of repeats. */
  lemma DistinctByCons<T, K>(h: T, t: seq<T>, f: T -> K)
    requires DistinctBy(t, f) && forall j | 0 <= j < |t| :: f(h) != f(t[j])
    ensures DistinctBy([h] + t, f)
  {
    var r := [h] + t;
    forall i, j | 0 <= i < j < |r|
      ensures f(r[i]) != f(r[j])
    {
      assert r[j] == t[j - 1];
      if i > 0 {
        assert r[i] == t[i - 1];
      }
    }
  }

  lemma {:induction false} InsertDistinctBy<T, K>(x: T, s: seq<T>, key: T -> int, f: T -> K)
    requires SortedBy(s, key) && DistinctBy(s, f)
    requires forall j | 0 <= j < |s| :: f(s[j]) != f(x)
    ensures DistinctBy(Insert(x, s, key), f)
    decreases |s|
  {
    if s == [] {
    } else if key(x) <= key(s[0]) {
      DistinctByCons(x, s, f);
    } else {
      var tail := s[1..];
      assert forall j | 0 <= j < |tail| :: tail[j] == s[j + 1];
      InsertDistinctBy(x, tail, key, f);
      var rest := Insert(x, tail, key);
      forall j | 0 <= j < |rest| ensures f(s[0]) != f(rest[j]) {
        assert rest[j] in multiset(rest);
        if rest[j] != x {
          assert rest[j] in multiset(tail);
          var k :| 0 <= k < |tail| && tail[k] == rest[j];
        }
      }
      DistinctByCons(s[0], rest, f);
    }
  }

  /** Sorting keeps elements that were distinct under `f` distinct. */
  lemma {:induction false} SortByDistinctBy<T, K>(s: seq<T>, key: T -> int, f: T -> K)
    requires DistinctBy(s, f)
    ensures DistinctBy(SortBy(s, key), f)
    decreases |s|
  {
    if s != [] {
      SortByDistinctBy(s[1..], key, f);
      var sorted := SortBy(s[1..], key);
      forall j | 0 <= j < |sorted| ensures f(sorted[j]) != f(s[0]) {
        assert sorted[j] in multiset(sorted);
        var k :| 0 <= k < |s[1..]| && s[1..][k] == sorted[j];
        assert s[k + 1] == sorted[j];
      }
      InsertDistinctBy(s[0], sorted, key, f);
    }
  }

  /** `s.filter(p)`. */
  function Filter<T>(s: seq<T>, p: T -> bool): (r: seq<T>)
    ensures |r| <= |s|
    ensures forall x | x in r :: x in s && p(x)
    ensures forall x | x in s && p(x) :: x in r
    decreases |s|
  {
    if s == [] then []
    else
      var rest := Filter(s[..|s| - 1], p);
      var x := s[|s| - 1];
      assert forall y | y in s :: y in s[..|s| - 1] || y == x by {
        assert s == s[..|s| - 1] + [x];
      }
      if p(x) then rest + [x] else rest
  }

  /** `y` is the image under `f` of a member of `s` that passes `p`. */
  ghost predicate IsImageOf<T, U>(y: U, s: seq<T>, p: T -> bool, f: T -> U) {
    exists x | x in s && p(x) :: y == f(x)
  }

  /** The element an image comes from. */
  lemma ImageWitness<T, U>(y: U, s: seq<T>, p: T -> bool, f: T -> U) returns (x: T)
    requires IsImageOf(y, s, p, f)
    ensures x in s && p(x) && y == f(x)
  {
    x :| x in s && p(x) && y == f(x);
  }

  /** A permutation of the images of the elements that pass a filter (a
      sorted copy, say) loses and adds nothing: every member is the image of
      a passing element, and every passing element's image is a member. */
  lemma PermutedImages<T, U>(s: seq<T>, p: T -> bool, f: T -> U, r: seq<U>)
    requires multiset(r) == multiset(MapSeq(f, Filter(s, p)))
    ensures forall y | y in r :: IsImageOf(y, s, p, f)
    ensures forall x | x in s && p(x) :: f(x) in r
  {
    var kept := Filter(s, p);
    var images := MapSeq(f, kept);
    forall y | y in r ensures IsImageOf(y, s, p, f) {
      PermutationMembers(r, images, y);
      var x := ImageSource(kept, f, y);
    }
    forall x | x in s && p(x) ensures f(x) in r {
      ImageMember(kept, f, x);
      PermutationMembers(r, images, f(x));
    }
  }

  /** The image of a member of `s` is a member of `s.map(f)`. */
  lemma ImageMember<T, U>(s: seq<T>, f: T -> U, x: T)
    requires x in s
    ensures f(x) in MapSeq(f, s)
  {
    var k :| 0 <= k < |s| && s[k] == x;
    assert MapSeq(f, s)[k] == f(x);
  }

  /** A member of `s.map(f)` is the image of a member of `s`. */
  lemma ImageSource<T, U>(s: seq<T>, f: T -> U, y: U) returns (x: T)
    requires y in MapSeq(f, s)
    ensures x in s && y == f(x)
  {
    var k :| 0 <= k < |s| && MapSeq(f, s)[k] == y;
    x := s[k];
  }

  /** `r` is `s` with some elements left out, the rest in their order. */
  predicate IsSubsequence<T(==)>(r: seq<T>, s: seq<T>)
    decreases |s|
  {
    if r == [] then true
    else if s == [] then false
    else if r[|r| - 1] == s[|s| - 1] then IsSubsequence(r[..|r| - 1], s[..|s| - 1])
    else IsSubsequence(r, s[..|s| - 1])
  }

  /** Filtering keeps the surviving elements in their original order. */
  lemma {:induction false} FilterIsSubsequence<T>(s: seq<T>, p: T -> bool)
    ensures IsSubsequence(Filter(s, p), s)
    decreases |s|
  {
    if s != [] {
      var prefix := s[..|s| - 1];
      FilterIsSubsequence(prefix, p);
      var rest := Filter(prefix, p);
      if p(s[|s| - 1]) {
        assert (rest + [s[|s| - 1]])[..|rest|] == rest;
      } else if rest != [] {
        SubsequenceSkipLast(rest, prefix, s[|s| - 1]);
      }
    }
  }

  /** Appending an element to `s` keeps `r` a subsequence of it. */
  lemma {:induction false} SubsequenceSkipLast<T>(r: seq<T>, s: seq<T>, x: T)
    requires IsSubsequence(r, s)
    ensures IsSubsequence(r, s + [x])
    decreases |s|, 1
  {
    assert (s + [x])[..|s|] == s;
    if r != [] && r[|r| - 1] == x {
      SubsequenceDropLast(r, s);
    }
  }

  /** A subsequence with its last element removed is still a subsequence. */
  lemma {:induction false} SubsequenceDropLast<T>(r: seq<T>, s: seq<T>)
    requires r != [] && IsSubsequence(r, s)
    ensures IsSubsequence(r[..|r| - 1], s)
    decreases |s|, 0
  {
    var s' := s[..|s| - 1];
    if r[|r| - 1] == s[|s| - 1] {
      SubsequenceSkipLast(r[..|r| - 1], s', s[|s| - 1]);
      assert s' + [s[|s| - 1]] == s;
    } else {
      SubsequenceDropLast(r, s');
      SubsequenceSkipLast(r[..|r| - 1], s', s[|s| - 1]);
      assert s' + [s[|s| - 1]] == s;
    }
  }

  /** Filtering by a stronger test after a weaker one is filtering by the
      stronger test alone. */
  lemma {:induction false} FilterNested<T>(s: seq<T>, weak: T -> bool, strong: T -> bool)
    requires forall x | x in s && strong(x) :: weak(x)
    ensures Filter(Filter(s, weak), strong) == Filter(s, strong)
    decreases |s|
  {
    if s != [] {
      var prefix := s[..|s| - 1];
      FilterNested(prefix, weak, strong);
      var x := s[|s| - 1];
      var w := Filter(prefix, weak);
      if weak(x) {
        assert (w + [x])[..|w|] == w;
      }
    }
  }

  /** `[...s].reverse()`. */
  function Reverse<T>(s: seq<T>): seq<T> {
    seq(|s|, i requires 0 <= i < |s| => s[|s| - 1 - i])
  }

  /** `s.find(p)`: the first element passing `p`, if any. */
  function FindFirst<T>(s: seq<T>, p: T -> bool): (r: Option<T>)
    ensures r.Some? ==> r.value in s && p(r.value)
    ensures r.None? <==> forall j | 0 <= j < |s| :: !p(s[j])
    ensures r.Some? ==> exists i | 0 <= i < |s| :: s[i] == r.value && forall j | 0 <= j < i :: !p(s[j])
    decreases |s|
  {
    if s == [] then None
    else if p(s[0]) then Some(s[0])
    else
      var r := FindFirst(s[1..], p);
      assert forall j | 1 <= j < |s| :: s[j] == s[1..][j - 1];
      if r.Some? then
        assert exists i | 0 <= i < |s| :: s[i] == r.value && forall j | 0 <= j < i :: !p(s[j]) by {
          var i :| 0 <= i < |s[1..]| && s[1..][i] == r.value && forall j | 0 <= j < i :: !p(s[1..][j]);
          assert s[i + 1] == r.value;
        }
        r
      else r
  }

  /** `find` returns the element at the first index that passes. */
  lemma FindFirstAt<T>(s: seq<T>, p: T -> bool, j: nat)
    requires j < |s| && p(s[j])
    requires forall k | 0 <= k < j :: !p(s[k])
    ensures FindFirst(s, p) == Some(s[j])
  {
    var found := FindFirst(s, p);
    var i :| 0 <= i < |s| && s[i] == found.value && forall k | 0 <= k < i :: !p(s[k]);
    assert !(i < j) && !(j < i);
  }
}
