/** Shared vocabulary of the control-plane model: optional values, error
    results (HTTP errors and raised exceptions), ASCII string helpers, decimal
    integer rendering and parsing, and the textual form of ULIDs. */
module Common {

  /** An optional value; `None` stands for Python's `None`. */
  datatype Option<+T> = None | Some(value: T) {
    function GetOr(default: T): T {
      match this
      case Some(v) => v
      case None => default
    }
  }

  /** Why an operation did not produce a value. `Http` is an HTTPException
      with its status code; `Raised` is any other exception, by class name. */
  datatype Failure =
    | Http(status: int, detail: string)
    | Raised(kind: string, message: string)

  /** A value or the failure that replaced it. */
  datatype Result<+T> = Ok(value: T) | Err(failure: Failure) {
    predicate IsHttp(status: int) {
      Err? && failure.Http? && failure.status == status
    }
  }

  /** What a caller of a pydantic model sees when one of its validators
      raises `ValueError(message)`: a `ValidationError` whose text carries
      pydantic's "Value error, " prefix. */
  function ValidatorFailure(message: string): Failure {
    Raised("ValidationError", "Value error, " + message)
  }

  /** Seconds since the Unix epoch of Python's `datetime.min`
      (0001-01-01T00:00:00, taken as UTC). */
  const DatetimeMin: int := -62135596800

  // ---------------------------------------------------------------- strings

  predicate IsUpperAscii(c: char) { 'A' <= c <= 'Z' }
  predicate IsLowerAscii(c: char) { 'a' <= c <= 'z' }
  predicate IsDigit(c: char) { '0' <= c <= '9' }

  /** `str.lower()` restricted to ASCII letters. */
  function LowerChar(c: char): (r: char)
    ensures IsUpperAscii(c) ==> IsLowerAscii(r)
    ensures !IsUpperAscii(c) ==> r == c
  {
    if IsUpperAscii(c) then (c as int + 32) as char else c
  }

  /** `str.upper()` restricted to ASCII letters. */
  function UpperChar(c: char): (r: char)
    ensures IsLowerAscii(c) ==> IsUpperAscii(r)
    ensures !IsLowerAscii(c) ==> r == c
  {
    if IsLowerAscii(c) then (c as int - 32) as char else c
  }

  function Lower(s: string): (r: string)
    ensures |r| == |s|
    ensures forall i :: 0 <= i < |s| ==> r[i] == LowerChar(s[i])
  {
    if s == [] then [] else [LowerChar(s[0])] + Lower(s[1..])
  }

  function Upper(s: string): (r: string)
    ensures |r| == |s|
    ensures forall i :: 0 <= i < |s| ==> r[i] == UpperChar(s[i])
  {
    if s == [] then [] else [UpperChar(s[0])] + Upper(s[1..])
  }

  predicate HasNoUpper(s: string) {
    forall i :: 0 <= i < |s| ==> !IsUpperAscii(s[i])
  }

  /** Lower-casing is idempotent and yields no upper-case letter. */
  lemma LowerIdempotent(s: string)
    ensures HasNoUpper(Lower(s))
    ensures Lower(Lower(s)) == Lower(s)
  {
  }

  lemma LowerOfLowered(s: string)
    requires HasNoUpper(s)
    ensures Lower(s) == s
  {
  }

  predicate HasNoLower(s: string) {
    forall i :: 0 <= i < |s| ==> !IsLowerAscii(s[i])
  }

  lemma UpperOfUppered(s: string)
    requires HasNoLower(s)
    ensures Upper(s) == s
  {
    assert forall i :: 0 <= i < |s| ==> Upper(s)[i] == s[i];
  }

  /** Upper-casing ignores the case the text had. */
  lemma UpperIgnoresCase(s: string)
    ensures Upper(Upper(s)) == Upper(s)
    ensures Upper(Lower(s)) == Upper(s)
  {
  }

  lemma LowerAppend(a: string, b: string)
    ensures Lower(a + b) == Lower(a) + Lower(b)
  {
  }

  predicate StartsWith(s: string, prefix: string) {
    |prefix| <= |s| && s[..|prefix|] == prefix
  }

  predicate EndsWith(s: string, suffix: string) {
    |suffix| <= |s| && s[|s| - |suffix|..] == suffix
  }

  /** Whether `needle` occurs in `s` as a contiguous substring (`in`). */
  predicate Contains(s: string, needle: string) {
    exists i :: 0 <= i <= |s| && OccursAt(s, needle, i)
  }

  predicate OccursAt(s: string, needle: string, i: int) {
    0 <= i && i + |needle| <= |s| && s[i..i + |needle|] == needle
  }

  /** The ASCII characters `str.strip()` and `int()` treat as whitespace:
      space, tab, the line breaks \n, \v, \f, \r and the separators
      \x1c to \x1f. */
  predicate IsSpace(c: char) {
    c == ' ' || c == '\t' || c == '\n' || c == '\r' || c == 11 as char || c == 12 as char || 0x1c as char <= c <= 0x1f as char
  }

  function TrimStart(s: string): (r: string)
    ensures |r| <= |s| && EndsWith(s, r)
    ensures r != [] ==> !IsSpace(r[0])
    decreases |s|
  {
    if s != [] && IsSpace(s[0]) then TrimStart(s[1..]) else s
  }

  function TrimEnd(s: string): (r: string)
    ensures |r| <= |s| && StartsWith(s, r)
    ensures r != [] ==> !IsSpace(r[|r| - 1])
    decreases |s|
  {
    if s != [] && IsSpace(s[|s| - 1]) then TrimEnd(s[..|s| - 1]) else s
  }

  /** `str.strip()` with no argument. */
  function Strip(s: string): (r: string)
    ensures |r| <= |s|
    ensures r != [] ==> !IsSpace(r[0]) && !IsSpace(r[|r| - 1])
  {
    TrimEnd(TrimStart(s))
  }

  lemma StripNoSpace(s: string)
    requires s == [] || (!IsSpace(s[0]) && !IsSpace(s[|s| - 1]))
    ensures Strip(s) == s
  {
  }

  /** A character that is not whitespace survives `TrimStart`. */
  lemma {:induction false} TrimStartKeeps(s: string, i: int)
    requires 0 <= i < |s| && !IsSpace(s[i])
    ensures |s| - |TrimStart(s)| <= i
    decreases |s|
  {
    if s != [] && IsSpace(s[0]) {
      TrimStartKeeps(s[1..], i - 1);
    }
  }

  /** A character that is not whitespace survives `TrimEnd`. */
  lemma {:induction false} TrimEndKeeps(s: string, i: int)
    requires 0 <= i < |s| && !IsSpace(s[i])
    ensures i < |TrimEnd(s)|
    decreases |s|
  {
    if s != [] && IsSpace(s[|s| - 1]) {
      TrimEndKeeps(s[..|s| - 1], i);
    }
  }

  /** `str.strip()` removes whitespace only: every other character of the
      text is still in the stripped text. */
  lemma StripKeeps(s: string, i: int)
    requires 0 <= i < |s| && !IsSpace(s[i])
    ensures exists j :: 0 <= j < |Strip(s)| && Strip(s)[j] == s[i]
  {
    var t := TrimStart(s);
    TrimStartKeeps(s, i);
    var k := i - (|s| - |t|);
    assert t[k] == s[i];
    TrimEndKeeps(t, k);
    assert Strip(s)[k] == s[i];
  }

  /** `int()` refuses text holding anything other than blanks, a sign and
      decimal digits, such as the '.' or 'e' of a float. */
  lemma ParseIntRefusesForeign(s: string, i: int)
    requires 0 <= i < |s| && !IsSpace(s[i]) && !IsDigit(s[i]) && s[i] != '+' && s[i] != '-'
    ensures ParseInt(s).None?
  {
    StripKeeps(s, i);
    var t := Strip(s);
    var j :| 0 <= j < |t| && t[j] == s[i];
    if t[0] == '-' || t[0] == '+' {
      assert j > 0 && t[1..][j - 1] == s[i];
    }
  }

  /** `s.rstrip(c)` for a single character. */
  function RStripChar(s: string, c: char): (r: string)
    ensures StartsWith(s, r)
    ensures r != [] ==> r[|r| - 1] != c
    ensures forall i :: |r| <= i < |s| ==> s[i] == c
    decreases |s|
  {
    if s != [] && s[|s| - 1] == c then RStripChar(s[..|s| - 1], c) else s
  }

  /** `s[:n]` for a non-negative `n`. */
  function Take(s: string, n: nat): (r: string)
    ensures |r| == if n < |s| then n else |s|
    ensures StartsWith(s, r)
  {
    if n < |s| then s[..n] else s
  }

  /** Joins `parts` with `sep` between consecutive parts (`sep.join`). */
  function Join(parts: seq<string>, sep: string): string {
    if parts == [] then ""
    else if |parts| == 1 then parts[0]
    else parts[0] + sep + Join(parts[1..], sep)
  }

  /** Splits on every occurrence of the character `sep` (`s.split(sep)`). */
  function Split(s: string, sep: char): (r: seq<string>)
    ensures |r| >= 1
    ensures forall k :: 0 <= k < |r| ==> sep !in r[k]
    decreases |s|
  {
    if sep !in s then [s]
    else
      var i := IndexOf(s, sep);
      [s[..i]] + Split(s[i + 1..], sep)
  }

  function IndexOf(s: string, c: char): (i: nat)
    requires c in s
    ensures i < |s| && s[i] == c && c !in s[..i]
  {
    if s[0] == c then 0 else 1 + IndexOf(s[1..], c)
  }

  lemma JoinCons(p: string, rest: seq<string>, sep: string)
    requires rest != []
    ensures Join([p] + rest, sep) == p + sep + Join(rest, sep)
  {
    var parts := [p] + rest;
    assert parts[0] == p && parts[1..] == rest;
  }

  lemma {:induction false} SplitJoin(s: string, sep: char)
    ensures Join(Split(s, sep), [sep]) == s
    decreases |s|
  {
    if sep in s {
      var i := IndexOf(s, sep);
      var rest := Split(s[i + 1..], sep);
      assert Split(s, sep) == [s[..i]] + rest;
      JoinCons(s[..i], rest, [sep]);
      SplitJoin(s[i + 1..], sep);
      assert s == s[..i] + [sep] + s[i + 1..];
    }
  }

  // ----------------------------------------------------- decimal integers

  function DigitChar(d: nat): (c: char)
    requires d < 10
    ensures IsDigit(c)
  {
    ('0' as int + d) as char
  }

  function DigitValue(c: char): (d: nat)
    requires IsDigit(c)
    ensures d < 10 && DigitChar(d) == c
  {
    c as int - '0' as int
  }

  /** `str(n)` for a natural number. */
  function NatToString(n: nat): (s: string)
    ensures |s| >= 1
    ensures forall i :: 0 <= i < |s| ==> IsDigit(s[i])
    decreases n
  {
    if n < 10 then [DigitChar(n)] else NatToString(n / 10) + [DigitChar(n % 10)]
  }

  /** `str(n)` for any integer. */
  function IntToString(n: int): (s: string)
    ensures |s| >= 1
  {
    if n < 0 then "-" + NatToString(-n) else NatToString(n)
  }

  predicate AllDigits(s: string) {
    forall i :: 0 <= i < |s| ==> IsDigit(s[i])
  }

  /** The value of a non-empty string of decimal digits. */
  function DigitsValue(s: string): (n: nat)
    requires AllDigits(s)
    decreases |s|
  {
    if s == [] then 0 else DigitsValue(s[..|s| - 1]) * 10 + DigitValue(s[|s| - 1])
  }

  lemma {:induction false} DigitsOfNat(n: nat)
    ensures DigitsValue(NatToString(n)) == n
    decreases n
  {
    if n >= 10 {
      DigitsOfNat(n / 10);
      var s := NatToString(n);
      assert s[..|s| - 1] == NatToString(n / 10);
    }
  }

  /** `int(s)` for a string of ASCII decimal digits with optional surrounding
      whitespace and an optional sign; `None` where Python raises ValueError. */
  function ParseInt(s: string): (r: Option<int>)
    ensures r.Some? ==> Strip(s) != []
  {
    var t := Strip(s);
    if t == [] then None
    else if t[0] == '-' || t[0] == '+' then
      var body := t[1..];
      if body != [] && AllDigits(body) then
        var v: int := DigitsValue(body);
        Some(if t[0] == '-' then -v else v)
      else None
    else if AllDigits(t) then Some(DigitsValue(t))
    else None
  }

  /** Rendering an integer and parsing it back gives the integer. */
  lemma IntRoundTrip(n: int)
    ensures ParseInt(IntToString(n)) == Some(n)
  {
    var s := IntToString(n);
    if n < 0 {
      var d := NatToString(-n);
      assert s == "-" + d;
      StripNoSpace(s);
      DigitsOfNat(-n);
      assert s[1..] == d;
    } else {
      StripNoSpace(s);
      DigitsOfNat(n);
    }
  }

  // ------------------------------------------------------------------ ULIDs

  /** The upper-case Crockford base32 alphabet ULIDs are written in. */
  predicate IsCrockford(c: char) {
    IsDigit(c) || ('A' <= c <= 'Z' && c != 'I' && c != 'L' && c != 'O' && c != 'U')
  }

  /** The canonical text of a ULID: 26 Crockford characters, the first of
      them at most '7' (the pattern `^[0-7][0-9A-HJKMNP-TV-Z]{25}$`). */
  predicate IsUlidText(s: string) {
    |s| == 26 && '0' <= s[0] <= '7' && forall i :: 0 <= i < |s| ==> IsCrockford(s[i])
  }

  /** A ULID, kept as its canonical text (`str(ulid)`). */
  type Ulid = s: string | IsUlidText(s) witness "00000000000000000000000000"

  /** `ULID.from_str`: accepts exactly the canonical text. */
  function UlidFromStr(s: string): (r: Option<Ulid>)
    ensures r.Some? <==> IsUlidText(s)
    ensures r.Some? ==> r.value == s
  {
    if IsUlidText(s) then Some(s) else None
  }

  /** Lower-casing a ULID and upper-casing it again restores it. */
  lemma UpperLowerUlid(u: Ulid)
    ensures Upper(Lower(u)) == u
  {
    var l := Lower(u);
    forall i | 0 <= i < |u| ensures Upper(l)[i] == u[i] {
      assert IsCrockford(u[i]);
    }
  }

  // ------------------------------------------------------------ arithmetic

  function Min(a: int, b: int): int { if a <= b then a else b }
  function Max(a: int, b: int): int { if a >= b then a else b }

  /** Python's `//` (floor division) for a positive divisor. */
  function FloorDiv(a: int, b: int): (q: int)
    requires b > 0
    ensures q * b <= a < q * b + b
  {
    a / b
  }

  /** `math.ceil(a / b)` for a positive divisor. */
  function CeilDiv(a: int, b: int): (q: int)
    requires b > 0
    ensures (q - 1) * b < a <= q * b
  {
    -((-a) / b)
  }

  function SumSeq(xs: seq<int>): int {
    if xs == [] then 0 else SumSeq(xs[..|xs| - 1]) + xs[|xs| - 1]
  }

  lemma SumSeqAppend(xs: seq<int>, ys: seq<int>)
    ensures SumSeq(xs + ys) == SumSeq(xs) + SumSeq(ys)
    decreases |ys|
  {
    if ys != [] {
      assert (xs + ys)[..|xs + ys| - 1] == xs + ys[..|ys| - 1];
      assert (xs + ys)[|xs + ys| - 1] == ys[|ys| - 1];
      SumSeqAppend(xs, ys[..|ys| - 1]);
    } else {
      assert xs + ys == xs;
    }
  }

  // ----------------------------------------------------------- sequences

  /** The elements of `xs` satisfying `p`, in order (a list comprehension
      with a condition, or a `WHERE` clause over a result set). */
  function Filter<T>(xs: seq<T>, p: T -> bool): (r: seq<T>)
    ensures |r| <= |xs|
    ensures forall i :: 0 <= i < |r| ==> p(r[i])
    ensures forall x :: x in r ==> x in xs
  {
    if xs == [] then []
    else Filter(xs[..|xs| - 1], p) + (if p(xs[|xs| - 1]) then [xs[|xs| - 1]] else [])
  }

  lemma {:induction false} FilterMembership<T>(xs: seq<T>, p: T -> bool, x: T)
    ensures x in Filter(xs, p) <==> x in xs && p(x)
  {
    if xs != [] {
      FilterMembership(xs[..|xs| - 1], p, x);
      assert xs == xs[..|xs| - 1] + [xs[|xs| - 1]];
    }
  }

  lemma {:induction false} FilterAppend<T>(xs: seq<T>, ys: seq<T>, p: T -> bool)
    ensures Filter(xs + ys, p) == Filter(xs, p) + Filter(ys, p)
    decreases |ys|
  {
    if ys == [] {
      assert xs + ys == xs;
    } else {
      assert (xs + ys)[..|xs + ys| - 1] == xs + ys[..|ys| - 1];
      assert (xs + ys)[|xs + ys| - 1] == ys[|ys| - 1];
      FilterAppend(xs, ys[..|ys| - 1], p);
    }
  }

  lemma FilterMembershipAll<T>(xs: seq<T>, p: T -> bool)
    ensures forall x :: x in Filter(xs, p) <==> x in xs && p(x)
  {
    forall x ensures x in Filter(xs, p) <==> x in xs && p(x) {
      FilterMembership(xs, p, x);
    }
  }

  /** No element occurs twice. */
  predicate Distinct<T(==)>(xs: seq<T>) {
    forall i, j :: 0 <= i < j < |xs| ==> xs[i] != xs[j]
  }

  /** Filtering keeps distinct elements distinct. */
  lemma {:induction false} FilterDistinct<T>(xs: seq<T>, p: T -> bool)
    requires Distinct(xs)
    ensures Distinct(Filter(xs, p))
  {
    if xs != [] {
      var init := xs[..|xs| - 1];
      var last := xs[|xs| - 1];
      FilterDistinct(init, p);
      assert last !in init;
      if p(last) {
        var r := Filter(xs, p);
        assert r == Filter(init, p) + [last];
        forall i, j | 0 <= i < j < |r| ensures r[i] != r[j] {
          if j == |r| - 1 {
            assert r[i] in Filter(init, p);
          }
        }
      }
    }
  }

  /** A condition every element meets keeps them all. */
  lemma {:induction false} FilterAll<T>(xs: seq<T>, p: T -> bool)
    requires forall x :: x in xs ==> p(x)
    ensures Filter(xs, p) == xs
  {
    if xs != [] {
      FilterAll(xs[..|xs| - 1], p);
      assert xs == xs[..|xs| - 1] + [xs[|xs| - 1]];
    }
  }

  /** A condition no element meets keeps none. */
  lemma FilterNone<T>(xs: seq<T>, p: T -> bool)
    requires forall x :: x in xs ==> !p(x)
    ensures Filter(xs, p) == []
  {
  }

  /** Nothing is kept exactly when no element meets the condition. */
  lemma FilterEmpty<T>(xs: seq<T>, p: T -> bool)
    ensures Filter(xs, p) == [] <==> forall x :: x in xs ==> !p(x)
  {
    FilterMembershipAll(xs, p);
    if Filter(xs, p) != [] {
      assert Filter(xs, p)[0] in Filter(xs, p);
    }
  }

  /** Filtering by `p` and then by a stronger `q` is filtering by `q`. */
  lemma {:induction false} FilterFilter<T>(xs: seq<T>, p: T -> bool, q: T -> bool)
    requires forall x :: q(x) ==> p(x)
    ensures Filter(Filter(xs, p), q) == Filter(xs, q)
  {
    if xs != [] {
      var init := xs[..|xs| - 1];
      var last := xs[|xs| - 1];
      FilterFilter(init, p, q);
      if p(last) {
        FilterAppend(Filter(init, p), [last], q);
      } else {
        assert Filter(xs, p) == Filter(init, p) + [];
        assert Filter(init, p) + [] == Filter(init, p);
        assert Filter(xs, q) == Filter(init, q) + [];
      }
    }
  }

  /** `xs` is strictly increasing under `key`. */
  predicate IncreasingBy<T>(xs: seq<T>, key: T -> int) {
    forall i, j :: 0 <= i < j < |xs| ==> key(xs[i]) < key(xs[j])
  }

  /** Filtering keeps elements in their order. */
  lemma {:induction false} FilterKeepsOrder<T>(xs: seq<T>, p: T -> bool, key: T -> int)
    requires IncreasingBy(xs, key)
    ensures IncreasingBy(Filter(xs, p), key)
  {
    if xs != [] {
      var init := xs[..|xs| - 1];
      var last := xs[|xs| - 1];
      assert IncreasingBy(init, key) by {
        forall i, j | 0 <= i < j < |init| ensures key(init[i]) < key(init[j]) {
          assert init[i] == xs[i] && init[j] == xs[j];
        }
      }
      FilterKeepsOrder(init, p, key);
      var f := Filter(init, p);
      forall i | 0 <= i < |f| ensures key(f[i]) < key(last) {
        assert f[i] in init;
        var k :| 0 <= k < |init| && init[k] == f[i];
        assert xs[k] == init[k];
      }
      if p(last) {
        var r := f + [last];
        assert Filter(xs, p) == r;
        forall i, j | 0 <= i < j < |r| ensures key(r[i]) < key(r[j]) {
          assert r[i] == f[i];
          if j < |f| {
            assert r[j] == f[j];
          } else {
            assert r[j] == last;
          }
        }
      } else {
        assert Filter(xs, p) == f + [];
        assert f + [] == f;
      }
    }
  }

  /** `sum(f(x) for x in xs)`. */
  function SumOf<T>(xs: seq<T>, f: T -> int): int {
    if xs == [] then 0 else SumOf(xs[..|xs| - 1], f) + f(xs[|xs| - 1])
  }

  lemma {:induction false} SumOfAppend<T>(xs: seq<T>, ys: seq<T>, f: T -> int)
    ensures SumOf(xs + ys, f) == SumOf(xs, f) + SumOf(ys, f)
    decreases |ys|
  {
    if ys == [] {
      assert xs + ys == xs;
    } else {
      assert (xs + ys)[..|xs + ys| - 1] == xs + ys[..|ys| - 1];
      assert (xs + ys)[|xs + ys| - 1] == ys[|ys| - 1];
      SumOfAppend(xs, ys[..|ys| - 1], f);
    }
  }

  /** The index of the first element satisfying `p` (what `.first()` of a
      query returns), if any. */
  function FirstIndex<T>(xs: seq<T>, p: T -> bool): (i: Option<nat>)
    ensures i.Some? ==> i.value < |xs| && p(xs[i.value]) && forall j :: 0 <= j < i.value ==> !p(xs[j])
    ensures i.None? ==> forall j :: 0 <= j < |xs| ==> !p(xs[j])
  {
    if xs == [] then None
    else if p(xs[0]) then Some(0)
    else
      var rest := FirstIndex(xs[1..], p);
      assert forall j :: 1 <= j < |xs| ==> xs[j] == xs[1..][j - 1];
      if rest.None? then None else Some(rest.value + 1)
  }

  /** The first element satisfying `p`, if any. */
  function FirstWhere<T>(xs: seq<T>, p: T -> bool): (r: Option<T>)
    ensures r.Some? ==> r.value in xs && p(r.value)
    ensures r.None? ==> forall j :: 0 <= j < |xs| ==> !p(xs[j])
  {
    var i := FirstIndex(xs, p);
    if i.None? then None else Some(xs[i.value])
  }

  /** The first of a list of optional values that is set, if any: the value
      an `if a is not None: … elif b is not None: …` chain picks. */
  function FirstSet<T>(xs: seq<Option<T>>): Option<T> {
    if xs == [] then None else if xs[0].Some? then xs[0] else FirstSet(xs[1..])
  }

  /** The first set value is missing exactly when every value is, and it is
      otherwise a value of the list before which none is set. */
  lemma {:induction false} FirstSetMeaning<T>(xs: seq<Option<T>>)
    ensures FirstSet(xs).None? <==> forall i :: 0 <= i < |xs| ==> xs[i].None?
    ensures FirstSet(xs).Some? ==>
              exists i :: 0 <= i < |xs| && xs[i] == FirstSet(xs) && forall j :: 0 <= j < i ==> xs[j].None?
  {
    if xs != [] && xs[0].None? {
      var rest := xs[1..];
      FirstSetMeaning(rest);
      assert forall j :: 1 <= j < |xs| ==> xs[j] == rest[j - 1];
      if FirstSet(xs).Some? {
        var i :| 0 <= i < |rest| && rest[i] == FirstSet(rest) && forall j :: 0 <= j < i ==> rest[j].None?;
        assert xs[i + 1] == FirstSet(xs);
      }
    }
  }

  /** `m.get(k)`. */
  function MapGet<K, V>(m: map<K, V>, k: K): (r: Option<V>)
    ensures r.Some? <==> k in m
    ensures r.Some? ==> r.value == m[k]
  {
    if k in m then Some(m[k]) else None
  }

  /** `query.one_or_none()`: no row is `None`, one row is that row, and more
      than one raises. */
  function OneOrNone<T>(rows: seq<T>): (r: Result<Option<T>>)
    ensures r.Ok? <==> |rows| <= 1
    ensures r == Ok(None) <==> rows == []
    ensures |rows| == 1 ==> r == Ok(Some(rows[0]))
  {
    if |rows| == 0 then Ok(None)
    else if |rows| == 1 then Ok(Some(rows[0]))
    else Err(Raised("MultipleResultsFound", "Multiple rows were found when one or none was required"))
  }

  // ---------------------------------------------------------------- sorting

  /** `xs` is in non-decreasing order of `key`. */
  predicate SortedBy<T>(xs: seq<T>, key: T -> int) {
    forall i, j :: 0 <= i < j < |xs| ==> key(xs[i]) <= key(xs[j])
  }

  /** `x` placed after every element whose key is at most its own. */
  function InsertBy<T>(x: T, xs: seq<T>, key: T -> int): (r: seq<T>)
    requires SortedBy(xs, key)
    ensures SortedBy(r, key)
    ensures multiset(r) == multiset(xs) + multiset{x}
    ensures |r| == |xs| + 1
  {
    if xs == [] then [x]
    else if key(xs[|xs| - 1]) <= key(x) then xs + [x]
    else
      var init := xs[..|xs| - 1];
      var last := xs[|xs| - 1];
      assert SortedBy(init, key);
      var rest := InsertBy(x, init, key);
      assert xs == init + [last];
      forall i | 0 <= i < |rest| ensures key(rest[i]) <= key(last) {
        assert rest[i] in multiset(rest);
        if rest[i] == x {
        } else {
          assert rest[i] in multiset(init);
          assert rest[i] in init;
        }
      }
      rest + [last]
  }

  /** The stable sort `sorted(xs, key=key)`: insertion of each element, left
      to right, after the equal keys already placed. */
  function SortBy<T>(xs: seq<T>, key: T -> int): (r: seq<T>)
    ensures SortedBy(r, key)
    ensures multiset(r) == multiset(xs)
    ensures |r| == |xs|
  {
    if xs == [] then []
    else
      assert xs == xs[..|xs| - 1] + [xs[|xs| - 1]];
      InsertBy(xs[|xs| - 1], SortBy(xs[..|xs| - 1], key), key)
  }

  /** The elements whose key is `k`. */
  function HasKey<T>(key: T -> int, k: int): T -> bool {
    (e: T) => key(e) == k
  }

  lemma FilterSingle<T>(x: T, p: T -> bool)
    ensures Filter([x], p) == if p(x) then [x] else []
  {
    assert [x][..0] == [];
  }

  /** Inserting an element after placed elements puts it after every element
      of its own key. */
  lemma {:induction false} InsertByStable<T>(x: T, xs: seq<T>, key: T -> int, k: int)
    requires SortedBy(xs, key)
    ensures Filter(InsertBy(x, xs, key), HasKey(key, k)) == Filter(xs, HasKey(key, k)) + Filter([x], HasKey(key, k))
    decreases |xs|
  {
    var p := HasKey(key, k);
    FilterSingle(x, p);
    if xs == [] {
    } else if key(xs[|xs| - 1]) <= key(x) {
      FilterAppend(xs, [x], p);
    } else {
      var init, last := xs[..|xs| - 1], xs[|xs| - 1];
      var rest := InsertBy(x, init, key);
      assert InsertBy(x, xs, key) == rest + [last];
      assert xs == init + [last];
      InsertByStable(x, init, key, k);
      // `x` and `last` have different keys, so at most one of them is kept
      assert !(p(x) && p(last));
      KeptAfterLarger(x, last, init, rest, p);
    }
  }

  /** The step of `InsertByStable`: `x` went into `rest` and `last` follows
      it, where at most one of the two is kept. */
  lemma KeptAfterLarger<T>(x: T, last: T, init: seq<T>, rest: seq<T>, p: T -> bool)
    requires !(p(x) && p(last))
    requires Filter(rest, p) == Filter(init, p) + Filter([x], p)
    ensures Filter(rest + [last], p) == Filter(init + [last], p) + Filter([x], p)
  {
    FilterSingle(x, p);
    FilterSingle(last, p);
    FilterAppend(rest, [last], p);
    FilterAppend(init, [last], p);
    SwapAroundEmpty(Filter(init, p), Filter([x], p), Filter([last], p));
  }

  /** Two sequences of which one is empty may be appended in either order. */
  lemma SwapAroundEmpty<T>(a: seq<T>, b: seq<T>, c: seq<T>)
    requires b == [] || c == []
    ensures a + b + c == a + c + b
  {
    if b == [] {
      assert a + b == a;
    } else {
      assert a + c == a;
    }
  }

  /** `sorted` is stable: the elements of any one key keep their input
      order. */
  lemma {:induction false} SortByStable<T>(xs: seq<T>, key: T -> int, k: int)
    ensures Filter(SortBy(xs, key), HasKey(key, k)) == Filter(xs, HasKey(key, k))
  {
    if xs != [] {
      var init := xs[..|xs| - 1];
      var last := xs[|xs| - 1];
      SortByStable(init, key, k);
      InsertByStable(last, SortBy(init, key), key, k);
      FilterSingle(last, HasKey(key, k));
    }
  }

  // ------------------------------------------------- sorted sets of strings

  /** `a < b` on Python strings: code point by code point, a proper prefix
      first. */
  predicate StrLt(a: string, b: string)
    decreases |a|
  {
    |b| > 0 && (|a| == 0 || a[0] < b[0] || (a[0] == b[0] && StrLt(a[1..], b[1..])))
  }

  lemma {:induction false} StrLtTotal(a: string, b: string)
    requires a != b
    ensures StrLt(a, b) || StrLt(b, a)
    decreases |a|
  {
    if |a| > 0 && |b| > 0 && a[0] == b[0] {
      assert a == [a[0]] + a[1..] && b == [b[0]] + b[1..];
      StrLtTotal(a[1..], b[1..]);
    }
  }

  lemma {:induction false} StrLtIrreflexive(a: string)
    ensures !StrLt(a, a)
    decreases |a|
  {
    if |a| > 0 {
      StrLtIrreflexive(a[1..]);
    }
  }

  /** Every element is below the next one, so no name repeats. */
  predicate StrictlySorted(s: seq<string>) {
    forall i :: 0 < i < |s| ==> StrLt(s[i - 1], s[i])
  }

  /** Puts `x` into its place in `s`, unless it is already there. */
  function InsertName(x: string, s: seq<string>): (r: seq<string>)
    ensures forall y :: y in r <==> y == x || y in s
    ensures r != [] && (r[0] == x || (s != [] && r[0] == s[0]))
  {
    if s == [] then [x]
    else if x == s[0] then s
    else if StrLt(x, s[0]) then [x] + s
    else [s[0]] + InsertName(x, s[1..])
  }

  lemma {:induction false} InsertNameSorted(x: string, s: seq<string>)
    requires StrictlySorted(s)
    ensures StrictlySorted(InsertName(x, s))
  {
    if s != [] && x != s[0] && !StrLt(x, s[0]) {
      StrLtTotal(x, s[0]);
      var rest := s[1..];
      assert StrictlySorted(rest) by {
        forall i | 0 < i < |rest| ensures StrLt(rest[i - 1], rest[i]) {
          assert rest[i - 1] == s[i] && rest[i] == s[i + 1];
        }
      }
      InsertNameSorted(x, rest);
      var tail := InsertName(x, rest);
      var r := [s[0]] + tail;
      assert tail[0] == x || tail[0] == s[1];
      forall i | 0 < i < |r| ensures StrLt(r[i - 1], r[i]) {
        if i > 1 {
          assert r[i - 1] == tail[i - 2] && r[i] == tail[i - 1];
        }
      }
    }
  }

  /** `sorted(set(xs))`. */
  function SortNames(xs: seq<string>): (r: seq<string>)
    ensures forall y :: y in r <==> y in xs
  {
    if xs == [] then [] else InsertName(xs[|xs| - 1], SortNames(xs[..|xs| - 1]))
  }

  lemma {:induction false} SortNamesSorted(xs: seq<string>)
    ensures StrictlySorted(SortNames(xs))
  {
    if xs != [] {
      SortNamesSorted(xs[..|xs| - 1]);
      InsertNameSorted(xs[|xs| - 1], SortNames(xs[..|xs| - 1]));
    }
  }
}
