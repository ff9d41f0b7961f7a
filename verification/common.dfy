/** Shared vocabulary of the model: optional values and error results, the parts
    of Python's string behaviour the core relies on (whitespace stripping,
    `split(None, 1)`, `startswith`, `str(int)`, the `:,` format, `str.replace`,
    lexicographic comparison) and calendar dates with their "YYYY.MM" label. */
module Common {

  datatype Option<+T> = None | Some(value: T) {
    function GetOr(default: T): T {
      if Some? then value else default
    }
  }

  /** The exceptions the core raises or lets through. */
  datatype Error =
    | KeyError(key: string)         // `d[key]` on a missing key
    | TypeError(what: string)       // a value of the wrong shape
    | ValueError(message: string)   // `raise ValueError(...)`, failed tuple unpacking
    | NameError(name: string)       // an undefined local or global name
    | Raised(message: string)       // an exception coming out of an external collaborator
    | Unauthorized(message: string) // werkzeug's 401 `Unauthorized`
    | IndexError(message: string)   // a sequence index out of range
    | AttributeError(message: string) // an attribute missing on the value, e.g. on `None`

  /** `str(e)` of a raised error: a `KeyError` shows its key quoted, the
      others their message. */
  function Describe(e: Error): string {
    match e
    case KeyError(key) => "'" + key + "'"
    case TypeError(what) => what
    case ValueError(message) => message
    case NameError(name) => "name '" + name + "' is not defined"
    case Raised(message) => message
    case Unauthorized(message) => "401 Unauthorized: " + message
    case IndexError(message) => message
    case AttributeError(message) => message
  }

  datatype Result<+T> = Ok(value: T) | Err(error: Error) {
    predicate IsFailure() {
      Err?
    }

    function PropagateFailure<U>(): Result<U>
      requires Err?
    {
      Err(error)
    }

    function Extract(): T
      requires Ok?
    {
      value
    }
  }

  // ---------------------------------------------------------------------------
  // Characters and whitespace
  // ---------------------------------------------------------------------------

  /** The characters for which Python's `str.isspace()` holds; `strip()` and
      `split()` without arguments use exactly this set. */
  predicate IsSpace(c: char) {
    c == ' ' || ('\t' <= c <= '\r') || ('\U{1c}' <= c <= '\U{1f}') || c == '\U{85}' ||
    c == '\U{a0}' || c == '\U{1680}' || ('\U{2000}' <= c <= '\U{200a}') ||
    c == '\U{2028}' || c == '\U{2029}' || c == '\U{202f}' || c == '\U{205f}' || c == '\U{3000}'
  }

  lemma AppendAssoc<T>(a: seq<T>, b: seq<T>, c: seq<T>)
    ensures (a + b) + c == a + (b + c)
  {
  }

  /** A concatenation starts with its left part and ends with its right part. */
  lemma AppendParts<T>(a: seq<T>, b: seq<T>)
    ensures (a + b)[..|a|] == a && (a + b)[|a|..] == b
  {
  }

  predicate AllSpace(s: string) {
    forall k :: 0 <= k < |s| ==> IsSpace(s[k])
  }

  /** The first position at or after `i` that does not hold whitespace. */
  function SkipSpaces(s: string, i: nat): (j: nat)
    requires i <= |s|
    ensures i <= j <= |s|
    ensures forall k :: i <= k < j ==> IsSpace(s[k])
    ensures j == |s| || !IsSpace(s[j])
    decreases |s| - i
  {
    if i == |s| || !IsSpace(s[i]) then i else SkipSpaces(s, i + 1)
  }

  /** The first position at or after `i` that holds whitespace. */
  function SkipWord(s: string, i: nat): (j: nat)
    requires i <= |s|
    ensures i <= j <= |s|
    ensures forall k :: i <= k < j ==> !IsSpace(s[k])
    ensures j == |s| || IsSpace(s[j])
    decreases |s| - i
  {
    if i == |s| || IsSpace(s[i]) then i else SkipWord(s, i + 1)
  }

  /** `s` without its leading whitespace, built from the front. */
  function TrimStart(s: string): (r: string)
    ensures |r| <= |s|
    ensures r == [] <==> AllSpace(s)
    ensures r != [] ==> !IsSpace(r[0])
  {
    if s == [] then []
    else
      var t := TrimStart(s[..|s| - 1]);
      if t == [] && IsSpace(s[|s| - 1]) then [] else t + [s[|s| - 1]]
  }

  /** `s` without its trailing whitespace. */
  function TrimEnd(s: string): (r: string)
    ensures |r| <= |s| && r == s[..|r|]
    ensures r == [] <==> AllSpace(s)
    ensures r != [] ==> !IsSpace(r[|r| - 1])
  {
    if s == [] || !IsSpace(s[|s| - 1]) then s else TrimEnd(s[..|s| - 1])
  }

  /** Python's `s.strip()`: the whitespace at both ends removed. */
  function Strip(s: string): (r: string)
    ensures |r| <= |s|
    ensures r == [] <==> AllSpace(s)
    ensures r != [] ==> !IsSpace(r[0]) && !IsSpace(r[|r| - 1])
  {
    TrimEnd(TrimStart(s))
  }

  /** Leading whitespace is all that `TrimStart` removes. */
  lemma {:induction false} TrimStartSkips(a: string, b: string)
    requires AllSpace(a) && (b != [] ==> !IsSpace(b[0]))
    ensures TrimStart(a + b) == b
  {
    if b == [] {
      assert a + b == a;
    } else {
      assert (a + b)[..|a + b| - 1] == a + b[..|b| - 1];
      TrimStartSkips(a, b[..|b| - 1]);
      assert b[..|b| - 1] + [b[|b| - 1]] == b;
    }
  }

  /** A string with no whitespace at either end is its own strip. */
  lemma StripNoop(s: string)
    requires s != [] ==> !IsSpace(s[0]) && !IsSpace(s[|s| - 1])
    ensures Strip(s) == s
  {
    TrimStartSkips([], s);
    assert [] + s == s;
  }

  /** `strip()` is idempotent. */
  lemma StripIdempotent(s: string)
    ensures Strip(Strip(s)) == Strip(s)
  {
    StripNoop(Strip(s));
  }

  /** Python's `s.split(None, 1)`: leading whitespace skipped, then the first
      word, then (after one whitespace run) everything that is left, trailing
      whitespace included. Empty pieces are never produced. */
  function SplitOnce(s: string): (parts: seq<string>)
    ensures |parts| <= 2
    ensures parts == [] <==> AllSpace(s)
    ensures forall k :: 0 <= k < |parts| ==> parts[k] != []
    ensures |parts| >= 1 ==> forall k :: 0 <= k < |parts[0]| ==> !IsSpace(parts[0][k])
  {
    var i := SkipSpaces(s, 0);
    if i == |s| then []
    else
      var j := SkipWord(s, i);
      var k := SkipSpaces(s, j);
      if k == |s| then [s[i..j]] else [s[i..j], s[k..]]
  }

  /** Python's `f"{x}"` for an optional string: `None` prints as "None". */
  function Show(o: Option<string>): string {
    if o.Some? then o.value else "None"
  }

  predicate StartsWith(s: string, prefix: string) {
    |prefix| <= |s| && s[..|prefix|] == prefix
  }

  function AsciiLower(c: char): char {
    if 'A' <= c <= 'Z' then (c as int + 32) as char else c
  }

  /** Python's `s.lower() == lowered` for an all-lower-case ASCII `lowered`
      without the letter 'k'. Outside ASCII only the Kelvin sign (U+212A)
      lower-cases to an ASCII letter, namely 'k', and a character that
      lower-cases to several can never match one of `lowered`, so for such a
      `lowered` folding ASCII alone decides the comparison exactly. Both
      strings compared in this model, "bearer" and "final answer", qualify. */
  predicate LowerEquals(s: string, lowered: string) {
    |s| == |lowered| && forall k :: 0 <= k < |s| ==> AsciiLower(s[k]) == lowered[k]
  }

  /** Python's `sep.join(parts)`. */
  function Join(sep: string, parts: seq<string>): (r: string)
    ensures parts == [] ==> r == []
    ensures |parts| == 1 ==> r == parts[0]
    ensures parts != [] ==> |r| >= |parts[0]|
  {
    if parts == [] then []
    else if |parts| == 1 then parts[0]
    else Join(sep, parts[..|parts| - 1]) + sep + parts[|parts| - 1]
  }

  /** Python's `s.split(sep)[-1]` for a one-character separator: what follows
      the last separator, or all of `s` when there is none. */
  function LastSegment(s: string, sep: char): (r: string)
    ensures |r| <= |s| && r == s[|s| - |r|..]
    ensures sep !in r
    ensures |r| < |s| ==> s[|s| - |r| - 1] == sep
  {
    if s == [] then []
    else if s[|s| - 1] == sep then []
    else LastSegment(s[..|s| - 1], sep) + [s[|s| - 1]]
  }

  /** Appending a separator-free tail after a separator makes that tail the
      last segment. */
  lemma {:induction false} LastSegmentOfSuffix(head: string, sep: char, tail: string)
    requires sep !in tail
    ensures LastSegment(head + [sep] + tail, sep) == tail
  {
    if tail != [] {
      var s := head + [sep] + tail;
      assert s[..|s| - 1] == head + [sep] + tail[..|tail| - 1];
      LastSegmentOfSuffix(head, sep, tail[..|tail| - 1]);
      assert tail == tail[..|tail| - 1] + [tail[|tail| - 1]];
    }
  }

  /** `s[i..]`, built from the front of `s`. */
  function Suffix(s: string, i: nat): (r: string)
    requires i <= |s|
    ensures |r| == |s| - i
    ensures forall k :: 0 <= k < |r| ==> r[k] == s[i + k]
  {
    if |s| == i then [] else Suffix(s[..|s| - 1], i) + [s[|s| - 1]]
  }

  predicate MatchAt(s: string, pat: string, i: nat) {
    i + |pat| <= |s| && forall j :: 0 <= j < |pat| ==> s[i + j] == pat[j]
  }

  /** Python's `s.replace(pat, rep)` for a non-empty `pat`: every
      non-overlapping occurrence, scanning from the left, is replaced. */
  function Replace(s: string, pat: string, rep: string): string
    requires pat != []
  {
    ReplaceFrom(s, pat, rep, 0)
  }

  /** The replacement scan from position `i` of `s` onwards. */
  function ReplaceFrom(s: string, pat: string, rep: string, i: nat): string
    requires pat != [] && i <= |s|
    decreases |s| - i
  {
    if |s| - i < |pat| then Suffix(s, i)
    else if MatchAt(s, pat, i) then rep + ReplaceFrom(s, pat, rep, i + |pat|)
    else [s[i]] + ReplaceFrom(s, pat, rep, i + 1)
  }

  ghost predicate Occurs(s: string, pat: string) {
    exists i: nat :: MatchAt(s, pat, i)
  }

  /** Python's `pat in s` on strings: some position of `s` starts `pat`
      (the empty string is in every string). */
  function Contains(s: string, pat: string): (b: bool)
    ensures b <==> Occurs(s, pat)
  {
    ContainsFrom(s, pat, 0)
  }

  /** Whether `pat` starts at position `i` of `s` or later. */
  function ContainsFrom(s: string, pat: string, i: nat): (b: bool)
    ensures b <==> exists j: nat :: i <= j && MatchAt(s, pat, j)
    decreases |s| - i
  {
    if i + |pat| > |s| then false
    else MatchAt(s, pat, i) || ContainsFrom(s, pat, i + 1)
  }

  /** A scan that meets no occurrence copies what is left. */
  lemma {:induction false} ReplaceFromAbsent(s: string, pat: string, rep: string, i: nat)
    requires pat != [] && i <= |s|
    requires !Occurs(s, pat)
    ensures ReplaceFrom(s, pat, rep, i) == Suffix(s, i)
    decreases |s| - i
  {
    if |s| - i >= |pat| {
      assert !MatchAt(s, pat, i);
      ReplaceFromAbsent(s, pat, rep, i + 1);
      assert [s[i]] + Suffix(s, i + 1) == Suffix(s, i);
    }
  }

  /** A placeholder that does not occur leaves the string unchanged. */
  lemma ReplaceAbsent(s: string, pat: string, rep: string)
    requires pat != []
    requires !Occurs(s, pat)
    ensures Replace(s, pat, rep) == s
  {
    ReplaceFromAbsent(s, pat, rep, 0);
    assert Suffix(s, 0) == s;
  }

  // ---------------------------------------------------------------------------
  // Integers as text
  // ---------------------------------------------------------------------------

  function Digit(d: nat): char
    requires d < 10
  {
    "0123456789"[d]
  }

  predicate IsDigit(c: char) {
    '0' <= c <= '9'
  }

  /** Python's `str(n)` for a natural number. */
  function Decimal(n: nat): (r: string)
    ensures r != []
    ensures forall k :: 0 <= k < |r| ==> IsDigit(r[k])
    ensures |r| > 1 ==> r[0] != '0'
  {
    if n < 10 then [Digit(n)] else Decimal(n / 10) + [Digit(n % 10)]
  }

  function DigitValue(c: char): nat
    requires IsDigit(c)
  {
    c as int - '0' as int
  }

  /** Reads a string of decimal digits back as a number. */
  function ParseDecimal(s: string): nat
    requires forall k :: 0 <= k < |s| ==> IsDigit(s[k])
  {
    if s == [] then 0 else ParseDecimal(s[..|s| - 1]) * 10 + DigitValue(s[|s| - 1])
  }

  /** `str(n)` loses nothing: reading it back gives `n`. */
  lemma {:induction false} DecimalRoundTrip(n: nat)
    ensures ParseDecimal(Decimal(n)) == n
  {
    if n >= 10 {
      var r := Decimal(n);
      assert r[..|r| - 1] == Decimal(n / 10);
      DecimalRoundTrip(n / 10);
    }
  }

  /** Python's `str(n)` for any integer. */
  function IntToString(n: int): string {
    if n < 0 then "-" + Decimal(-n) else Decimal(n)
  }

  /** Inserts a comma before every complete group of three digits counted
      from the right. */
  function GroupDigits(ds: string): (r: string)
    ensures |ds| <= 3 ==> r == ds
    decreases |ds|
  {
    if |ds| <= 3 then ds else GroupDigits(ds[..|ds| - 3]) + "," + ds[|ds| - 3..]
  }

  function RemoveCommas(s: string): string {
    if s == [] then []
    else if s[|s| - 1] == ',' then RemoveCommas(s[..|s| - 1])
    else RemoveCommas(s[..|s| - 1]) + [s[|s| - 1]]
  }

  lemma {:induction false} RemoveCommasAppend(a: string, b: string)
    ensures RemoveCommas(a + b) == RemoveCommas(a) + RemoveCommas(b)
    decreases |b|
  {
    if b == [] {
      assert a + b == a;
    } else {
      assert (a + b)[..|a + b| - 1] == a + b[..|b| - 1];
      RemoveCommasAppend(a, b[..|b| - 1]);
    }
  }

  lemma {:induction false} RemoveCommasNoop(s: string)
    requires ',' !in s
    ensures RemoveCommas(s) == s
  {
    if s != [] {
      RemoveCommasNoop(s[..|s| - 1]);
    }
  }

  /** Grouping only inserts commas: removing them restores the digits. */
  lemma {:induction false} GroupDigitsRemoveCommas(ds: string)
    requires ',' !in ds
    ensures RemoveCommas(GroupDigits(ds)) == ds
    decreases |ds|
  {
    if |ds| <= 3 {
      RemoveCommasNoop(ds);
    } else {
      var head, tail := ds[..|ds| - 3], ds[|ds| - 3..];
      GroupDigitsRemoveCommas(head);
      RemoveCommasAppend(GroupDigits(head) + ",", tail);
      RemoveCommasAppend(GroupDigits(head), ",");
      RemoveCommasNoop(tail);
      assert RemoveCommas(",") == [];
      assert head + tail == ds;
    }
  }

  /** Python's `f"{n:,}"`: the decimal digits grouped by threes with commas,
      after the sign. */
  function GroupedInt(n: int): string {
    if n < 0 then "-" + GroupDigits(Decimal(-n)) else GroupDigits(Decimal(n))
  }

  /** `f"{n:,}"` denotes the same number as `str(n)`. */
  lemma GroupedIntDenotes(n: nat)
    ensures RemoveCommas(GroupedInt(n)) == Decimal(n)
    ensures ParseDecimal(RemoveCommas(GroupedInt(n))) == n
  {
    var ds := Decimal(n);
    assert ',' !in ds by {
      forall k | 0 <= k < |ds| ensures ds[k] != ',' {
        assert IsDigit(ds[k]);
      }
    }
    GroupDigitsRemoveCommas(ds);
    DecimalRoundTrip(n);
  }

  // ---------------------------------------------------------------------------
  // Zero-padded numbers, lexicographic order, calendar months
  // ---------------------------------------------------------------------------

  function Pow10(w: nat): (p: nat)
    ensures p >= 1
  {
    if w == 0 then 1 else 10 * Pow10(w - 1)
  }

  /** The last `width` decimal digits of `n`, zero-padded (`%0<width>d` when
      `n < 10^width`). */
  function PadDigits(n: nat, width: nat): (r: string)
    ensures |r| == width
    ensures forall k :: 0 <= k < |r| ==> IsDigit(r[k])
  {
    if width == 0 then [] else PadDigits(n / 10, width - 1) + [Digit(n % 10)]
  }

  /** Python's `a < b` on strings: code-point lexicographic order. */
  predicate LexLess(a: string, b: string) {
    if a == [] then b != []
    else if b == [] then false
    else a[0] < b[0] || (a[0] == b[0] && LexLess(a[1..], b[1..]))
  }

  /** Comparing two concatenations whose first parts have equal length compares
      the first parts, then the second parts. */
  lemma {:induction false} LexLessConcat(p1: string, q1: string, p2: string, q2: string)
    requires |p1| == |p2|
    ensures LexLess(p1 + q1, p2 + q2) <==> LexLess(p1, p2) || (p1 == p2 && LexLess(q1, q2))
  {
    if p1 != [] {
      assert (p1 + q1)[1..] == p1[1..] + q1;
      assert (p2 + q2)[1..] == p2[1..] + q2;
      LexLessConcat(p1[1..], q1, p2[1..], q2);
      if p1[0] == p2[0] && p1[1..] == p2[1..] {
        assert p1 == [p1[0]] + p1[1..] && p2 == [p2[0]] + p2[1..];
      }
    } else {
      assert p1 + q1 == q1 && p2 + q2 == q2;
    }
  }

  lemma DivModTen(a: nat, b: nat)
    ensures a < b <==> a / 10 < b / 10 || (a / 10 == b / 10 && a % 10 < b % 10)
  {
  }

  lemma DivBound(a: nat, w: nat)
    requires w > 0 && a < Pow10(w)
    ensures a / 10 < Pow10(w - 1)
  {
  }

  /** On equal-width zero-padded numbers in range, string order is numeric
      order. */
  lemma {:induction false} PadDigitsOrder(a: nat, b: nat, w: nat)
    requires a < Pow10(w) && b < Pow10(w)
    ensures LexLess(PadDigits(a, w), PadDigits(b, w)) <==> a < b
    ensures PadDigits(a, w) == PadDigits(b, w) <==> a == b
  {
    if w == 0 {
      assert a == 0 && b == 0;
    } else {
      DivBound(a, w);
      DivBound(b, w);
      PadDigitsOrder(a / 10, b / 10, w - 1);
      var p1, p2 := PadDigits(a / 10, w - 1), PadDigits(b / 10, w - 1);
      var c1, c2 := Digit(a % 10), Digit(b % 10);
      LexLessConcat(p1, [c1], p2, [c2]);
      assert LexLess([c1], [c2]) <==> a % 10 < b % 10 by {
        assert [c1][1..] == [] && [c2][1..] == [];
      }
      DivModTen(a, b);
      if PadDigits(a, w) == PadDigits(b, w) {
        assert p1 == PadDigits(a, w)[..w - 1] && p2 == PadDigits(b, w)[..w - 1];
        assert c1 == PadDigits(a, w)[w - 1] && c2 == PadDigits(b, w)[w - 1];
        assert a % 10 == b % 10 by {
          assert "0123456789"[a % 10] == "0123456789"[b % 10];
        }
      }
    }
  }

  /** A calendar instant as Python's `datetime` holds it. */
  datatype DateTime = DateTime(year: int, month: int, day: int, hour: int, minute: int, second: int, microsecond: int) {
    /** The ranges `datetime` enforces on construction. */
    predicate Valid() {
      1 <= year <= 9999 && 1 <= month <= 12 && 1 <= day <= 31 &&
      0 <= hour < 24 && 0 <= minute < 60 && 0 <= second < 60 && 0 <= microsecond < 1000000
    }
  }

  /** A `datetime` value: one within the ranges it enforces. */
  type Instant = d: DateTime | d.Valid() witness DateTime(1, 1, 1, 0, 0, 0, 0)

  /** `a < b` on datetimes: chronological order, compared field by field. */
  predicate Before(a: DateTime, b: DateTime) {
    if a.year != b.year then a.year < b.year
    else if a.month != b.month then a.month < b.month
    else if a.day != b.day then a.day < b.day
    else if a.hour != b.hour then a.hour < b.hour
    else if a.minute != b.minute then a.minute < b.minute
    else if a.second != b.second then a.second < b.second
    else a.microsecond < b.microsecond
  }

  /** `date.strftime('%Y.%m')`: the four-digit year, a dot, the two-digit month. */
  function YearMonth(d: DateTime): (r: string)
    requires d.Valid()
    ensures |r| == 7 && r[4] == '.'
    ensures '-' !in r
  {
    var r := PadDigits(d.year, 4) + "." + PadDigits(d.month, 2);
    assert '-' !in r by {
      forall k | 0 <= k < |r| ensures r[k] != '-' {
        if k < 4 { assert IsDigit(PadDigits(d.year, 4)[k]); }
        else if k > 4 { assert IsDigit(PadDigits(d.month, 2)[k - 5]); }
      }
    }
    r
  }

  /** Month labels sort as strings exactly as the months sort in time: this is
      what makes the string comparison in index retention meaningful. */
  lemma YearMonthOrder(d1: DateTime, d2: DateTime)
    requires d1.Valid() && d2.Valid()
    ensures LexLess(YearMonth(d1), YearMonth(d2)) <==>
            d1.year < d2.year || (d1.year == d2.year && d1.month < d2.month)
  {
    assert Pow10(4) == 10000 && Pow10(2) == 100;
    var y1, y2 := PadDigits(d1.year, 4), PadDigits(d2.year, 4);
    var m1, m2 := PadDigits(d1.month, 2), PadDigits(d2.month, 2);
    PadDigitsOrder(d1.year, d2.year, 4);
    PadDigitsOrder(d1.month, d2.month, 2);
    LexLessConcat(y1, "." + m1, y2, "." + m2);
    LexLessConcat(".", m1, ".", m2);
    assert !LexLess(".", ".");
    assert YearMonth(d1) == y1 + ("." + m1);
    assert YearMonth(d2) == y2 + ("." + m2);
  }
}
