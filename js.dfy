/** Models of the JavaScript built-ins that the dashboard's components rely on:
    `Math.round` of a quotient, `Array.prototype.find`/`findIndex`/`filter`/`slice`,
    `String.prototype.split` with a one-character separator, `parseInt` without a radix,
    and the `x || d` defaulting of a number. Numbers are integers here; `NaN` is a
    constructor of its own. */
module Js {

  datatype Option<+T> = None | Some(value: T)

  /** A JavaScript number as far as the dashboard uses it: an integer, or NaN. */
  datatype Num = NaN | Int(value: int)

  // ---------------------------------------------------------------------------
  // Math.round(s / n)

  /** `Math.round(s / n)` for a positive divisor. `Math.round` rounds to the nearest
      integer and breaks ties towards +infinity, i.e. it is floor(s/n + 1/2); with
      Dafny's division (which floors for a positive divisor) that is (2s + n) / (2n). */
  function RoundQuotient(s: int, n: int): (r: int)
    requires n > 0
    ensures n * (2 * r - 1) <= 2 * s < n * (2 * r + 1)
  {
    var q := (2 * s + n) / (2 * n);
    var m := (2 * s + n) % (2 * n);
    assert 2 * s + n == 2 * n * q + m && 0 <= m < 2 * n;
    assert n * (2 * q - 1) == 2 * n * q - n;
    assert n * (2 * q + 1) == 2 * n * q + n;
    q
  }

  /** The round-half-up characterisation determines the rounded value. */
  lemma RoundQuotientUnique(s: int, n: int, r: int)
    requires n > 0
    requires n * (2 * r - 1) <= 2 * s < n * (2 * r + 1)
    ensures r == RoundQuotient(s, n)
  {
    var q := RoundQuotient(s, n);
    if r < q {
      // n(2r+1) <= n(2q-1) because 2r+1 <= 2q-1 and n > 0
      MulMonotone(n, 2 * r + 1, 2 * q - 1);
      assert false;
    } else if r > q {
      MulMonotone(n, 2 * q + 1, 2 * r - 1);
      assert false;
    }
  }

  lemma MulMonotone(n: int, a: int, b: int)
    requires n > 0 && a <= b
    ensures n * a <= n * b
  {
    assert n * b - n * a == n * (b - a);
  }

  // ---------------------------------------------------------------------------
  // Array.prototype.findIndex / find

  /** `xs.findIndex(p)`: the first index whose element satisfies `p`, or -1. */
  function FindIndex<T>(xs: seq<T>, p: T -> bool): (k: int)
    ensures -1 <= k < |xs|
    ensures 0 <= k ==> p(xs[k])
    ensures forall j :: 0 <= j < |xs| && (k < 0 || j < k) ==> !p(xs[j])
  {
    if xs == [] then -1
    else if p(xs[0]) then 0
    else
      var k := FindIndex(xs[1..], p);
      if k < 0 then -1 else k + 1
  }

  /** `xs.find(p)`: the first element satisfying `p`; `None` stands for `undefined`. */
  function Find<T>(xs: seq<T>, p: T -> bool): (r: Option<T>)
    ensures r.None? <==> forall j :: 0 <= j < |xs| ==> !p(xs[j])
    ensures r.Some? ==> exists k :: 0 <= k < |xs| && xs[k] == r.value && p(r.value) && forall j :: 0 <= j < k ==> !p(xs[j])
  {
    var k := FindIndex(xs, p);
    if k < 0 then None else Some(xs[k])
  }

  /** When exactly one element satisfies `p`, `find` returns that element. */
  lemma FindUnique<T>(xs: seq<T>, p: T -> bool, k: int)
    requires 0 <= k < |xs| && p(xs[k])
    requires forall j :: 0 <= j < |xs| && j != k ==> !p(xs[j])
    ensures Find(xs, p) == Some(xs[k])
  {
    var r := Find(xs, p);
    assert r.Some?;
    var k' :| 0 <= k' < |xs| && xs[k'] == r.value && p(r.value) && forall j :: 0 <= j < k' ==> !p(xs[j]);
    assert k' == k;
  }

  // ---------------------------------------------------------------------------
  // Array.prototype.filter

  /** `xs.filter(p)`: the elements satisfying `p`, in their original order. */
  function Filter<T>(xs: seq<T>, p: T -> bool): (r: seq<T>)
    ensures |r| <= |xs|
    ensures forall i :: 0 <= i < |r| ==> r[i] in xs && p(r[i])
    ensures forall i :: 0 <= i < |xs| && p(xs[i]) ==> xs[i] in r
  {
    if xs == [] then []
    else (if p(xs[0]) then [xs[0]] else []) + Filter(xs[1..], p)
  }

  /** Filtering distributes over concatenation: the relative order of what is kept
      is the order of the input. */
  lemma {:induction false} FilterAppend<T>(a: seq<T>, b: seq<T>, p: T -> bool)
    ensures Filter(a + b, p) == Filter(a, p) + Filter(b, p)
  {
    if a == [] {
      assert a + b == b;
    } else {
      assert (a + b)[0] == a[0];
      assert (a + b)[1..] == a[1..] + b;
      FilterAppend(a[1..], b, p);
    }
  }

  /** Filtering keeps every element when all satisfy the predicate. */
  lemma {:induction false} FilterAll<T>(xs: seq<T>, p: T -> bool)
    requires forall j :: 0 <= j < |xs| ==> p(xs[j])
    ensures Filter(xs, p) == xs
  {
    if xs != [] {
      FilterAll(xs[1..], p);
    }
  }

  /** Two predicates that split every element between them split the sequence:
      each element lands in exactly one of the two filtered sequences. */
  lemma {:induction false} FilterPartition<T>(xs: seq<T>, p: T -> bool, q: T -> bool)
    requires forall j :: 0 <= j < |xs| ==> p(xs[j]) != q(xs[j])
    ensures multiset(Filter(xs, p)) + multiset(Filter(xs, q)) == multiset(xs)
  {
    if xs != [] {
      FilterPartition(xs[1..], p, q);
      assert xs == [xs[0]] + xs[1..];
    }
  }

  // ---------------------------------------------------------------------------
  // Array.prototype.slice

  /** The relative index of `slice`: a negative index counts from the end, and the
      result is clamped to 0..len. */
  function RelativeIndex(i: int, len: nat): (r: nat)
    ensures r <= len
    ensures 0 <= i ==> r == if i < len then i else len
    ensures i < 0 ==> r == if len + i > 0 then len + i else 0
  {
    if i < 0 then (if len + i > 0 then len + i else 0)
    else if i < len then i else len
  }

  /** `xs.slice(start, end)`. */
  function Slice<T>(xs: seq<T>, start: int, end: int): (r: seq<T>)
    ensures var from, to := RelativeIndex(start, |xs|), RelativeIndex(end, |xs|);
      if from < to then r == xs[from..to] else r == []
  {
    var from, to := RelativeIndex(start, |xs|), RelativeIndex(end, |xs|);
    if from < to then xs[from..to] else []
  }

  /** `xs.slice(0, n)` for n >= 0 is the first min(n, |xs|) elements. */
  lemma SliceFromStart<T>(xs: seq<T>, n: nat)
    ensures |Slice(xs, 0, n)| == if n < |xs| then n else |xs|
    ensures Slice(xs, 0, n) <= xs
  {
  }

  // ---------------------------------------------------------------------------
  // String.prototype.split(sep) with a one-character separator, and join

  /** `s.split(sep)` for a one-character separator: the maximal pieces between
      separators, empty pieces included; the empty string gives `[""]`. */
  function Split(s: string, sep: char): (parts: seq<string>)
    ensures |parts| >= 1
    ensures forall i :: 0 <= i < |parts| ==> sep !in parts[i]
    ensures Join(parts, sep) == s
  {
    if s == [] then [""]
    else
      var rest := Split(s[1..], sep);
      if s[0] == sep then
        assert ([""] + rest)[1..] == rest;
        [""] + rest
      else
        var parts := [[s[0]] + rest[0]] + rest[1..];
        assert parts[1..] == rest[1..];
        assert |rest| > 1 ==> Join(rest, sep) == rest[0] + [sep] + Join(rest[1..], sep);
        assert s == [s[0]] + s[1..];
        parts
  }

  /** `parts.join(sep)`. */
  function Join(parts: seq<string>, sep: char): string
  {
    if |parts| == 0 then ""
    else if |parts| == 1 then parts[0]
    else parts[0] + [sep] + Join(parts[1..], sep)
  }

  lemma {:induction false} SplitWithoutSeparator(a: string, sep: char)
    requires sep !in a
    ensures Split(a, sep) == [a]
  {
    if a != [] {
      SplitWithoutSeparator(a[1..], sep);
      assert a == [a[0]] + a[1..];
    }
  }

  lemma {:induction false} SplitAtFirstSeparator(a: string, b: string, sep: char)
    requires sep !in a
    ensures Split(a + [sep] + b, sep) == [a] + Split(b, sep)
  {
    var s := a + [sep] + b;
    if a == [] {
      assert s[0] == sep && s[1..] == b;
    } else {
      assert s[0] == a[0] && s[1..] == a[1..] + [sep] + b;
      SplitAtFirstSeparator(a[1..], b, sep);
      assert [a[0]] + a[1..] == a;
    }
  }

  /** Splitting undoes joining pieces that do not contain the separator. */
  lemma {:induction false} SplitJoin(parts: seq<string>, sep: char)
    requires |parts| >= 1
    requires forall i :: 0 <= i < |parts| ==> sep !in parts[i]
    ensures Split(Join(parts, sep), sep) == parts
  {
    if |parts| == 1 {
      SplitWithoutSeparator(parts[0], sep);
    } else {
      SplitJoin(parts[1..], sep);
      SplitAtFirstSeparator(parts[0], Join(parts[1..], sep), sep);
      assert [parts[0]] + parts[1..] == parts;
    }
  }

  /** `xs[i]` in JavaScript: `undefined` (here `None`) outside the array. */
  function At<T>(xs: seq<T>, i: int): (r: Option<T>)
    ensures r.Some? <==> 0 <= i < |xs|
    ensures r.Some? ==> r.value == xs[i]
  {
    if 0 <= i < |xs| then Some(xs[i]) else None
  }

  // ---------------------------------------------------------------------------
  // parseInt(s) without a radix argument

  /** The characters `parseInt` skips at the start: ECMAScript's WhiteSpace
      (TAB, VT, FF, ZWNBSP and the Unicode space separators) and LineTerminator. */
  predicate IsWhiteSpace(c: char)
  {
    c == '\t' || c == '\n' || c == '\U{000B}' || c == '\U{000C}' || c == '\r' || c == ' ' ||
    c == '\U{00A0}' || c == '\U{1680}' || ('\U{2000}' <= c <= '\U{200A}') ||
    c == '\U{2028}' || c == '\U{2029}' || c == '\U{202F}' || c == '\U{205F}' ||
    c == '\U{3000}' || c == '\U{FEFF}'
  }

  function TrimStart(s: string): (t: string)
    ensures |t| <= |s| && t == s[|s| - |t|..]
    ensures t == [] || !IsWhiteSpace(t[0])
    ensures forall i :: 0 <= i < |s| - |t| ==> IsWhiteSpace(s[i])
  {
    if s != [] && IsWhiteSpace(s[0]) then TrimStart(s[1..]) else s
  }

  /** The value of a digit character in radix up to 36, or -1. */
  function DigitValue(c: char): (d: int)
    ensures -1 <= d < 36
    ensures d == -1 <==> !('0' <= c <= '9' || 'a' <= c <= 'z' || 'A' <= c <= 'Z')
    ensures '0' <= c <= '9' ==> d == c as int - '0' as int
    ensures 'a' <= c <= 'z' ==> d == c as int - 'a' as int + 10
    ensures 'A' <= c <= 'Z' ==> d == c as int - 'A' as int + 10
  {
    if '0' <= c <= '9' then c as int - '0' as int
    else if 'a' <= c <= 'z' then c as int - 'a' as int + 10
    else if 'A' <= c <= 'Z' then c as int - 'A' as int + 10
    else -1
  }

  predicate IsDigit(c: char, radix: nat)
  {
    0 <= DigitValue(c) < radix
  }

  /** The longest prefix of `s` made of digits of the radix. */
  function DigitRun(s: string, radix: nat): (d: string)
    ensures d <= s
    ensures forall i :: 0 <= i < |d| ==> IsDigit(d[i], radix)
    ensures |d| == |s| || !IsDigit(s[|d|], radix)
  {
    if s != [] && IsDigit(s[0], radix) then [s[0]] + DigitRun(s[1..], radix) else []
  }

  lemma MulNonNegative(a: nat, b: nat)
    ensures a * b >= 0
  {
  }

  /** The value of a digit string, most significant digit first. */
  function DigitsValue(d: string, radix: nat): (v: nat)
    requires forall i :: 0 <= i < |d| ==> IsDigit(d[i], radix)
  {
    if d == [] then 0
    else
      var prefix := d[..|d| - 1];
      assert forall i :: 0 <= i < |prefix| ==> prefix[i] == d[i];
      var init: nat := DigitsValue(prefix, radix);
      var last := DigitValue(d[|d| - 1]);
      assert 0 <= last by {
        assert IsDigit(d[|d| - 1], radix);
      }
      MulNonNegative(init, radix);
      init * radix + last
  }

  /** `parseInt(s)`: skip leading white space, read an optional sign, read a "0x"
      prefix as radix 16 (otherwise radix 10), then the longest run of digits; no
      digit at all gives NaN. Characters after the run are ignored. */
  function ParseInt(s: string): (r: Num)
    ensures TrimStart(s) == [] ==> r == NaN
    ensures r.Int? && r.value < 0 ==> TrimStart(s)[0] == '-'
  {
    var t := TrimStart(s);
    var negative := |t| > 0 && t[0] == '-';
    var u := if |t| > 0 && (t[0] == '-' || t[0] == '+') then t[1..] else t;
    var hex := |u| >= 2 && u[0] == '0' && (u[1] == 'x' || u[1] == 'X');
    var radix := if hex then 16 else 10;
    var digits := DigitRun(if hex then u[2..] else u, radix);
    if digits == [] then NaN
    else
      var magnitude: int := DigitsValue(digits, radix);
      Int(if negative then -magnitude else magnitude)
  }

  /** A string whose first character is neither white space, a sign, nor a digit
      parses to NaN. */
  lemma ParseIntNoDigit(s: string)
    requires s != [] && !IsWhiteSpace(s[0]) && s[0] != '-' && s[0] != '+' && !IsDigit(s[0], 10)
    ensures ParseInt(s) == NaN
  {
    assert TrimStart(s) == s;
  }

  lemma {:induction false} DigitRunAppend(a: string, b: string, radix: nat)
    requires forall i :: 0 <= i < |a| ==> IsDigit(a[i], radix)
    requires b == [] || !IsDigit(b[0], radix)
    ensures DigitRun(a + b, radix) == a
  {
    if a != [] {
      assert (a + b)[0] == a[0] && (a + b)[1..] == a[1..] + b;
      DigitRunAppend(a[1..], b, radix);
    } else {
      assert a + b == b;
    }
  }

  /** A string that starts with a decimal digit and not with "0x" is read in radix 10
      from its first character. */
  lemma ParseIntFromDigit(s: string)
    requires s != [] && '0' <= s[0] <= '9'
    requires !(|s| >= 2 && s[0] == '0' && (s[1] == 'x' || s[1] == 'X'))
    ensures ParseInt(s) == Int(DigitsValue(DigitRun(s, 10), 10))
  {
    assert !IsWhiteSpace(s[0]);
    assert TrimStart(s) == s;
    assert IsDigit(s[0], 10);
    assert DigitRun(s, 10) != [];
  }

  /** `parseInt` of a run of decimal digits followed by a character that is neither
      a digit nor an `x`: this is how `parseInt("500,100")` gives 500. */
  lemma ParseIntNumeral(d: string, rest: string)
    requires |d| >= 1 && forall i :: 0 <= i < |d| ==> IsDigit(d[i], 10)
    requires rest == [] || (!IsDigit(rest[0], 10) && rest[0] != 'x' && rest[0] != 'X')
    ensures ParseInt(d + rest) == Int(DigitsValue(d, 10))
  {
    var s := d + rest;
    assert s[0] == d[0] && IsDigit(d[0], 10);
    assert !(|s| >= 2 && s[0] == '0' && (s[1] == 'x' || s[1] == 'X')) by {
      if |s| >= 2 {
        if |d| >= 2 {
          assert s[1] == d[1] && IsDigit(d[1], 10);
        } else {
          assert s[1] == rest[0];
        }
      }
    }
    ParseIntFromDigit(s);
    DigitRunAppend(d, rest, 10);
  }

  /** `parseInt(x)` where `x` may be `undefined`, which `parseInt` reads as the
      string "undefined". */
  function ParseIntOrUndefined(x: Option<string>): (r: Num)
    ensures x.None? ==> r == NaN
    ensures x.Some? ==> r == ParseInt(x.value)
  {
    var s := if x.Some? then x.value else "undefined";
    assert x.None? ==> ParseInt(s) == NaN by {
      if x.None? {
        ParseIntNoDigit(s);
      }
    }
    ParseInt(s)
  }

  /** `n + k` for a number that may be NaN: NaN stays NaN. */
  function AddNum(n: Num, k: int): (r: Num)
    ensures r.NaN? <==> n.NaN?
    ensures n.Int? ==> r == Int(n.value + k)
  {
    match n
    case NaN => NaN
    case Int(v) => Int(v + k)
  }

  // ---------------------------------------------------------------------------
  // x || d for a possibly undefined number

  /** `x || d` where `x` is a number or `undefined`: the falsy numbers (`undefined`
      and 0) give `d`. */
  function OrDefault(x: Option<int>, d: int): (r: int)
    ensures x.Some? && x.value != 0 ==> r == x.value
    ensures x.None? || x.value == 0 ==> r == d
  {
    match x
    case Some(v) => if v != 0 then v else d
    case None => d
  }
}
