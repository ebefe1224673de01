/** Building blocks shared by every part of the model: optional values and
    error results, whether a remote backend client exists, instants, and the
    text operations the screens and services use on strings (digit
    stripping, decimal parsing, ASCII lower-casing, substring search). */
module Common {

  /** A value that may be absent (JavaScript `undefined` / `null`). */
  datatype Option<T> = None | Some(value: T) {
    function GetOr(default: T): T {
      match this
      case Some(v) => v
      case None => default
    }
  }

  /** The outcome of an operation that may throw: the thrown error carries a message. */
  datatype Result<T> = Ok(value: T) | Err(message: string)

  /** Whether a remote backend client was constructed at start-up. When the
      environment lacks the backend URL or key, the client is absent and every
      service works on the device-local store only. */
  datatype Client = Unconfigured | Configured

  /** What one remote call did: it succeeded, it resolved with an error
      result, or it threw. */
  datatype Outcome = Success | ErrorResult | Throw

  /** A point in time, in milliseconds; the ISO strings the program stores
      compare the way these integers do. */
  type Instant = int

  // ---------------------------------------------------------------------
  // Decimal digits

  predicate IsDigit(c: char) {
    '0' <= c <= '9'
  }

  predicate AllDigits(s: string) {
    forall i :: 0 <= i < |s| ==> IsDigit(s[i])
  }

  function DigitValue(c: char): (d: nat)
    requires IsDigit(c)
    ensures d < 10
  {
    c as int - '0' as int
  }

  /** The number a string of decimal digits denotes, most significant digit
      first; the empty string denotes 0 (as `Number('')` does). */
  function DecimalValue(s: string): (n: nat)
    requires AllDigits(s)
  {
    if |s| == 0 then 0 else DecimalValue(s[..|s| - 1]) * 10 + DigitValue(s[|s| - 1])
  }

  /** The digits of a natural number, without leading zeros; 0 gives "0". */
  function DecimalString(n: nat): (s: string)
    ensures AllDigits(s) && |s| >= 1
    ensures DecimalValue(s) == n
    ensures |s| > 1 ==> s[0] != '0'
  {
    var last := [('0' as int + n % 10) as char];
    if n < 10 then
      last
    else
      var init := DecimalString(n / 10);
      assert (init + last)[..|init + last| - 1] == init;
      init + last
  }

  function Pow10(n: nat): (p: nat)
    ensures p >= 1
  {
    if n == 0 then 1 else 10 * Pow10(n - 1)
  }

  /** A number written with a nonzero first digit is at least 10^(length - 1). */
  lemma {:induction false} DecimalValueLower(s: string)
    requires |s| >= 1 && AllDigits(s) && s[0] != '0'
    ensures DecimalValue(s) >= Pow10(|s| - 1)
  {
    if |s| > 1 {
      var init := s[..|s| - 1];
      assert init[0] == s[0];
      DecimalValueLower(init);
    }
  }

  /** A number of n digits is below 10^n. */
  lemma {:induction false} DecimalValueUpper(s: string)
    requires AllDigits(s)
    ensures DecimalValue(s) < Pow10(|s|)
  {
    if |s| > 0 {
      DecimalValueUpper(s[..|s| - 1]);
    }
  }

  /** A number below 10^n written without a leading zero has at most n digits. */
  lemma ShortDecimal(s: string, n: nat)
    requires |s| >= 1 && AllDigits(s) && (|s| > 1 ==> s[0] != '0') && n >= 1
    requires DecimalValue(s) < Pow10(n)
    ensures |s| <= n
  {
    if |s| > n {
      Pow10Monotone(n, |s| - 1);
      DecimalValueLower(s);
    }
  }

  lemma {:induction false} Pow10Monotone(a: nat, b: nat)
    requires a <= b
    ensures Pow10(a) <= Pow10(b)
    decreases b
  {
    if a < b {
      Pow10Monotone(a, b - 1);
    }
  }

  /** The digits of a number from 10^(k-1) up to 10^k are k characters long. */
  lemma DecimalStringLength(n: nat, k: nat)
    requires k >= 1 && Pow10(k - 1) <= n < Pow10(k)
    ensures |DecimalString(n)| == k
  {
    var s := DecimalString(n);
    if |s| > k {
      ShortDecimal(s, k);
    } else if |s| < k {
      DecimalValueUpper(s);
      Pow10Monotone(|s|, k - 1);
    }
  }

  /** `s.replace(/\D/g, '')`: keep only the ASCII digits, in order. A
      string of digits is kept as it is; the digits of a concatenation are
      the digits of each part (StripNonDigitsAppend), so which digits stay
      and their order are fixed. */
  function StripNonDigits(s: string): (r: string)
    ensures AllDigits(r)
    ensures |r| <= |s|
    ensures forall c :: c in r <==> c in s && IsDigit(c)
    ensures AllDigits(s) ==> r == s
  {
    if |s| == 0 then ""
    else
      assert s == [s[0]] + s[1..];
      if IsDigit(s[0]) then [s[0]] + StripNonDigits(s[1..])
      else StripNonDigits(s[1..])
  }

  lemma {:induction false} StripNonDigitsAppend(a: string, b: string)
    ensures StripNonDigits(a + b) == StripNonDigits(a) + StripNonDigits(b)
  {
    if |a| > 0 {
      var c, t := a[0], a[1..];
      assert a == [c] + t;
      assert a + b == [c] + (t + b);
      var h := if IsDigit(c) then [c] else [];
      calc {
        StripNonDigits(a + b);
        { StripNonDigitsCons(c, t + b); }
        h + StripNonDigits(t + b);
        { StripNonDigitsAppend(t, b); }
        h + (StripNonDigits(t) + StripNonDigits(b));
        (h + StripNonDigits(t)) + StripNonDigits(b);
        { StripNonDigitsCons(c, t); }
        StripNonDigits(a) + StripNonDigits(b);
      }
    } else {
      assert a + b == b;
    }
  }

  lemma StripNonDigitsCons(c: char, s: string)
    ensures StripNonDigits([c] + s) == (if IsDigit(c) then [c] else []) + StripNonDigits(s)
  {
    assert ([c] + s)[1..] == s;
  }

  /** `s.replace(/\./g, '')`: drop every dot and keep everything else, in
      order (RemoveDotsAppend). */
  function RemoveDots(s: string): (r: string)
    ensures |r| <= |s|
    ensures '.' !in r
    ensures forall c :: c != '.' ==> (c in r <==> c in s)
    ensures '.' !in s ==> r == s
  {
    if |s| == 0 then ""
    else
      assert s == [s[0]] + s[1..];
      if s[0] == '.' then RemoveDots(s[1..])
      else [s[0]] + RemoveDots(s[1..])
  }

  lemma {:induction false} RemoveDotsAppend(a: string, b: string)
    ensures RemoveDots(a + b) == RemoveDots(a) + RemoveDots(b)
  {
    if |a| > 0 {
      var c, t := a[0], a[1..];
      assert a == [c] + t;
      assert a + b == [c] + (t + b);
      RemoveDotsCons(c, t);
      RemoveDotsCons(c, t + b);
      RemoveDotsAppend(t, b);
    } else {
      assert a + b == b;
    }
  }

  lemma RemoveDotsCons(c: char, s: string)
    ensures RemoveDots([c] + s) == (if c == '.' then [] else [c]) + RemoveDots(s)
  {
    assert ([c] + s)[1..] == s;
  }

  // ---------------------------------------------------------------------
  // Case folding and search

  function LowerChar(c: char): char {
    if 'A' <= c <= 'Z' then (c as int + 32) as char else c
  }

  /** `s.toLowerCase()` restricted to the ASCII letters. */
  function Lower(s: string): (r: string)
    ensures |r| == |s|
    ensures forall i :: 0 <= i < |s| ==> r[i] == LowerChar(s[i])
  {
    if |s| == 0 then "" else [LowerChar(s[0])] + Lower(s[1..])
  }

  /** `s.includes(t)`: t occurs at some position of s. */
  predicate Includes(s: string, t: string) {
    exists i :: 0 <= i <= |s| - |t| && OccursAt(s, t, i)
  }

  predicate OccursAt(s: string, t: string, i: int) {
    0 <= i <= |s| - |t| && s[i..i + |t|] == t
  }

  /** `s.startsWith(t)`. */
  predicate StartsWith(s: string, t: string) {
    |t| <= |s| && s[..|t|] == t
  }

  /** The characters `trim()` removes: the ECMAScript WhiteSpace (tab,
      vertical tab, form feed, space, no-break space, the byte order mark and
      the space separators of Unicode category Zs) and LineTerminator (line
      feed, carriage return, line and paragraph separator) characters. */
  predicate IsJsSpace(c: char) {
    c == '\t' || c == '\U{000B}' || c == '\U{000C}' || c == ' ' || c == '\U{00A0}' || c == '\U{FEFF}' ||
    c == '\U{1680}' || ('\U{2000}' <= c <= '\U{200A}') || c == '\U{202F}' || c == '\U{205F}' || c == '\U{3000}' ||
    c == '\n' || c == '\r' || c == '\U{2028}' || c == '\U{2029}'
  }

  /** `s.trim()` is non-empty: s holds a character that is not white space. */
  predicate HasNonBlank(s: string) {
    exists i :: 0 <= i < |s| && !IsJsSpace(s[i])
  }

  /** `a <= b` on strings: code-unit by code-unit, a proper prefix first. */
  predicate LexLe(a: string, b: string) {
    |a| == 0 || (|b| > 0 && (a[0] < b[0] || (a[0] == b[0] && LexLe(a[1..], b[1..]))))
  }

  /** `s.split(c)[0]`: the part of s before the first c, or all of s. */
  function Before(s: string, c: char): (r: string)
    ensures |r| <= |s| && r == s[..|r|]
    ensures c !in r
    ensures |r| < |s| ==> s[|r|] == c
  {
    if |s| == 0 || s[0] == c then "" else [s[0]] + Before(s[1..], c)
  }

  // ---------------------------------------------------------------------
  // Sums

  /** `s.reduce((acc, x) => acc + f(x), 0)`. */
  function SumOf<T>(s: seq<T>, f: T -> int): int {
    if |s| == 0 then 0 else SumOf(s[..|s| - 1], f) + f(s[|s| - 1])
  }

  lemma {:induction false} SumOfAppend<T>(xs: seq<T>, ys: seq<T>, f: T -> int)
    ensures SumOf(xs + ys, f) == SumOf(xs, f) + SumOf(ys, f)
    decreases |ys|
  {
    if |ys| == 0 {
      assert xs + ys == xs;
    } else {
      assert (xs + ys)[..|xs + ys| - 1] == xs + ys[..|ys| - 1];
      SumOfAppend(xs, ys[..|ys| - 1], f);
    }
  }

  lemma SumOfCons<T>(x: T, xs: seq<T>, f: T -> int)
    ensures SumOf([x] + xs, f) == f(x) + SumOf(xs, f)
  {
    SumOfAppend([x], xs, f);
    assert SumOf([x], f) == SumOf([], f) + f(x);
  }
}

/** A stable insertion sort on a numeric key, largest key first: the order
    `array.sort((a, b) => key(b) - key(a))` produces (that sort is stable). */
module Sorting {

  predicate SortedDesc<T>(s: seq<T>, key: T -> int) {
    forall i, j :: 0 <= i < j < |s| ==> key(s[i]) >= key(s[j])
  }

  /** Puts x in front of the first element whose key is smaller than x's,
      so behind every element whose key equals x's. */
  function InsertDesc<T>(x: T, s: seq<T>, key: T -> int): (r: seq<T>)
    requires SortedDesc(s, key)
    ensures SortedDesc(r, key)
    ensures multiset(r) == multiset(s) + multiset{x}
    ensures |r| == |s| + 1
  {
    if |s| == 0 then [x]
    else if key(x) > key(s[0]) then [x] + s
    else
      var rest := InsertDesc(x, s[1..], key);
      InsertDescBelow(x, s, rest, key);
      assert s == [s[0]] + s[1..];
      [s[0]] + rest
  }

  lemma InsertDescBelow<T>(x: T, s: seq<T>, rest: seq<T>, key: T -> int)
    requires |s| > 0 && SortedDesc(s, key) && key(x) <= key(s[0])
    requires multiset(rest) == multiset(s[1..]) + multiset{x}
    ensures forall i :: 0 <= i < |rest| ==> key(rest[i]) <= key(s[0])
  {
    forall i | 0 <= i < |rest|
      ensures key(rest[i]) <= key(s[0])
    {
      assert rest[i] in multiset(rest);
      if rest[i] != x {
        assert rest[i] in multiset(s[1..]);
        var j :| 0 <= j < |s[1..]| && s[1..][j] == rest[i];
        assert s[j + 1] == rest[i];
      }
    }
  }

  /** The elements of s, newest (largest key) first. */
  function SortDesc<T>(s: seq<T>, key: T -> int): (r: seq<T>)
    ensures SortedDesc(r, key)
    ensures multiset(r) == multiset(s)
    ensures |r| == |s|
  {
    if |s| == 0 then []
    else
      assert s == s[..|s| - 1] + [s[|s| - 1]];
      InsertDesc(s[|s| - 1], SortDesc(s[..|s| - 1], key), key)
  }

  /** The elements of s whose key is k, in the order of s. */
  function WithKey<T>(s: seq<T>, key: T -> int, k: int): seq<T> {
    if |s| == 0 then [] else (if key(s[0]) == k then [s[0]] else []) + WithKey(s[1..], key, k)
  }

  lemma {:induction false} WithKeyAppend<T>(a: seq<T>, b: seq<T>, key: T -> int, k: int)
    ensures WithKey(a + b, key, k) == WithKey(a, key, k) + WithKey(b, key, k)
  {
    if |a| > 0 {
      assert (a + b)[1..] == a[1..] + b;
      WithKeyAppend(a[1..], b, key, k);
    } else {
      assert a + b == b;
    }
  }

  lemma {:induction false} WithKeyBelow<T>(s: seq<T>, key: T -> int, k: int)
    requires forall i :: 0 <= i < |s| ==> key(s[i]) < k
    ensures WithKey(s, key, k) == []
  {
    if |s| > 0 {
      WithKeyBelow(s[1..], key, k);
    }
  }

  /** The key class of x in front of s. */
  lemma WithKeyCons<T>(x: T, s: seq<T>, key: T -> int, k: int)
    ensures WithKey([x] + s, key, k) == (if key(x) == k then [x] else []) + WithKey(s, key, k)
  {
    assert ([x] + s)[1..] == s;
  }

  /** Inserting x puts it behind every element with the same key. */
  lemma {:induction false} InsertDescStable<T>(x: T, s: seq<T>, key: T -> int, k: int)
    requires SortedDesc(s, key)
    ensures WithKey(InsertDesc(x, s, key), key, k) ==
      WithKey(s, key, k) + (if key(x) == k then [x] else [])
  {
    if |s| == 0 {
      WithKeyCons(x, s, key, k);
    } else if key(x) > key(s[0]) {
      InsertDescFront(x, s, key, k);
    } else {
      var rest := InsertDesc(x, s[1..], key);
      InsertDescStable(x, s[1..], key, k);
      WithKeyCons(s[0], rest, key, k);
      WithKeyCons(s[0], s[1..], key, k);
      assert s == [s[0]] + s[1..];
    }
  }

  /** x goes in front of s when its key beats every key of s. */
  lemma InsertDescFront<T>(x: T, s: seq<T>, key: T -> int, k: int)
    requires |s| > 0 && SortedDesc(s, key) && key(x) > key(s[0])
    ensures WithKey(InsertDesc(x, s, key), key, k) ==
      WithKey(s, key, k) + (if key(x) == k then [x] else [])
  {
    assert InsertDesc(x, s, key) == [x] + s;
    WithKeyCons(x, s, key, k);
    if key(x) == k {
      assert forall i :: 0 <= i < |s| ==> key(s[i]) <= key(s[0]);
      WithKeyBelow(s, key, k);
    }
  }

  /** The sort is stable: the elements of any one key keep their input
      order, the guarantee `Array.prototype.sort` gives. */
  lemma {:induction false} SortDescStable<T>(s: seq<T>, key: T -> int, k: int)
    ensures WithKey(SortDesc(s, key), key, k) == WithKey(s, key, k)
    decreases |s|
  {
    if |s| > 0 {
      var init, last := s[..|s| - 1], s[|s| - 1];
      assert s == init + [last];
      SortDescStable(init, key, k);
      InsertDescStable(last, SortDesc(init, key), key, k);
      WithKeyAppend(init, [last], key, k);
      assert WithKey([last], key, k) == (if key(last) == k then [last] else []) + WithKey([last][1..], key, k);
    }
  }
}
