/** The JavaScript built-ins the stores rely on, as pure functions over values:
    `undefined`, `Array.prototype.find`, `slice(0, n)`, `filter`,
    `Date.prototype.toISOString().slice(0, 10)` and number-to-text conversion. */
module Common {

  /** A value that may be `undefined` (or `null`: the core never tells them apart). */
  datatype Option<+T> = None | Some(value: T)

  /** The `{ ok, reason? }` answer of both rate limiters. */
  datatype RateResult = Allowed | Denied(reason: string)

  function Min(a: int, b: int): int { if a <= b then a else b }

  function Max(a: int, b: int): int { if a >= b then a else b }

  /** JavaScript truthiness of a possibly undefined string: `undefined` and `""` are falsy. */
  predicate Truthy(s: Option<string>) { s.Some? && s.value != "" }

  /** No two elements of `s` are equal. */
  predicate Distinct<T(==)>(s: seq<T>) {
    forall i, j :: 0 <= i < j < |s| ==> s[i] != s[j]
  }

  /** The index of the first occurrence of `x` in `s`, as `find`/`indexOf` look for it. */
  function IndexOf<T(==)>(s: seq<T>, x: T): (r: Option<nat>)
    ensures r.Some? ==> r.value < |s| && s[r.value] == x
    ensures r.Some? ==> forall j :: 0 <= j < r.value ==> s[j] != x
    ensures r.None? <==> x !in s
  {
    if s == [] then None
    else if s[0] == x then Some(0)
    else match IndexOf(s[1..], x)
      case None => None
      case Some(i) => Some(i + 1)
  }

  /** `s` in reverse order. */
  function Reversed<T>(s: seq<T>): (r: seq<T>)
    ensures |r| == |s|
    ensures forall i :: 0 <= i < |s| ==> r[i] == s[|s| - 1 - i]
  {
    if s == [] then [] else Reversed(s[1..]) + [s[0]]
  }

  /** The end index `s.slice(0, limit)` uses: a negative limit counts back from the end. */
  function SliceEnd(len: nat, limit: int): (e: nat)
    ensures e <= len
  {
    if limit >= 0 then Min(limit, len) else Max(0, len + limit)
  }

  /** `s.slice(0, limit)`. */
  function Take<T>(s: seq<T>, limit: int): (r: seq<T>)
    ensures r <= s
    ensures 0 <= limit ==> |r| == Min(limit, |s|)
    ensures limit < 0 ==> |r| == Max(0, |s| + limit)
  {
    s[..SliceEnd(|s|, limit)]
  }

  /** `s.filter(p)`: the elements that satisfy `p`, in their order in `s`. */
  function Filter<T>(s: seq<T>, p: T -> bool): (r: seq<T>)
    ensures |r| <= |s|
    ensures forall i :: 0 <= i < |r| ==> p(r[i])
    ensures forall i :: 0 <= i < |s| && p(s[i]) ==> s[i] in r
    ensures forall x :: x in r ==> x in s
  {
    if s == [] then []
    else if p(s[0]) then [s[0]] + Filter(s[1..], p)
    else Filter(s[1..], p)
  }

  /** Filtering distributes over concatenation, so filtering keeps relative order. */
  lemma {:induction false} FilterConcat<T>(a: seq<T>, b: seq<T>, p: T -> bool)
    ensures Filter(a + b, p) == Filter(a, p) + Filter(b, p)
  {
    if a == [] {
      assert a + b == b;
    } else {
      assert (a + b)[0] == a[0];
      assert (a + b)[1..] == a[1..] + b;
      FilterConcat(a[1..], b, p);
    }
  }

  /** Filtering a list without duplicates leaves a list without duplicates. */
  lemma {:induction false} FilterDistinct<T>(s: seq<T>, p: T -> bool)
    requires Distinct(s)
    ensures Distinct(Filter(s, p))
  {
    if s != [] {
      FilterDistinct(s[1..], p);
      if p(s[0]) {
        var r := Filter(s[1..], p);
        assert s[0] !in s[1..];
        assert s[0] !in r;
        assert Filter(s, p) == [s[0]] + r;
      }
    }
  }

  /** `toISOString().slice(0, 10)`: the day key of an ISO 8601 timestamp. */
  function DayKey(iso: string): (key: string)
    ensures key <= iso
    ensures |key| == Min(10, |iso|)
  {
    Take(iso, 10)
  }

  /** The day key of a timestamp `YYYY-MM-DDThh:mm:ss.sssZ` is its `full-date` part
      (section 5.6 of RFC 3339), whatever the time of day. */
  lemma DayKeyOfTimestamp(date: string, time: string)
    requires |date| == 10
    ensures DayKey(date + "T" + time) == date
  {
    assert (date + "T" + time)[..10] == date;
  }

  function DigitChar(d: nat): (c: char)
    requires d < 10
    ensures '0' <= c <= '9' && c as int - '0' as int == d
  {
    (48 + d) as char
  }

  /** The decimal rendering of a non-negative integer, as a template literal gives it. */
  function NatToString(n: nat): (r: string)
    ensures |r| >= 1
    ensures forall i :: 0 <= i < |r| ==> '0' <= r[i] <= '9'
    decreases n
  {
    if n < 10 then [DigitChar(n)] else NatToString(n / 10) + [DigitChar(n % 10)]
  }

  /** The decimal rendering of an integer, with a leading `-` when it is negative. */
  function IntToString(n: int): (r: string)
    ensures |r| >= 1
    ensures r[0] == '-' <==> n < 0
  {
    if n < 0 then "-" + NatToString(-n) else NatToString(n)
  }

  /** The number a string of decimal digits denotes. */
  function DigitsValue(s: string): nat
    requires forall i :: 0 <= i < |s| ==> '0' <= s[i] <= '9'
  {
    if s == [] then 0 else DigitsValue(s[..|s| - 1]) * 10 + (s[|s| - 1] as int - '0' as int)
  }

  /** Rendering a non-negative integer in decimal loses nothing: reading the digits back gives it again. */
  lemma {:induction false} NatToStringRoundTrip(n: nat)
    ensures DigitsValue(NatToString(n)) == n
    decreases n
  {
    var r := NatToString(n);
    if n >= 10 {
      NatToStringRoundTrip(n / 10);
      assert r[..|r| - 1] == NatToString(n / 10);
    }
  }
}
