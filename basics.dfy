/** Values shared by the wellness store, the questionnaire scorer and the
    progression engine: optional values, time stamps, counting, searching
    and the rounding of `Math.round`. */
module Basics {

  datatype Option<T> = None | Some(value: T)

  datatype Result<T, E> = Success(value: T) | Failure(error: E)

  /** Milliseconds in one day (`24 * 60 * 60 * 1000`). */
  const DayMs: int := 86400000

  /** A point in time: its millisecond time stamp and the local calendar day
      it falls on (what `toDateString` compares). The day is supplied by the
      clock, since the model has no time zone. */
  datatype Instant = Instant(ms: int, day: int)

  /** What one call reads from the clock: the current instant and the
      calendar day of the instant 24 hours earlier ("yesterday"). Around a
      daylight-saving change that day need not be `now.day - 1`. */
  datatype Clock = Clock(now: Instant, yesterday: int)

  /** The number of elements of `s` that satisfy `p` (a `filter(...).length`). */
  function Count<T>(s: seq<T>, p: T -> bool): (n: nat)
    ensures n <= |s|
    ensures n == |s| <==> forall i :: 0 <= i < |s| ==> p(s[i])
    ensures n == 0 <==> forall i :: 0 <= i < |s| ==> !p(s[i])
  {
    if s == [] then 0
    else Count(s[..|s| - 1], p) + (if p(s[|s| - 1]) then 1 else 0)
  }

  lemma CountAppend<T>(s: seq<T>, x: T, p: T -> bool)
    ensures Count(s + [x], p) == Count(s, p) + (if p(x) then 1 else 0)
  {
    assert (s + [x])[..|s|] == s;
  }

  /** Replacing one element changes the count only by what that element
      contributes before and after. */
  lemma {:induction false} CountUpdate<T>(s: seq<T>, i: nat, x: T, p: T -> bool)
    requires i < |s|
    ensures Count(s[i := x], p)
         == Count(s, p) - (if p(s[i]) then 1 else 0) + (if p(x) then 1 else 0)
  {
    var n := |s| - 1;
    if i < n {
      CountUpdate(s[..n], i, x, p);
      assert s[i := x][..n] == s[..n][i := x];
    } else {
      assert s[i := x][..n] == s[..n];
    }
  }

  /** Two sequences that agree on `p` element by element have the same count. */
  lemma {:induction false} CountSame<T>(s: seq<T>, t: seq<T>, p: T -> bool, q: T -> bool)
    requires |s| == |t|
    requires forall i :: 0 <= i < |s| ==> (p(s[i]) <==> q(t[i]))
    ensures Count(s, p) == Count(t, q)
  {
    if s != [] {
      CountSame(s[..|s| - 1], t[..|t| - 1], p, q);
    }
  }

  /** The first index whose element satisfies `p` (`findIndex`, or `find`
      when the caller then reads that element). */
  function FindFirst<T>(s: seq<T>, p: T -> bool): (r: Option<nat>)
    ensures r.Some? ==> r.value < |s| && p(s[r.value])
                        && forall j :: 0 <= j < r.value ==> !p(s[j])
    ensures r.None? <==> forall j :: 0 <= j < |s| ==> !p(s[j])
  {
    if s == [] then None
    else if p(s[0]) then Some(0)
    else match FindFirst(s[1..], p)
      case None => None
      case Some(k) => Some(k + 1)
  }

  /** `Math.round(num / den)` for a positive denominator: the integer `r`
      with `r - 1/2 <= num / den < r + 1/2`, so halves round up. */
  function Round(num: int, den: int): (r: int)
    requires den > 0
    ensures 2 * den * r <= 2 * num + den < 2 * den * r + 2 * den
  {
    var n := 2 * num + den;
    var d := 2 * den;
    assert n == d * (n / d) + n % d;
    n / d
  }

  /** The quotient of `n` by `d` is the `q` with `d * q <= n < d * (q + 1)`. */
  lemma DivBracket(n: int, d: int, q: int)
    requires d > 0
    requires d * q <= n < d * q + d
    ensures n / d == q
  {
    var r := n / d;
    assert n == d * r + n % d;
    if r < q {
      MulAtLeast(d, q, r + 1);
      assert false;
    } else if r > q {
      MulAtLeast(d, r, q + 1);
      assert false;
    }
  }

  /** The inverted percentage `Math.round((1 - total / max) * 100)`: the
      nearest integer to `100 * (max - total) / max`, halves rounding up. */
  function Percentage(total: int, max: int): (r: int)
    requires max > 0
    ensures 2 * max * r <= 200 * (max - total) + max < 2 * max * r + 2 * max
  {
    Round(100 * (max - total), max)
  }

  /** Nothing scored is 100 per cent. */
  lemma PercentageOfNothing(max: int)
    requires max > 0
    ensures Percentage(0, max) == 100
  {
    DivBracket(201 * max, 2 * max, 100);
  }

  /** Everything scored is 0 per cent. */
  lemma PercentageOfAll(max: int)
    requires max > 0
    ensures Percentage(max, max) == 0
  {
    DivBracket(max, 2 * max, 0);
  }

  /** A total between nothing and everything gives a percentage in [0, 100]. */
  lemma PercentageWithin(total: int, max: int)
    requires max > 0 && 0 <= total <= max
    ensures 0 <= Percentage(total, max) <= 100
  {
    var n := 200 * (max - total) + max;
    var d := 2 * max;
    var q := n / d;
    assert n == d * q + n % d;
    if q < 0 {
      MulAtLeast(d, -1, q);
      assert false;
    }
    if q > 100 {
      MulAtLeast(d, q, 101);
      assert false;
    }
  }

  /** 100 when nothing was scored, 0 when everything was, and within
      [0, 100] in between. */
  lemma PercentageBounds(total: int, max: int)
    requires max > 0
    ensures total == 0 ==> Percentage(total, max) == 100
    ensures total == max ==> Percentage(total, max) == 0
    ensures 0 <= total <= max ==> 0 <= Percentage(total, max) <= 100
  {
    if total == 0 { PercentageOfNothing(max); }
    if total == max { PercentageOfAll(max); }
    if 0 <= total <= max { PercentageWithin(total, max); }
  }

  lemma MulAtLeast(a: int, b: int, c: int)
    requires a > 0 && b >= c
    ensures a * b >= a * c
  {}

  /** ASCII lower-casing. When the result is only searched for a lower-case
      ASCII word (as "gratitude" is) it agrees with `toLowerCase`: no other
      character lower-cases to a single letter of such a word. */
  function Lower(s: string): (r: string)
    ensures |r| == |s|
    ensures forall i :: 0 <= i < |s| ==>
      r[i] == if 'A' <= s[i] <= 'Z' then (s[i] as int + 32) as char else s[i]
  {
    if s == [] then []
    else [if 'A' <= s[0] <= 'Z' then (s[0] as int + 32) as char else s[0]] + Lower(s[1..])
  }

  /** `s.includes(pattern)`: `pattern` occurs in `s` at some position. */
  predicate Includes(s: string, pattern: string)
    decreases |s|
  {
    |pattern| <= |s| && (s[..|pattern|] == pattern || Includes(s[1..], pattern))
  }

  /** When `s` includes `pattern`, it occurs at some position. */
  lemma {:induction false} IncludesSomewhere(s: string, pattern: string) returns (i: nat)
    requires Includes(s, pattern)
    ensures i + |pattern| <= |s| && s[i..i + |pattern|] == pattern
    decreases |s|
  {
    if s[..|pattern|] == pattern {
      i := 0;
    } else {
      var k := IncludesSomewhere(s[1..], pattern);
      assert s[1..][k..k + |pattern|] == s[k + 1..k + 1 + |pattern|];
      i := k + 1;
    }
  }

  /** An occurrence at position `i` makes `s` include `pattern`. */
  lemma {:induction false} IncludesAt(s: string, pattern: string, i: nat)
    requires i + |pattern| <= |s| && s[i..i + |pattern|] == pattern
    ensures Includes(s, pattern)
  {
    if i > 0 {
      assert s[1..][i - 1..i - 1 + |pattern|] == s[i..i + |pattern|];
      IncludesAt(s[1..], pattern, i - 1);
    }
  }
}
