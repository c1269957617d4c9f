/** `Utils.timeAgo`: how long ago a time stamp was, in the coarse bands
    the journal shows. */
module Utils {
  import opened Basics

  /** The band a time difference falls in; `n` is the number the label
      shows. */
  datatype Elapsed = Today | Yesterday | DaysAgo(n: int) | WeeksAgo(n: int) | MonthsAgo(n: int)

  /** Whole days from `thenMs` to `nowMs`, rounded down (`Math.floor`),
      so a time stamp in the future gives a negative count. */
  function DaysBetween(nowMs: int, thenMs: int): int
  {
    (nowMs - thenMs) / DayMs
  }

  function TimeAgo(nowMs: int, thenMs: int): (r: Elapsed)
    ensures var days := DaysBetween(nowMs, thenMs);
      && (r == Today <==> days == 0)
      && (r == Yesterday <==> days == 1)
      && (r.DaysAgo? <==> days < 0 || 2 <= days < 7)
      && (r.WeeksAgo? <==> 7 <= days < 30)
      && (r.MonthsAgo? <==> days >= 30)
      && (r.DaysAgo? ==> r.n == days)
      && (r.WeeksAgo? ==> 1 <= r.n <= 4 && 7 * r.n <= days < 7 * r.n + 7)
      && (r.MonthsAgo? ==> r.n >= 1 && 30 * r.n <= days < 30 * r.n + 30)
  {
    var diffDays := DaysBetween(nowMs, thenMs);
    if diffDays == 0 then Today
    else if diffDays == 1 then Yesterday
    else if diffDays < 7 then DaysAgo(diffDays)
    else if diffDays < 30 then WeeksAgo(diffDays / 7)
    else MonthsAgo(diffDays / 30)
  }

  /** `k` whole days have passed exactly when the difference lies in
      `[k, k + 1)` days. */
  lemma DaysBetweenBracket(nowMs: int, thenMs: int, k: int)
    ensures DaysBetween(nowMs, thenMs) == k <==> k * DayMs <= nowMs - thenMs < k * DayMs + DayMs
  {
    if k * DayMs <= nowMs - thenMs < k * DayMs + DayMs {
      DivBracket(nowMs - thenMs, DayMs, k);
    } else {
      var q := DaysBetween(nowMs, thenMs);
      assert DayMs * q <= nowMs - thenMs < DayMs * q + DayMs;
    }
  }

  /** The label text. */
  function Label(e: Elapsed): string
  {
    match e
    case Today => "Today"
    case Yesterday => "Yesterday"
    case DaysAgo(n) => Decimal(n) + " days ago"
    case WeeksAgo(n) => Decimal(n) + " weeks ago"
    case MonthsAgo(n) => Decimal(n) + " months ago"
  }

  /** The decimal digits of `n`, with a leading `-` when it is negative. */
  function Decimal(n: int): (s: string)
    ensures |s| > 0
    ensures n >= 0 ==> forall i :: 0 <= i < |s| ==> '0' <= s[i] <= '9'
  {
    if n < 0 then "-" + Digits(-n) else Digits(n)
  }

  function Digits(n: nat): (s: string)
    ensures |s| > 0
    ensures forall i :: 0 <= i < |s| ==> '0' <= s[i] <= '9'
  {
    var last := ['0' + (n % 10) as char];
    if n < 10 then last else Digits(n / 10) + last
  }

  /** Reading the digits back gives the number. */
  function DigitsValue(s: string): int
  {
    if s == [] then 0 else 10 * DigitsValue(s[..|s| - 1]) + (s[|s| - 1] as int - '0' as int)
  }

  lemma {:induction false} DigitsRoundTrip(n: nat)
    ensures DigitsValue(Digits(n)) == n
  {
    var last := ['0' + (n % 10) as char];
    if n >= 10 {
      DigitsRoundTrip(n / 10);
      var s := Digits(n / 10) + last;
      assert s[..|s| - 1] == Digits(n / 10);
    }
  }

  /** The bands as the journal shows them. */
  lemma TimeAgoExamples()
    ensures TimeAgo(DayMs - 1, 0) == Today
    ensures TimeAgo(DayMs, 0) == Yesterday
    ensures TimeAgo(6 * DayMs, 0) == DaysAgo(6)
    ensures TimeAgo(7 * DayMs, 0) == WeeksAgo(1)
    ensures TimeAgo(29 * DayMs, 0) == WeeksAgo(4)
    ensures TimeAgo(30 * DayMs, 0) == MonthsAgo(1)
    ensures TimeAgo(0, 1) == DaysAgo(-1)
  {
    DaysBetweenBracket(DayMs - 1, 0, 0);
    DaysBetweenBracket(DayMs, 0, 1);
    DaysBetweenBracket(6 * DayMs, 0, 6);
    DaysBetweenBracket(7 * DayMs, 0, 7);
    DaysBetweenBracket(29 * DayMs, 0, 29);
    DaysBetweenBracket(30 * DayMs, 0, 30);
    DaysBetweenBracket(0, 1, -1);
  }
}
