/**
 Calendar dates as the page handles them: ISO strings `YYYY-MM-DD`, and the
 month key `YYYY-MM` that groups them.
 */
module Dates {

  predicate IsDigit(c: char) {
    '0' <= c <= '9'
  }

  /** A well-formed `YYYY-MM-DD` string, the format the date picker produces. */
  predicate IsIsoDate(d: string) {
    && |d| == 10
    && d[4] == '-' && d[7] == '-'
    && (forall i :: 0 <= i < 4 ==> IsDigit(d[i]))
    && IsDigit(d[5]) && IsDigit(d[6]) && IsDigit(d[8]) && IsDigit(d[9])
  }

  /** The year and month parts of an ISO date. */
  function Year(d: string): string
    requires IsIsoDate(d)
  {
    d[..4]
  }

  function Month(d: string): string
    requires IsIsoDate(d)
  {
    d[5..7]
  }

  /**
   The month key of a date: its first seven characters. Like JavaScript's
   `slice(0, 7)`, a shorter string is returned whole. JavaScript counts UTF-16
   code units where this counts characters; the two agree on the ASCII dates
   the page produces.
   */
  function MonthKey(d: string): string {
    if |d| < 7 then d else d[..7]
  }

  /** The month key is the prefix of the date of length seven, or the whole of a shorter date. */
  lemma MonthKeyIsPrefix(d: string)
    ensures MonthKey(d) <= d
    ensures |MonthKey(d)| == if |d| < 7 then |d| else 7
  {
  }

  /** The month key of an ISO date is its year, a dash, and its month. */
  lemma MonthKeyOfIsoDate(d: string)
    requires IsIsoDate(d)
    ensures MonthKey(d) == Year(d) + "-" + Month(d)
  {
    assert d[..7] == d[..4] + [d[4]] + d[5..7];
  }

  /**
   Two ISO dates get the same month key exactly when they lie in the same
   year and the same month.
   */
  lemma SameMonthKeyIff(d1: string, d2: string)
    requires IsIsoDate(d1) && IsIsoDate(d2)
    ensures MonthKey(d1) == MonthKey(d2) <==> Year(d1) == Year(d2) && Month(d1) == Month(d2)
  {
    MonthKeyOfIsoDate(d1);
    MonthKeyOfIsoDate(d2);
    if MonthKey(d1) == MonthKey(d2) {
      assert Year(d1) == MonthKey(d1)[..4] == MonthKey(d2)[..4] == Year(d2);
      assert Month(d1) == MonthKey(d1)[5..] == MonthKey(d2)[5..] == Month(d2);
    }
  }

  /** Taking the month key of a month key changes nothing. */
  lemma MonthKeyIdempotent(d: string)
    ensures MonthKey(MonthKey(d)) == MonthKey(d)
  {
  }
}
