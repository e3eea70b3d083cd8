/** `normalize_date` (ics_to_todotxt.py): DATE and DATE-TIME values of
    sections 3.3.4 and 3.3.5 of RFC 5545 brought to `YYYY-MM-DD`. */
module Dates {
  import opened Strings

  /** The value is cut at its first `T`; a cut value of exactly eight
      characters gets dashes after the year and the month, and any other
      length is passed through. */
  function NormalizeDate(date: string): (r: string)
    ensures var d := Before(date, 'T');
      && (|d| == 8 ==> |r| == 10 && r[4] == '-' && r[7] == '-' && r[..4] + r[5..7] + r[8..] == d)
      && (|d| != 8 ==> r == d)
    ensures 'T' !in r
  {
    var d := Before(date, 'T');
    if |d| == 8 then
      var r := d[..4] + "-" + d[4..6] + "-" + d[6..];
      assert r[..4] == d[..4] && r[5..7] == d[4..6] && r[8..] == d[6..];
      assert d == d[..4] + d[4..6] + d[6..];
      r
    else d
  }

  /** A normalized date is left alone by a second normalization. */
  lemma NormalizeDateIdempotent(date: string)
    ensures NormalizeDate(NormalizeDate(date)) == NormalizeDate(date)
  {
  }

  /** The forms a calendar export uses: a DATE-TIME in UTC, a DATE, and an
      already dashed date. */
  lemma NormalizeDateTimeExample()
    ensures NormalizeDate("20230115T093000Z") == "2023-01-15"
  {
    var s := "20230115T093000Z";
    assert s[..8] == "20230115";
    assert 'T' !in s[..8];
    BeforeAt(s, 8);
    NormalizeDateCut(s);
    NormalizeDateExamples();
  }

  /** Only the part before the first `T` matters. */
  lemma NormalizeDateCut(date: string)
    ensures NormalizeDate(date) == NormalizeDate(Before(date, 'T'))
  {
  }

  lemma NormalizeDateExamples()
    ensures NormalizeDate("20230115") == "2023-01-15"
    ensures NormalizeDate("2023-01-15") == "2023-01-15"
  {
    var d, e := "20230115", "2023-01-15";
    assert 'T' !in d && 'T' !in e;
    assert d[..4] + "-" + d[4..6] + "-" + d[6..] == e;
  }

  lemma BeforeAt(s: string, n: nat)
    requires n < |s| && s[n] == 'T' && 'T' !in s[..n]
    ensures Before(s, 'T') == s[..n]
  {
  }
}
