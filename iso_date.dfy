/** The two ways the forms cut the calendar date out of a timestamp as
    `Date.prototype.toISOString` writes it: the edit form keeps what lies
    before the first `T` (`split("T")[0]`), the entry form the first ten
    characters (`slice(0, 10)`). */
module IsoDate {

  /** `s.split("T")[0]`: the longest prefix without a `T`. */
  function DatePart(s: string): (r: string)
    ensures r <= s
    ensures 'T' !in r
    ensures |r| < |s| ==> s[|r|] == 'T'
  {
    if s == [] || s[0] == 'T' then [] else [s[0]] + DatePart(s[1..])
  }

  /** `s.slice(0, 10)`. */
  function FirstTen(s: string): (r: string)
    ensures r <= s
    ensures |r| == if |s| < 10 then |s| else 10
  {
    if |s| < 10 then s else s[..10]
  }

  predicate IsDigit(c: char) {
    '0' <= c <= '9'
  }

  /** A full-date `YYYY-MM-DD` of section 5.6 of RFC 3339, by its shape. */
  predicate IsFullDate(s: string) {
    && |s| == 10
    && IsDigit(s[0]) && IsDigit(s[1]) && IsDigit(s[2]) && IsDigit(s[3]) && s[4] == '-'
    && IsDigit(s[5]) && IsDigit(s[6]) && s[7] == '-' && IsDigit(s[8]) && IsDigit(s[9])
  }

  /** What `toISOString` writes for a year from 0 to 9999: an RFC 3339
      date-time `YYYY-MM-DDTHH:mm:ss.sssZ`, by its shape. */
  predicate IsIsoTimestamp(s: string) {
    && |s| == 24
    && IsFullDate(s[..10])
    && s[10] == 'T'
    && IsDigit(s[11]) && IsDigit(s[12]) && s[13] == ':'
    && IsDigit(s[14]) && IsDigit(s[15]) && s[16] == ':'
    && IsDigit(s[17]) && IsDigit(s[18]) && s[19] == '.'
    && IsDigit(s[20]) && IsDigit(s[21]) && IsDigit(s[22]) && s[23] == 'Z'
  }

  /** Where the first `T` stands at position k, `DatePart` is the k characters before it. */
  lemma DatePartBeforeFirstT(s: string, k: nat)
    requires k < |s| && s[k] == 'T'
    requires forall i :: 0 <= i < k ==> s[i] != 'T'
    ensures DatePart(s) == s[..k]
  {
  }

  /** On the timestamps `toISOString` writes for four-digit years, both ways
      give the same full-date. */
  lemma DatePartOfIsoTimestamp(s: string)
    requires IsIsoTimestamp(s)
    ensures DatePart(s) == FirstTen(s) == s[..10]
    ensures IsFullDate(DatePart(s))
  {
    assert forall i :: 0 <= i < 10 ==> s[i] == s[..10][i];
    DatePartBeforeFirstT(s, 10);
  }

  /** For a year past 9999 `toISOString` writes six digits and a sign, and
      the two ways part: `DatePart` keeps the whole date, `FirstTen` cuts
      the day and part of the month off. */
  lemma ExpandedYearParts(s: string)
    requires s == "+020000-01-01T00:00:00.000Z"
    ensures DatePart(s) == "+020000-01-01"
    ensures FirstTen(s) == "+020000-01"
  {
    DatePartBeforeFirstT(s, 13);
  }
}
