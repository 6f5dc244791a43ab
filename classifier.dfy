/**
 * The heuristic that decides whether a string parameter is bound as a
 * datetime literal instead of a plain string. It looks only at the length and
 * at fixed character positions.
 */
module Classifier {

  /** Accepts a string when its length falls in one of three bands and the band's positional checks hold. */
  predicate IsSqlDatetime(s: string)
  {
    if 19 <= |s| <= 26 then
      s[4] == '-' && s[7] == '-' && s[10] == ' ' && s[13] == ':' && s[15] == ':'
    else if 8 <= |s| <= 16 then
      s[0] == '-' || (s[3] == ':' && s[5] == ':') || (s[2] == ':' && s[4] == ':')
      || (|s| == 10 && s[4] == '-' && s[7] == '-')
    else
      |s| == 4
  }

  /** In the 19-26 band only the five separator positions decide; a failure there does not fall back to other shapes. */
  lemma DatetimeBand(s: string)
    requires 19 <= |s| <= 26
    ensures IsSqlDatetime(s) <==>
              s[4] == '-' && s[7] == '-' && s[10] == ' ' && s[13] == ':' && s[15] == ':'
  {
  }

  /** In the 8-16 band a leading '-' or either colon pair is enough; the date shape counts only at length 10. */
  lemma ShortBand(s: string)
    requires 8 <= |s| <= 16
    ensures s[0] == '-' ==> IsSqlDatetime(s)
    ensures s[3] == ':' && s[5] == ':' ==> IsSqlDatetime(s)
    ensures s[2] == ':' && s[4] == ':' ==> IsSqlDatetime(s)
    ensures |s| == 10 && s[4] == '-' && s[7] == '-' ==> IsSqlDatetime(s)
    ensures IsSqlDatetime(s) ==>
              s[0] == '-' || (s[3] == ':' && s[5] == ':') || (s[2] == ':' && s[4] == ':')
              || (|s| == 10 && s[4] == '-' && s[7] == '-')
  {
  }

  /** Every four-character string is taken for a bare year, whatever it holds. */
  lemma YearBand(s: string)
    requires |s| == 4
    ensures IsSqlDatetime(s)
  {
  }

  /** A length outside {4} and the two bands is always rejected. */
  lemma OutsideBands(s: string)
    requires |s| != 4 && !(8 <= |s| <= 16) && !(19 <= |s| <= 26)
    ensures !IsSqlDatetime(s)
  {
  }

  /**
   * Literal verdicts. The separators are tested at 13 and 15, so the usual
   * "YYYY-MM-DD HH:MM:SS" layout (colons at 13 and 16) is rejected, as are
   * "HH:MM:SS" (colons at 2 and 5) and the seven-character "H:MM:SS".
   */
  lemma LiteralTable()
    ensures !IsSqlDatetime("2024-01-02 03:04:05")
    ensures IsSqlDatetime("2024-01-02 03:0:4:5")
    ensures IsSqlDatetime("2024-01-02")
    ensures !IsSqlDatetime("2024/01/02")
    ensures !IsSqlDatetime("12:30:00")
    ensures IsSqlDatetime("123:4:00")
    ensures IsSqlDatetime("12:3:000")
    ensures !IsSqlDatetime("1:30:00")
    ensures IsSqlDatetime("-8:30:00")
    ensures IsSqlDatetime("2024")
    ensures IsSqlDatetime("abcd")
    ensures !IsSqlDatetime("hello")
    ensures !IsSqlDatetime("")
  {
  }
}
