/** Regular expressions that the site uses in more than one file, each written
    as a hand-made predicate and proved equal to the language of the expression,
    stated as a split of the input into the expression's parts. */
module Patterns {
  import opened Text

  // ----- /^(010|011|016|017|018|019)-?\d{3,4}-?\d{4}$/ -----

  const MobilePrefixes: seq<string> := ["010", "011", "016", "017", "018", "019"]

  /** `-?` followed by a digit: dropping one leading '-' is the only way to match,
      since a digit never matches '-'. */
  function SkipDash(s: string): (r: string)
    ensures r == s || (s != [] && s[0] == '-' && r == s[1..])
  {
    if s != [] && s[0] == '-' then s[1..] else s
  }

  /** `-?\d{4}$` */
  predicate LastGroup(t: string) {
    var u := SkipDash(t);
    |u| == 4 && AllDigits(u)
  }

  /** `-?\d{3,4}-?\d{4}$` */
  predicate MiddleAndLastGroups(r: string) {
    var u := SkipDash(r);
    || (|u| >= 3 && AllDigits(u[..3]) && LastGroup(u[3..]))
    || (|u| >= 4 && AllDigits(u[..4]) && LastGroup(u[4..]))
  }

  /** `/^(010|011|016|017|018|019)-?\d{3,4}-?\d{4}$/.test(s)` */
  predicate MobilePattern(s: string) {
    |s| >= 3 && s[..3] in MobilePrefixes && MiddleAndLastGroups(s[3..])
  }

  /** `s` splits as prefix, `d1` dashes (0 or 1), `m` digits (3 or 4), `d2` dashes
      (0 or 1) and four digits. */
  ghost predicate MobileSplit(s: string, d1: int, m: int, d2: int) {
    && (d1 == 0 || d1 == 1) && (m == 3 || m == 4) && (d2 == 0 || d2 == 1)
    && |s| == 3 + d1 + m + d2 + 4
    && s[..3] in MobilePrefixes
    && (d1 == 1 ==> s[3] == '-')
    && AllDigits(s[3 + d1..3 + d1 + m])
    && (d2 == 1 ==> s[3 + d1 + m] == '-')
    && AllDigits(s[3 + d1 + m + d2..])
  }

  lemma MobilePatternIsRegex(s: string)
    ensures MobilePattern(s) <==> exists d1, m, d2 :: MobileSplit(s, d1, m, d2)
  {
    if MobilePattern(s) {
      MobilePatternHasSplit(s);
    }
    if exists d1, m, d2 :: MobileSplit(s, d1, m, d2) {
      var d1, m, d2 :| MobileSplit(s, d1, m, d2);
      MobileSplitMatches(s, d1, m, d2);
    }
  }

  lemma MobilePatternHasSplit(s: string)
    requires MobilePattern(s)
    ensures exists d1, m, d2 :: MobileSplit(s, d1, m, d2)
  {
    var r := s[3..];
    var u := SkipDash(r);
    var d1 := |r| - |u|;
    assert u == s[3 + d1..];
    var m := if |u| >= 3 && AllDigits(u[..3]) && LastGroup(u[3..]) then 3 else 4;
    var t := u[m..];
    var d2 := |t| - |SkipDash(t)|;
    assert s[3 + d1..3 + d1 + m] == u[..m];
    assert s[3 + d1 + m + d2..] == SkipDash(t);
    assert MobileSplit(s, d1, m, d2);
  }

  lemma MobileSplitMatches(s: string, d1: int, m: int, d2: int)
    requires MobileSplit(s, d1, m, d2)
    ensures MobilePattern(s)
  {
    var u := SkipDash(s[3..]);
    assert s[3..][0] == s[3];
    if d1 == 0 {
      assert s[3] == s[3..3 + m][0];
    }
    assert u == s[3 + d1..];
    var t := u[m..];
    assert u[..m] == s[3 + d1..3 + d1 + m];
    assert t == s[3 + d1 + m..];
    if d2 == 0 {
      assert t[0] == s[3 + d1 + m + d2..][0];
    }
    assert SkipDash(t) == s[3 + d1 + m + d2..];
    assert LastGroup(t);
  }

  // ----- /^[^\s@]+@[^\s@]+\.[^\s@]+$/ -----

  /** `/^[^\s@]+@[^\s@]+\.[^\s@]+$/.test(e)`: no white space anywhere, one '@' that
      is not the first character, and a '.' after it with text on both sides. */
  predicate EmailPattern(e: string) {
    var at := IndexOf(e, '@');
    && 0 < at < |e|
    && (forall k | 0 <= k < |e| :: !IsJsWhitespace(e[k]))
    && (forall k | at < k < |e| :: e[k] != '@')
    && (exists j | at + 1 < j < |e| - 1 :: e[j] == '.')
  }

  /** `[^\s@]+` */
  ghost predicate EmailSegment(s: string) {
    |s| > 0 && forall k :: 0 <= k < |s| ==> !IsJsWhitespace(s[k]) && s[k] != '@'
  }

  /** `e` splits as segment, '@' at `i`, segment, '.' at `j`, segment. */
  ghost predicate EmailSplit(e: string, i: int, j: int) {
    && 0 <= i < j < |e|
    && e[i] == '@' && e[j] == '.'
    && EmailSegment(e[..i]) && EmailSegment(e[i + 1..j]) && EmailSegment(e[j + 1..])
  }

  lemma EmailPatternIsRegex(e: string)
    ensures EmailPattern(e) <==> exists i, j :: EmailSplit(e, i, j)
  {
    var at := IndexOf(e, '@');
    if EmailPattern(e) {
      var j :| at + 1 < j < |e| - 1 && e[j] == '.';
      assert EmailSegment(e[..at]);
      assert EmailSegment(e[at + 1..j]);
      assert EmailSegment(e[j + 1..]);
      assert EmailSplit(e, at, j);
    }
    if exists i, j :: EmailSplit(e, i, j) {
      var i, j :| EmailSplit(e, i, j);
      forall k | 0 <= k < i ensures e[k] != '@' {
        assert e[k] == e[..i][k];
      }
      assert at == i;
      forall k | at < k < |e| ensures e[k] != '@' {
        if k < j {
          assert e[k] == e[i + 1..j][k - i - 1];
        } else if k > j {
          assert e[k] == e[j + 1..][k - j - 1];
        }
      }
      forall k | 0 <= k < |e| ensures !IsJsWhitespace(e[k]) {
        if k < i {
          assert e[k] == e[..i][k];
        } else if i < k < j {
          assert e[k] == e[i + 1..j][k - i - 1];
        } else if k > j {
          assert e[k] == e[j + 1..][k - j - 1];
        }
      }
    }
  }
}
