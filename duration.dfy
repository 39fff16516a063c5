/**
 * The free-text duration parser of the budget engine. Each of four
 * patterns `(\d+)天`, `(\d+)小时`, `(\d+)分`, `(\d+)秒` is searched for
 * independently; the first match of each gives that unit's count, an
 * absent unit counts 0, and the counts combine into hours as
 * d*24 + h + m/60 + s/3600. Digits are ASCII digits; Python floats are
 * modelled as exact reals.
 */
module Duration {
  import opened Text

  datatype Option<T> = None | Some(value: T)

  datatype TimeUnit = Days | Hours | Minutes | Seconds

  const DayToken := "天"
  const HourToken := "小时"
  const MinuteToken := "分"
  const SecondToken := "秒"

  /** The pattern table, in the order the parser visits it. */
  const Patterns: seq<(TimeUnit, string)> :=
    [(Days, DayToken), (Hours, HourToken), (Minutes, MinuteToken), (Seconds, SecondToken)]

  /** A unit token: non-empty and not starting with a digit, as all four are. */
  predicate IsToken(tok: string) { |tok| > 0 && !IsDigit(tok[0]) }

  predicate TokenAt(s: string, j: int, tok: string)
  {
    0 <= j && j + |tok| <= |s| && s[j..j + |tok|] == tok
  }

  /** `(\d+)tok` matches s with its digit group spanning s[i..e]. */
  predicate GroupMatch(s: string, tok: string, i: int, e: int)
  {
    0 <= i < e <= |s| && AllDigits(s[i..e]) && TokenAt(s, e, tok)
  }

  /** The token occurs at j right after a digit. */
  predicate AnchorAt(s: string, tok: string, j: int)
  {
    TokenAt(s, j, tok) && 0 < j && IsDigit(s[j - 1])
  }

  /** End of the longest run of digits starting at i (what greedy `\d+` takes). */
  function RunEnd(s: string, i: nat): (e: nat)
    requires i <= |s|
    ensures i <= e <= |s|
    ensures AllDigits(s[i..e])
    ensures e == |s| || !IsDigit(s[e])
    decreases |s| - i
  {
    if i < |s| && IsDigit(s[i]) then
      var e := RunEnd(s, i + 1);
      assert s[i..e] == [s[i]] + s[i + 1..e];
      e
    else i
  }

  /** A match starting at i always ends where the digit run from i ends. */
  lemma GroupEndIsRunEnd(s: string, tok: string, i: nat, e: nat)
    requires IsToken(tok) && GroupMatch(s, tok, i, e)
    ensures e == RunEnd(s, i)
  {
    var r := RunEnd(s, i);
    assert s[e] == s[e..e + |tok|][0];
  }

  lemma MatchEndsUnique(s: string, tok: string)
    requires IsToken(tok)
    ensures forall i: nat, e: nat :: GroupMatch(s, tok, i, e) ==> e == RunEnd(s, i)
  {
    forall i: nat, e: nat | GroupMatch(s, tok, i, e) ensures e == RunEnd(s, i) {
      GroupEndIsRunEnd(s, tok, i, e);
    }
  }

  /**
   * re.search(r'(\d+)' + tok, s) from start position `from`: the regex
   * engine tries each start position in turn and, at each, takes the
   * greedy digit run; the result is the span of the digit group.
   */
  function SearchFrom(s: string, tok: string, from: nat): (m: Option<(nat, nat)>)
    requires IsToken(tok)
    ensures m.Some? ==> from <= m.value.0 && GroupMatch(s, tok, m.value.0, m.value.1)
    ensures forall i: nat, e: nat :: from <= i && GroupMatch(s, tok, i, e) ==> m.Some? && m.value.0 <= i
    decreases |s| - from
  {
    MatchEndsUnique(s, tok);
    if from >= |s| then None
    else
      var e := RunEnd(s, from);
      if from < e && TokenAt(s, e, tok) then Some((from, e))
      else SearchFrom(s, tok, from + 1)
  }

  function Search(s: string, tok: string): Option<(nat, nat)>
    requires IsToken(tok)
  {
    SearchFrom(s, tok, 0)
  }

  /**
   * The leftmost match is the whole digit run in front of the first
   * occurrence of the token that follows a digit; there is no match
   * exactly when no occurrence of the token follows a digit.
   */
  lemma {:induction false} SearchFindsFirstAnchor(s: string, tok: string)
    requires IsToken(tok)
    ensures Search(s, tok).None? <==> forall j :: !AnchorAt(s, tok, j)
    ensures Search(s, tok).Some? ==>
              var (i, e) := Search(s, tok).value;
              && AnchorAt(s, tok, e)
              && (forall j :: 0 <= j < e ==> !AnchorAt(s, tok, j))
              && AllDigits(s[i..e])
              && (i == 0 || !IsDigit(s[i - 1]))
  {
    var m := Search(s, tok);
    forall j | AnchorAt(s, tok, j) ensures m.Some? && m.value.1 <= j {
      assert GroupMatch(s, tok, j - 1, j);
      if m.Some? {
        var (i, e) := m.value;
        assert s[j] == s[j..j + |tok|][0];
      }
    }
    if m.Some? {
      var (i, e) := m.value;
      assert s[e - 1] == s[i..e][e - 1 - i];
      assert AnchorAt(s, tok, e);
      if i > 0 && IsDigit(s[i - 1]) {
        assert s[i - 1..e] == [s[i - 1]] + s[i..e];
        assert GroupMatch(s, tok, i - 1, e);
        assert false;
      }
    }
  }

  /** The count a unit contributes: int() of its first match, or 0. */
  function Component(s: string, tok: string): nat
    requires IsToken(tok)
  {
    match Search(s, tok)
    case None => 0
    case Some((i, e)) => DigitsValue(s[i..e])
  }

  /** Text appended after a match of a unit never changes that unit's count. */
  lemma {:induction false} LaterOccurrenceIgnored(s: string, t: string, tok: string)
    requires IsToken(tok) && Search(s, tok).Some?
    ensures Search(s + t, tok) == Search(s, tok)
    ensures Component(s + t, tok) == Component(s, tok)
  {
    var (i, e) := Search(s, tok).value;
    var st := s + t;
    assert st[i..e] == s[i..e];
    assert st[e..e + |tok|] == s[e..e + |tok|];
    assert GroupMatch(st, tok, i, e);
    var (i', e') := Search(st, tok).value;
    assert s[e] == s[e..e + |tok|][0];
    // the digit run found in s + t stops at the token that ends the match in s
    assert forall k :: i' <= k < e' ==> IsDigit(st[k]) by {
      forall k | i' <= k < e' ensures IsDigit(st[k]) {
        assert st[k] == st[i'..e'][k - i'];
      }
    }
    assert !IsDigit(st[e]);
    assert e' <= e;
    assert st[i'..e'] == s[i'..e'];
    assert st[e'..e' + |tok|] == s[e'..e' + |tok|];
    assert GroupMatch(s, tok, i', e');
    GroupEndIsRunEnd(st, tok, i, e);
    GroupEndIsRunEnd(st, tok, i', e');
  }

  /** Hours from the four counts, unrounded. */
  function TotalHours(days: nat, hours: nat, minutes: nat, seconds: nat): real
  {
    days as real * 24.0 + hours as real + minutes as real / 60.0 + seconds as real / 3600.0
  }

  /** What convert_duration_to_hours returns for s. */
  function DurationHours(s: string): (r: real)
    ensures r >= 0.0
  {
    TotalHours(Component(s, DayToken), Component(s, HourToken),
               Component(s, MinuteToken), Component(s, SecondToken))
  }

  /** Scans the pattern table, keeping each unit's first match. */
  method ConvertDurationToHours(s: string) returns (total: real)
    ensures total == TotalHours(Component(s, DayToken), Component(s, HourToken),
                                Component(s, MinuteToken), Component(s, SecondToken))
    ensures total >= 0.0
  {
    var days, hours, minutes, seconds := 0, 0, 0, 0;
    var k := 0;
    while k < |Patterns|
      invariant 0 <= k <= |Patterns|
      invariant days == if k > 0 then Component(s, DayToken) else 0
      invariant hours == if k > 1 then Component(s, HourToken) else 0
      invariant minutes == if k > 2 then Component(s, MinuteToken) else 0
      invariant seconds == if k > 3 then Component(s, SecondToken) else 0
    {
      var (unit, pattern) := Patterns[k];
      var m := Search(s, pattern);
      if m.Some? {
        var value := DigitsValue(s[m.value.0..m.value.1]);
        if unit == Days {
          days := value;
        } else if unit == Hours {
          hours := value;
        } else if unit == Minutes {
          minutes := value;
        } else if unit == Seconds {
          seconds := value;
        }
      }
      k := k + 1;
    }
    total := TotalHours(days, hours, minutes, seconds);
  }

  /**
   * A text in which no unit token follows a digit, such as "", "abc",
   * "123" or "3 天", is zero hours.
   */
  lemma NoUnitCountIsZero(s: string)
    requires forall j :: !AnchorAt(s, DayToken, j) && !AnchorAt(s, HourToken, j)
                         && !AnchorAt(s, MinuteToken, j) && !AnchorAt(s, SecondToken, j)
    ensures DurationHours(s) == 0.0
  {
    SearchFindsFirstAnchor(s, DayToken);
    SearchFindsFirstAnchor(s, HourToken);
    SearchFindsFirstAnchor(s, MinuteToken);
    SearchFindsFirstAnchor(s, SecondToken);
  }

  /** No digit at all: no unit token can follow one. */
  lemma NoDigitsNoAnchor(s: string, tok: string)
    requires forall k :: 0 <= k < |s| ==> !IsDigit(s[k])
    ensures forall j :: !AnchorAt(s, tok, j)
  {
  }

  /** Texts without a `<digits><unit>` occurrence are zero hours. */
  lemma UnitlessTextsAreZero()
    ensures DurationHours("") == 0.0
    ensures DurationHours("abc") == 0.0
    ensures DurationHours("123") == 0.0
    ensures DurationHours("3 天") == 0.0
  {
    NoDigitsNoAnchor("", DayToken);
    NoDigitsNoAnchor("", HourToken);
    NoDigitsNoAnchor("", MinuteToken);
    NoDigitsNoAnchor("", SecondToken);
    NoUnitCountIsZero("");
    NoDigitsNoAnchor("abc", DayToken);
    NoDigitsNoAnchor("abc", HourToken);
    NoDigitsNoAnchor("abc", MinuteToken);
    NoDigitsNoAnchor("abc", SecondToken);
    NoUnitCountIsZero("abc");
    NoTokenNoAnchor("123", DayToken);
    NoTokenNoAnchor("123", HourToken);
    NoTokenNoAnchor("123", MinuteToken);
    NoTokenNoAnchor("123", SecondToken);
    NoUnitCountIsZero("123");
    var t := "3 天";
    forall j ensures !AnchorAt(t, DayToken, j) {
      if j == 1 {
        assert t[1..2] == " ";
      }
    }
    NoTokenNoAnchor(t, HourToken);
    NoTokenNoAnchor(t, MinuteToken);
    NoTokenNoAnchor(t, SecondToken);
    NoUnitCountIsZero(t);
  }

  /** A text whose characters never start the token has no anchor for it. */
  lemma NoTokenNoAnchor(s: string, tok: string)
    requires |tok| > 0 && tok[0] !in s
    ensures forall j :: !AnchorAt(s, tok, j)
  {
    forall j | 0 <= j && j + |tok| <= |s| ensures !TokenAt(s, j, tok) {
      assert s[j..j + |tok|][0] == s[j];
    }
  }

  /** "2天3小时" is 51 hours. */
  lemma TwoDaysThreeHours()
    ensures DurationHours("2天3小时") == 51.0
  {
    var s := "2天3小时";
    assert GroupMatch(s, DayToken, 0, 1);
    assert Search(s, DayToken) == Some((0, 1));
    assert s[0..1] == "2";
    assert GroupMatch(s, HourToken, 2, 3);
    assert s[2..3] == "3";
    NotContainsWithoutFirstChar(s, MinuteToken);
    NotContainsWithoutFirstChar(s, SecondToken);
  }

  /** Only the first day count of "1天2天" is used: 24 hours. */
  lemma RepeatedDayCountIgnored()
    ensures DurationHours("1天2天") == 24.0
  {
    var s := "1天";
    assert GroupMatch(s, DayToken, 0, 1);
    assert s[0..1] == "1";
    LaterOccurrenceIgnored(s, "2天", DayToken);
    assert s + "2天" == "1天2天";
    NotContainsWithoutFirstChar("1天2天", HourToken);
    NotContainsWithoutFirstChar("1天2天", MinuteToken);
    NotContainsWithoutFirstChar("1天2天", SecondToken);
  }
}
