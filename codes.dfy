/**
 * The closed code tables of the report page: shot-result codes, the
 * shot-type label table, and the classification of a shot type into one
 * of three ranges (three-pointer, mid-range jumper, paint).
 */
module ShotCodes {

  /** Result codes counted as made: scored, goaltend, scored + foul. */
  predicate IsMadeResult(rc: int) {
    rc == 1 || rc == 2 || rc == 5
  }

  /** Result codes listed as missed: missed, missed + foul. */
  predicate IsMissedResult(rc: int) {
    rc == 0 || rc == 4
  }

  /** The one result code listed as blocked. */
  predicate IsBlockedResult(rc: int) {
    rc == 3
  }

  /** Human-readable label of each known shot-type code. */
  const ShotTypeLabels: map<int, string> := map[
    100 := "3PT Default",
    101 := "3PT Top Key",
    102 := "3PT Wing",
    103 := "3PT Corner",
    104 := "3PT Long",
    105 := "3PT Halfcourt",
    200 := "2PT Default",
    201 := "2PT Elbow",
    202 := "2PT Wing",
    203 := "2PT Baseline",
    204 := "2PT Top Key",
    401 := "Dunk",
    402 := "Layup",
    403 := "Post Move",
    404 := "Fade Away",
    405 := "Hook",
    406 := "Off Dribble J",
    407 := "Putback Dunk",
    408 := "Tip-in",
    409 := "Rebound Shot",
    410 := "Dunk",
    411 := "Driving Layup"
  ]

  /** The three shot ranges of the range charts. */
  datatype Range = Three | Jump | Paint

  /** Substring search, as the page's `includes`. */
  function Contains(s: string, t: string): bool
    decreases |s|
  {
    if |t| > |s| then false
    else s[..|t|] == t || (|s| > 0 && Contains(s[1..], t))
  }

  /** Decimal digits of a natural number. */
  function Digits(n: nat): string
    decreases n
  {
    if n < 10 then [DigitChar(n)] else Digits(n / 10) + [DigitChar(n % 10)]
  }

  function DigitChar(d: nat): char
    requires d < 10
  {
    "0123456789"[d]
  }

  /** The decimal text of an integer, as `String(code)` renders it. */
  function IntToString(n: int): string {
    if n < 0 then "-" + Digits(-n) else Digits(n)
  }

  /**
   * The text of a shot type: its entry in the label table, or else the
   * code's own decimal text, which holds no letter 'P' and so never reads
   * as a three- or two-pointer.
   */
  function ShotLabel(code: int): (text: string)
    ensures code in ShotTypeLabels ==> text == ShotTypeLabels[code]
    ensures code !in ShotTypeLabels ==> 'P' !in text && |text| > 0
  {
    if code in ShotTypeLabels then ShotTypeLabels[code]
    else
      FallbackTextHasNoP(code);
      IntToString(code)
  }

  /**
   * getShotRange: the range of a shot type, read off its label. The 3PT
   * codes 100..105 are three-pointers, the 2PT codes 200..204 are jump
   * shots, and every other code, known or unknown, is a paint shot.
   */
  function ShotRange(code: int): (r: Range)
    ensures r == Three <==> 100 <= code <= 105
    ensures r == Jump <==> 200 <= code <= 204
    ensures r == Paint <==> !(100 <= code <= 105 || 200 <= code <= 204)
  {
    LabelClassification(code);
    var text := ShotLabel(code);
    if Contains(text, "3PT") then Three
    else if Contains(text, "2PT") then Jump
    else Paint
  }

  /** rangeLabel: the display name of a range. */
  function RangeLabel(r: Range): (text: string)
    ensures text == "Three" <==> r == Three
    ensures text == "Jump" <==> r == Jump
    ensures text == "Paint" <==> r == Paint
  {
    match r
    case Three => "Three"
    case Jump => "Jump"
    case Paint => "Paint"
  }

  lemma {:induction false} NoCharNoContains(s: string, t: string, c: char)
    requires c in t && c !in s
    ensures !Contains(s, t)
    decreases |s|
  {
    var i :| 0 <= i < |t| && t[i] == c;
    if |t| <= |s| {
      assert s[..|t|][i] != t[i];
      if |s| > 0 {
        assert forall k :: 0 <= k < |s| - 1 ==> s[1..][k] == s[k + 1];
        NoCharNoContains(s[1..], t, c);
      }
    }
  }

  lemma PrefixContains(t: string, rest: string)
    ensures Contains(t + rest, t)
  {
  }

  lemma {:induction false} DigitsAreDigits(n: nat)
    ensures forall k :: 0 <= k < |Digits(n)| ==> '0' <= Digits(n)[k] <= '9'
    decreases n
  {
    if n >= 10 {
      DigitsAreDigits(n / 10);
    }
  }

  /** The fallback text of an unknown code is all digits and sign: no 'P'. */
  lemma FallbackTextHasNoP(n: int)
    ensures 'P' !in IntToString(n)
  {
    DigitsAreDigits(if n < 0 then -n else n);
  }

  lemma ThreePointLabels(code: int)
    requires 100 <= code <= 105
    ensures Contains(ShotLabel(code), "3PT")
  {
    var text := ShotTypeLabels[code];
    assert "3PT" + text[3..] == text;
    PrefixContains("3PT", text[3..]);
  }

  lemma TwoPointLabels(code: int)
    requires 200 <= code <= 204
    ensures !Contains(ShotLabel(code), "3PT") && Contains(ShotLabel(code), "2PT")
  {
    var text := ShotTypeLabels[code];
    NoCharNoContains(text, "3PT", '3');
    assert "2PT" + text[3..] == text;
    PrefixContains("2PT", text[3..]);
  }

  lemma OtherLabels(code: int)
    requires code in ShotTypeLabels && !(100 <= code <= 105 || 200 <= code <= 204)
    ensures !Contains(ShotLabel(code), "3PT") && !Contains(ShotLabel(code), "2PT")
  {
    var text := ShotTypeLabels[code];
    assert '3' !in text && '2' !in text;
    NoCharNoContains(text, "3PT", '3');
    NoCharNoContains(text, "2PT", '2');
  }

  lemma UnknownCodes(code: int)
    requires code !in ShotTypeLabels
    ensures !Contains(ShotLabel(code), "3PT") && !Contains(ShotLabel(code), "2PT")
  {
    NoCharNoContains(ShotLabel(code), "3PT", 'P');
    NoCharNoContains(ShotLabel(code), "2PT", 'P');
  }

  /**
   * Which labels carry the markers: "3PT" exactly the labels of codes
   * 100..105, and, of the others, "2PT" exactly those of codes 200..204.
   */
  lemma LabelClassification(code: int)
    ensures Contains(ShotLabel(code), "3PT") <==> 100 <= code <= 105
    ensures !Contains(ShotLabel(code), "3PT") ==> (Contains(ShotLabel(code), "2PT") <==> 200 <= code <= 204)
  {
    if 100 <= code <= 105 {
      ThreePointLabels(code);
    } else if 200 <= code <= 204 {
      TwoPointLabels(code);
    } else if code in ShotTypeLabels {
      OtherLabels(code);
    } else {
      UnknownCodes(code);
    }
  }
}
