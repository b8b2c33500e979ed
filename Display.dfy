// `displayScores`: the score line "Sets: x-y, Games: x-y, Current Game: ...".
module Display {
  import opened Tennis

  predicate IsDigit(c: char)
  {
    '0' <= c <= '9'
  }

  predicate AllDigits(s: string)
  {
    forall k :: 0 <= k < |s| ==> IsDigit(s[k])
  }

  function DigitChar(d: nat): (c: char)
    requires d < 10
    ensures IsDigit(c)
  {
    (48 + d) as char
  }

  function DigitValue(c: char): nat
    requires IsDigit(c)
  {
    c as nat - 48
  }

  /** The decimal numeral of `n`, as a template literal prints a non-negative
      integer: at least one digit and no leading zero. */
  function NatToString(n: nat): (s: string)
    ensures |s| >= 1 && AllDigits(s)
    ensures |s| > 1 ==> s[0] != '0'
  {
    if n < 10 then [DigitChar(n)] else NatToString(n / 10) + [DigitChar(n % 10)]
  }

  /** The value of a digit string, most significant digit first. */
  function ParseDigits(s: string): nat
    requires AllDigits(s)
  {
    if |s| == 0 then 0 else 10 * ParseDigits(s[..|s| - 1]) + DigitValue(s[|s| - 1])
  }

  /** Reading the numeral back gives the number. */
  lemma {:induction false} ParseNatToString(n: nat)
    ensures ParseDigits(NatToString(n)) == n
  {
    var s := NatToString(n);
    if n >= 10 {
      ParseNatToString(n / 10);
      assert s[..|s| - 1] == NatToString(n / 10);
      assert DigitValue(s[|s| - 1]) == n % 10;
    } else {
      assert s[..|s| - 1] == [];
    }
  }

  lemma NatToStringInjective(m: nat, n: nat)
    requires NatToString(m) == NatToString(n)
    ensures m == n
  {
    ParseNatToString(m);
    ParseNatToString(n);
  }

  const PointNames: seq<string> := ["0", "15", "30", "40"]

  /** The current-game part of the score line. Point names are used only while
      both players have fewer than three points, so "40" is never shown; from
      three points on the text is "Deuce" or an advantage, 3-0 included. */
  function GameScoreText(aPoints: nat, bPoints: nat): (r: string)
    ensures aPoints < 3 && bPoints < 3 ==> r == PointNames[aPoints] + "-" + PointNames[bPoints]
    ensures r == "Deuce" <==> aPoints == bPoints && aPoints >= 3
    ensures r == "Advantage Player A" <==> aPoints > bPoints && aPoints >= 3
    ensures r == "Advantage Player B" <==> bPoints > aPoints && bPoints >= 3
  {
    if aPoints < 3 && bPoints < 3 then
      var text := PointNames[aPoints] + "-" + PointNames[bPoints];
      assert text[|PointNames[aPoints]|] == '-';
      assert forall k :: 0 <= k < |text| ==> text[k] != 'e';
      text
    else if aPoints == bPoints then "Deuce"
    else if aPoints > bPoints then "Advantage Player A"
    else "Advantage Player B"
  }

  /** No game score text contains the digit 4. */
  lemma NoFortyShown(aPoints: nat, bPoints: nat)
    ensures forall k :: 0 <= k < |GameScoreText(aPoints, bPoints)| ==> GameScoreText(aPoints, bPoints)[k] != '4'
  {
    var r := GameScoreText(aPoints, bPoints);
    if aPoints < 3 && bPoints < 3 {
      var x, y := PointNames[aPoints], PointNames[bPoints];
      assert forall k :: 0 <= k < |x| ==> x[k] != '4';
      assert forall k :: 0 <= k < |y| ==> y[k] != '4';
      assert r == x + ("-" + y);
    }
  }

  /** The full score line: it opens with "Sets: " and closes with the
      current-game text. */
  function DisplayScores(s: Score): (r: string)
    ensures |r| >= 6 && r[..6] == "Sets: "
    ensures |GameScoreText(s.aPoints, s.bPoints)| <= |r|
            && r[|r| - |GameScoreText(s.aPoints, s.bPoints)|..] == GameScoreText(s.aPoints, s.bPoints)
  {
    ScoreLine(NatToString(s.aSets), NatToString(s.bSets), NatToString(s.aGames), NatToString(s.bGames),
              GameScoreText(s.aPoints, s.bPoints))
  }

  /** The score line pattern, filled with its five parts: it opens with
      "Sets: " and closes with the last part, whatever strings fill it. */
  function ScoreLine(aSets: string, bSets: string, aGames: string, bGames: string, g: string): (r: string)
    ensures |r| >= 6 && r[..6] == "Sets: " && |g| <= |r| && r[|r| - |g|..] == g
  {
    var head := "Sets: " + (aSets + ("-" + (bSets + (", Games: " + (aGames + ("-" + (bGames + ", Current Game: ")))))));
    var r := "Sets: " + (aSets + ("-" + (bSets + (", Games: " + (aGames + ("-" + (bGames
             + (", Current Game: " + g))))))));
    assert r == head + g;
    assert (head + g)[|head|..] == g;
    r
  }

  /** A digit string followed by text starting with a non-digit splits in one
      way only. */
  lemma SplitAtNonDigit(x1: string, r1: string, x2: string, r2: string)
    requires AllDigits(x1) && AllDigits(x2)
    requires |r1| > 0 && |r2| > 0 && !IsDigit(r1[0]) && !IsDigit(r2[0])
    requires x1 + r1 == x2 + r2
    ensures x1 == x2 && r1 == r2
  {
    var t := x1 + r1;
    assert x1 == t[..|x1|] && x2 == t[..|x2|];
    assert r1 == t[|x1|..] && r2 == t[|x2|..];
  }

  /** One numeral and the text after it: equal lines give equal numbers and
      equal remainders. */
  lemma NumberThenText(m: nat, r1: string, n: nat, r2: string)
    requires |r1| > 0 && |r2| > 0 && !IsDigit(r1[0]) && !IsDigit(r2[0])
    requires NatToString(m) + r1 == NatToString(n) + r2
    ensures m == n && r1 == r2
  {
    SplitAtNonDigit(NatToString(m), r1, NatToString(n), r2);
    NatToStringInjective(m, n);
  }

  lemma DropPrefix(p: string, r1: string, r2: string)
    requires p + r1 == p + r2
    ensures r1 == r2
  {
    assert r1 == (p + r1)[|p|..];
    assert r2 == (p + r2)[|p|..];
  }

  /** The score line determines the sets, the games and the current-game
      text. */
  lemma DisplayDeterminesScore(s1: Score, s2: Score)
    requires DisplayScores(s1) == DisplayScores(s2)
    ensures s1.aSets == s2.aSets && s1.bSets == s2.bSets
    ensures s1.aGames == s2.aGames && s1.bGames == s2.bGames
    ensures GameScoreText(s1.aPoints, s1.bPoints) == GameScoreText(s2.aPoints, s2.bPoints)
  {
    var g1, g2 := GameScoreText(s1.aPoints, s1.bPoints), GameScoreText(s2.aPoints, s2.bPoints);
    var t1 := ", Current Game: " + g1;
    var t2 := ", Current Game: " + g2;
    var u1 := "-" + (NatToString(s1.bGames) + t1);
    var u2 := "-" + (NatToString(s2.bGames) + t2);
    var v1 := ", Games: " + (NatToString(s1.aGames) + u1);
    var v2 := ", Games: " + (NatToString(s2.aGames) + u2);
    var w1 := "-" + (NatToString(s1.bSets) + v1);
    var w2 := "-" + (NatToString(s2.bSets) + v2);
    DropPrefix("Sets: ", NatToString(s1.aSets) + w1, NatToString(s2.aSets) + w2);
    NumberThenText(s1.aSets, w1, s2.aSets, w2);
    DropPrefix("-", NatToString(s1.bSets) + v1, NatToString(s2.bSets) + v2);
    NumberThenText(s1.bSets, v1, s2.bSets, v2);
    DropPrefix(", Games: ", NatToString(s1.aGames) + u1, NatToString(s2.aGames) + u2);
    NumberThenText(s1.aGames, u1, s2.aGames, u2);
    DropPrefix("-", NatToString(s1.bGames) + t1, NatToString(s2.bGames) + t2);
    NumberThenText(s1.bGames, t1, s2.bGames, t2);
    DropPrefix(", Current Game: ", g1, g2);
  }
}
