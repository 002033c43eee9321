/** pkg/segmentation: the execution segments that split one k6 test among the runners. */
module Segmentation {
  import opened Text

  const SEGMENT_FLAG := "--execution-segment="
  const SEQUENCE_FLAG := "--execution-segment-sequence="

  /** The closure getSegmentPart: the text of the point index/total. */
  function SegmentPart(index: int, total: int): (part: string)
    ensures forall c | c in part :: IsDigit(c) || c == '-' || c == '/'
  {
    if index == 0 then "0"
    else if index == total then "1"
    else Integer(index) + "/" + Integer(total)
  }

  /** The points 1/total .. k/total. */
  function Inner(k: nat, total: int): (parts: seq<string>) {
    seq(k, i => Integer(i + 1) + "/" + Integer(total))
  }

  function Parts(total: int): (parts: seq<string>) {
    ["0"] + Inner(if total < 1 then 0 else total - 1, total) + ["1"]
  }

  lemma InnerMore(k: nat, total: int)
    ensures Inner(k + 1, total) == Inner(k, total) + [Integer(k + 1) + "/" + Integer(total)]
  {
    hide Integer;
  }

  /** The two command fragments of one runner; None when the index exceeds the parallelism. */
  function CommandFragments(index: int, total: int): Option<seq<string>> {
    if index > total then None
    else Some([SEGMENT_FLAG + SegmentPart(index - 1, total) + ":" + SegmentPart(index, total),
               SEQUENCE_FLAG + Join(Parts(total), ",")])
  }

  method NewCommandFragments(index: int, total: int) returns (fragments: Option<seq<string>>)
    ensures fragments == CommandFragments(index, total)
  {
    if index > total {
      return None;
    }
    assert ["0"] + Inner(0, total) == ["0"];
    hide Inner, Integer, SegmentPart, Join;
    var parts := ["0"];
    var i := 1;
    while i < total
      invariant 1 <= i <= if total < 1 then 1 else total
      invariant parts == ["0"] + Inner(i - 1, total)
    {
      InnerMore(i - 1, total);
      parts := parts + [Integer(i) + "/" + Integer(total)];
      i := i + 1;
    }
    parts := parts + ["1"];
    var segment := SegmentPart(index - 1, total) + ":" + SegmentPart(index, total);
    var sequence := Join(parts, ",");
    assert SEGMENT_FLAG + segment == SEGMENT_FLAG + SegmentPart(index - 1, total) + ":" + SegmentPart(index, total);
    return Some([SEGMENT_FLAG + segment, SEQUENCE_FLAG + sequence]);
  }

  // Reading the fragments back, as k6 does: a fraction is n or n/d.

  function ReadFraction(text: string): Option<real> {
    var parts := Split(text, '/');
    if |parts| > 2 then None
    else match ParseDecimal(parts[0])
      case None => None
      case Some(n) =>
        if |parts| == 1 then Some(n as real)
        else match ParseDecimal(parts[1])
          case None => None
          case Some(d) => if d == 0 then None else Some(n as real / d as real)
  }

  function ReadFractions(texts: seq<string>): Option<seq<real>> {
    if forall t | t in texts :: ReadFraction(t).Some? then
      Some(seq(|texts|, i requires 0 <= i < |texts| => ReadFraction(texts[i]).value))
    else None
  }

  /** The fraction texts between the separators of a flag's value. */
  function FlagTexts(arg: string, flag: string, sep: char): Option<seq<string>> {
    if HasPrefix(arg, flag) then Some(Split(arg[|flag|..], sep)) else None
  }

  function Point(i: int, total: int): real
    requires total >= 1
  {
    i as real / total as real
  }

  lemma FractionText(n: nat, d: nat)
    requires d >= 1
    ensures ReadFraction(Integer(n) + "/" + Integer(d)) == Some(n as real / d as real)
  {
    ParseOfDecimal(n);
    ParseOfDecimal(d);
    var parts := [Integer(n), Integer(d)];
    assert Join(parts, "/") == Integer(n) + "/" + Integer(d) by {
      assert parts[1..] == [Integer(d)];
    }
    SplitOfJoin(parts, '/');
  }

  function Points(total: nat): seq<real>
    requires total >= 1
  {
    seq(total + 1, i requires 0 <= i < total + 1 => Point(i, total))
  }

  lemma FlagTextsOf(flag: string, value: string, sep: char)
    ensures FlagTexts(flag + value, flag, sep) == Some(Split(value, sep))
  {
    assert (flag + value)[..|flag|] == flag;
    assert (flag + value)[|flag|..] == value;
  }

  lemma PartsAt(i: nat, total: nat)
    requires i <= total && total >= 1
    ensures |Parts(total)| == total + 1 && Parts(total)[i] == SegmentPart(i, total)
  {
  }

  /** Every endpoint text reads back as the exact fraction index/total. */
  lemma PartReadsBack(i: nat, total: nat)
    requires i <= total && total >= 1
    ensures ReadFraction(SegmentPart(i, total)) == Some(Point(i, total))
  {
    if i == 0 {
      WholeReadsBack(0);
    } else if i == total {
      WholeReadsBack(1);
      OverItself(total as real);
    } else {
      FractionText(i, total);
    }
  }

  lemma OverItself(n: real)
    requires n > 0.0
    ensures n / n == 1.0
  {
  }

  lemma WholeReadsBack(n: nat)
    requires n < 10
    ensures ReadFraction([DigitOf(n)]) == Some(n as real)
  {
    ParseOfDecimal(n);
    SplitOfJoin([Decimal(n)], '/');
  }

  /** The segment text of runner `index` splits into exactly its two endpoint texts. */
  lemma SegmentTexts(index: nat, total: nat)
    requires 1 <= index <= total
    ensures FlagTexts(CommandFragments(index, total).value[0], "--execution-segment=", ':')
            == Some([SegmentPart(index - 1, total), SegmentPart(index, total)])
  {
    var a, b := SegmentPart(index - 1, total), SegmentPart(index, total);
    assert Join([a, b], ":") == a + ":" + b by { assert [a, b][1..] == [b]; }
    assert SEGMENT_FLAG + a + ":" + b == SEGMENT_FLAG + (a + ":" + b);
    FlagTextsOf(SEGMENT_FLAG, a + ":" + b, ':');
    SplitOfJoin([a, b], ':');
  }

  lemma SegmentReadsBack(index: nat, total: nat)
    requires 1 <= index <= total
    ensures var texts := FlagTexts(CommandFragments(index, total).value[0], "--execution-segment=", ':');
            texts.Some? && ReadFractions(texts.value) == Some([Point(index - 1, total), Point(index, total)])
  {
    SegmentTexts(index, total);
    PartReadsBack(index - 1, total);
    PartReadsBack(index, total);
    ReadTwo(SegmentPart(index - 1, total), SegmentPart(index, total), Point(index - 1, total), Point(index, total));
  }

  lemma ReadTwo(a: string, b: string, x: real, y: real)
    requires ReadFraction(a) == Some(x) && ReadFraction(b) == Some(y)
    ensures ReadFractions([a, b]) == Some([x, y])
  {
    assert ReadFractions([a, b]).value == [x, y];
  }

  lemma PointsReadBack(total: nat)
    requires total >= 1
    ensures |Parts(total)| == total + 1
    ensures ReadFractions(Parts(total)) == Some(Points(total))
  {
    PartsAt(0, total);
    forall i | 0 <= i <= total ensures ReadFraction(Parts(total)[i]) == Some(Point(i, total)) {
      PartsAt(i, total);
      PartReadsBack(i, total);
    }
    assert forall t | t in Parts(total) :: ReadFraction(t).Some?;
    assert ReadFractions(Parts(total)).value == Points(total);
  }

  lemma PartsHoldNoComma(total: nat)
    requires total >= 1
    ensures forall p | p in Parts(total) :: ',' !in p
  {
    forall p | p in Parts(total) ensures ',' !in p {
      var k :| 0 <= k < |Parts(total)| && Parts(total)[k] == p;
      PartsAt(k, total);
    }
  }

  /**
   * The sequence text is the same for every runner and reads back as total+1 points in which the endpoints
   * of each runner's segment are consecutive, with the very same text.
   */
  lemma SequenceReadsBack(index: nat, total: nat)
    requires 1 <= index <= total
    ensures var texts := FlagTexts(CommandFragments(index, total).value[1], "--execution-segment-sequence=", ',');
            texts.Some? && |texts.value| == total + 1
            && ReadFractions(texts.value) == Some(Points(total))
            && FlagTexts(CommandFragments(index, total).value[0], "--execution-segment=", ':')
               == Some(texts.value[index - 1..index + 1])
  {
    hide Split, Join, ReadFractions, Points, SegmentPart, ReadFraction, Integer;
    FlagTextsOf(SEQUENCE_FLAG, Join(Parts(total), ","), ',');
    PartsHoldNoComma(total);
    SplitOfJoin(Parts(total), ',');
    PointsReadBack(total);
    SegmentTexts(index, total);
    PartsAt(index - 1, total);
    PartsAt(index, total);
    assert Parts(total)[index - 1..index + 1] == [SegmentPart(index - 1, total), SegmentPart(index, total)];
  }

  /** The points rise strictly, start at 0 and end at 1, and every segment is exactly 1/total long. */
  lemma PointsTile(i: nat, j: nat, total: nat)
    requires 0 <= i < j <= total
    ensures Point(0, total) == 0.0 && Point(total, total) == 1.0
    ensures Point(i, total) < Point(j, total)
    ensures j == i + 1 ==> Point(j, total) - Point(i, total) == 1.0 / total as real
  {
    var n := total as real;
    OverItself(n);
    QuotientsRise(i as real, j as real, n);
    if j == i + 1 {
      OneStep(i as real, n);
    }
  }

  lemma OneStep(a: real, n: real)
    requires n > 0.0
    ensures (a + 1.0) / n - a / n == 1.0 / n
  {
  }

  lemma QuotientsRise(a: real, b: real, n: real)
    requires n > 0.0 && a < b
    ensures a / n < b / n
  {
    ScaleKeepsOrder(a / n, b / n, n);
  }

  lemma PointScaled(i: int, total: nat)
    requires total >= 1
    ensures Point(i, total) * total as real == i as real
  {
  }

  lemma ScaleKeepsOrder(x: real, y: real, n: real)
    requires n > 0.0
    ensures x < y <==> x * n < y * n
  {
  }

  lemma BetweenScaled(x: real, p: real, q: real, n: real)
    requires n > 0.0
    ensures p <= x < q <==> p * n <= x * n < q * n
  {
    ScaleKeepsOrder(x, p, n);
    ScaleKeepsOrder(x, q, n);
  }

  lemma ScaledBetween(x: real, p: real, q: real, n: real, lo: real, hi: real)
    requires n > 0.0 && p * n == lo && q * n == hi
    ensures p <= x < q <==> lo <= x * n < hi
  {
    BetweenScaled(x, p, q, n);
  }

  ghost predicate InSegment(x: real, index: int, total: nat)
    requires total >= 1
  {
    Point(index - 1, total) <= x < Point(index, total)
  }

  lemma InSegmentScaled(x: real, index: int, total: nat)
    requires total >= 1
    ensures InSegment(x, index, total) <==> (index - 1) as real <= x * total as real < index as real
  {
    PointScaled(index - 1, total);
    PointScaled(index, total);
    hide Point;
    ScaledBetween(x, Point(index - 1, total), Point(index, total), total as real, (index - 1) as real, index as real);
  }

  /** No part of the test is run twice and none is left out: each point is in exactly one runner's segment. */
  lemma SegmentsPartition(x: real, total: nat)
    requires total >= 1 && 0.0 <= x < 1.0
    ensures exists index :: 1 <= index <= total && InSegment(x, index, total)
    ensures forall i, j | InSegment(x, i, total) && InSegment(x, j, total) :: i == j
  {
    var n := total as real;
    var index := (x * n).Floor + 1;
    assert 0.0 <= x * n < n;
    InSegmentScaled(x, index, total);
    forall i, j | InSegment(x, i, total) && InSegment(x, j, total) ensures i == j {
      InSegmentScaled(x, i, total);
      InSegmentScaled(x, j, total);
    }
  }
}
