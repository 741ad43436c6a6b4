/** Letter grades and evaluation bands derived from an overall interview
    score (src/screens/MockInterview/index.tsx, `getGradeFromScore` and the
    score bands of `generateOverallEvaluation`). */
module Grading {

  datatype Grade = APlus | A | BPlus | B | CPlus | C | D {

    /** The text the screen shows for the grade. */
    function Label(): string {
      match this
      case APlus => "A+"
      case A => "A"
      case BPlus => "B+"
      case B => "B"
      case CPlus => "C+"
      case C => "C"
      case D => "D"
    }

    /** Position in the ranking: 0 is the best grade, 6 the worst. */
    function Rank(): nat {
      match this
      case APlus => 0
      case A => 1
      case BPlus => 2
      case B => 3
      case CPlus => 4
      case C => 5
      case D => 6
    }
  }

  /** The grade thresholds as a table of inclusive lower bounds, best first;
      a score below every bound earns a D. */
  const GradeThresholds: seq<(int, Grade)> :=
    [(95, APlus), (90, A), (85, BPlus), (80, B), (75, CPlus), (70, C)]

  /** Reference reading of a threshold table: the grade of the first entry
      whose bound the score reaches. */
  function GradeByTable(score: int, table: seq<(int, Grade)>): Grade {
    if |table| == 0 then D
    else if score >= table[0].0 then table[0].1
    else GradeByTable(score, table[1..])
  }

  /** `getGradeFromScore`: the chain of `if (score >= …) return …` tests. */
  function GradeOf(score: int): (g: Grade)
    ensures g == D <==> score < 70
    ensures g.Rank() <= 1 <==> score >= 90
    ensures g.Rank() <= 3 <==> score >= 80
    ensures g.Rank() <= 5 <==> score >= 70
  {
    if score >= 95 then APlus
    else if score >= 90 then A
    else if score >= 85 then BPlus
    else if score >= 80 then B
    else if score >= 75 then CPlus
    else if score >= 70 then C
    else D
  }

  /** The if-chain and the threshold table agree on every score. */
  lemma {:induction false} GradeOfMatchesTable(score: int)
    ensures GradeOf(score) == GradeByTable(score, GradeThresholds)
  {
    var t0 := GradeThresholds;
    var t1, t2, t3 := t0[1..], t0[2..], t0[3..];
    var t4, t5, t6 := t0[4..], t0[5..], t0[6..];
    assert t1[1..] == t2 && t2[1..] == t3 && t3[1..] == t4;
    assert t4[1..] == t5 && t5[1..] == t6 && t6 == [];
    assert GradeByTable(score, t5) == (if score >= 70 then C else D);
    assert GradeByTable(score, t4) == (if score >= 75 then CPlus else GradeByTable(score, t5));
    assert GradeByTable(score, t3) == (if score >= 80 then B else GradeByTable(score, t4));
    assert GradeByTable(score, t2) == (if score >= 85 then BPlus else GradeByTable(score, t3));
    assert GradeByTable(score, t1) == (if score >= 90 then A else GradeByTable(score, t2));
  }

  /** A lower score never earns a better grade. */
  lemma GradeMonotone(lower: int, higher: int)
    requires lower <= higher
    ensures GradeOf(higher).Rank() <= GradeOf(lower).Rank()
  {
  }

  /** The boundary scores map exactly as documented. */
  lemma GradeBoundaries()
    ensures GradeOf(95) == APlus && GradeOf(94) == A && GradeOf(90) == A
    ensures GradeOf(89) == BPlus && GradeOf(85) == BPlus && GradeOf(80) == B
    ensures GradeOf(75) == CPlus && GradeOf(70) == C && GradeOf(69) == D
  {
  }

  /** Different grades are shown with different labels. */
  lemma LabelInjective(g: Grade, h: Grade)
    requires g.Label() == h.Label()
    ensures g == h
  {
  }

  /** The four coarse bands of `generateOverallEvaluation`. */
  datatype Band = Excellent | Good | Fair | Poor

  function BandOf(score: int): (b: Band)
    ensures b == Excellent <==> score >= 90
    ensures b == Good <==> 80 <= score < 90
    ensures b == Fair <==> 70 <= score < 80
    ensures b == Poor <==> score < 70
  {
    if score >= 90 then Excellent
    else if score >= 80 then Good
    else if score >= 70 then Fair
    else Poor
  }

  const ExcellentText: string :=
    "매우 우수한 면접 성과를 보였습니다. 자신감 있는 태도와 명확한 의사소통이 인상적입니다."
  const GoodText: string :=
    "전반적으로 양호한 면접 성과를 보였습니다. 몇 가지 개선점을 보완하면 더 좋은 결과를 기대할 수 있습니다."
  const FairText: string :=
    "기본적인 면접 역량을 갖추고 있으나, 추가적인 준비와 연습이 필요합니다."
  const PoorText: string :=
    "면접 기본기를 더 연습하시고 체계적인 준비가 필요합니다."

  /** The fixed narrative of each band. */
  function EvaluationText(b: Band): (t: string)
    ensures t in {ExcellentText, GoodText, FairText, PoorText}
  {
    match b
    case Excellent => ExcellentText
    case Good => GoodText
    case Fair => FairText
    case Poor => PoorText
  }

  /** The narrative identifies its band: no two bands share a text. */
  lemma EvaluationTextInjective(b: Band, c: Band)
    requires EvaluationText(b) == EvaluationText(c)
    ensures b == c
  {
  }

  /** The bands are the grades merged in pairs: A+/A, B+/B, C+/C and D. */
  lemma BandAgreesWithGrade(score: int)
    ensures BandOf(score) == Excellent <==> GradeOf(score) in {APlus, A}
    ensures BandOf(score) == Good <==> GradeOf(score) in {BPlus, B}
    ensures BandOf(score) == Fair <==> GradeOf(score) in {CPlus, C}
    ensures BandOf(score) == Poor <==> GradeOf(score) == D
  {
  }
}
