/**
 * src/utils/quizHelpers.ts: the question lookup with its short/long
 * truncation, and the per-stat scoring rule.
 */
module QuizHelpers {
  import opened Wrappers
  import opened QuestionData

  /** The quiz length chosen by the player; `Unset` is the initial null. */
  datatype QuizVersion = Short | Long | Unset

  /**
   * getQuestions: the registered set for `stat`, with part 2 cut to its
   * first half (rounded down) in short mode; an unknown stat is an error.
   */
  function GetQuestions(stat: string, version: QuizVersion): (r: Result<QuestionSet, string>)
    ensures r.Success? <==> stat in Registry
    ensures r.Success? ==> r.value.part1 == Registry[stat].part1
    ensures r.Success? && version == Short ==>
      |r.value.part2| == |Registry[stat].part2| / 2 && r.value.part2 <= Registry[stat].part2
    ensures r.Success? && version != Short ==> r.value == Registry[stat]
  {
    if stat !in Registry then
      Failure("No questions found for stat: " + stat)
    else
      var full := Registry[stat];
      if version == Short then
        Success(QuestionSet(full.part1, full.part2[..|full.part2| / 2]))
      else
        Success(full)
  }

  /** The same question set in both lengths: the short part 2 is a prefix of the long one. */
  lemma ShortIsPrefixOfLong(stat: string)
    requires stat in Registry
    ensures GetQuestions(stat, Short).value.part1 == GetQuestions(stat, Long).value.part1
    ensures GetQuestions(stat, Short).value.part2 <= GetQuestions(stat, Long).value.part2
    ensures 2 * |GetQuestions(stat, Short).value.part2| <= |GetQuestions(stat, Long).value.part2|
  {
  }

  /** `xs.reduce((sum, val) => sum + val, 0)`, a left fold. */
  function Sum(xs: seq<int>): int
  {
    if |xs| == 0 then 0 else Sum(xs[..|xs| - 1]) + xs[|xs| - 1]
  }

  /** The per-stat answer record: the values of the chosen options of each part. */
  datatype Answers = Answers(part1: seq<int>, part2: seq<int>)

  const NoAnswers: Answers := Answers([], [])

  /** The stats scored by the larger part, and those scored by the average. */
  const MaxScored: set<string> := {"strength", "constitution"}
  const AverageScored: set<string> := {"intelligence", "wisdom"}

  /** `Math.max(8, Math.min(18, s))`. */
  function Clamp8To18(s: int): (r: int)
    ensures 8 <= r <= 18
    ensures 8 <= s <= 18 ==> r == s
    ensures s < 8 ==> r == 8
    ensures s > 18 ==> r == 18
  {
    if s < 8 then 8 else if s > 18 then 18 else s
  }

  /**
   * calculateStatScore.  `Math.round(s / 2)` on an integer `s` rounds halves
   * up, which is `(s + 1) / 2` in floor division.
   */
  function CalculateStatScore(stat: string, answers: Answers): (r: int)
    ensures stat in MaxScored ==>
      r >= Sum(answers.part1) && r >= Sum(answers.part2) &&
      (r == Sum(answers.part1) || r == Sum(answers.part2))
    ensures stat in AverageScored ==>
      var s := Sum(answers.part1) + Sum(answers.part2);
      s <= 2 * r <= s + 1
    ensures stat !in MaxScored && stat !in AverageScored ==>
      8 <= r <= 18 && r == Clamp8To18(Sum(answers.part1) + Sum(answers.part2))
  {
    var part1Score := Sum(answers.part1);
    var part2Score := Sum(answers.part2);
    if stat in MaxScored then
      if part1Score >= part2Score then part1Score else part2Score
    else if stat in AverageScored then
      (part1Score + part2Score + 1) / 2
    else
      Clamp8To18(part1Score + part2Score)
  }

  /** Sum distributes over concatenation. */
  lemma {:induction false} SumConcat(xs: seq<int>, ys: seq<int>)
    ensures Sum(xs + ys) == Sum(xs) + Sum(ys)
  {
    if |ys| == 0 {
      assert xs + ys == xs;
    } else {
      var ys' := ys[..|ys| - 1];
      assert (xs + ys)[..|xs + ys| - 1] == xs + ys';
      SumConcat(xs, ys');
    }
  }

  /** The rounding of the average scorer agrees with the halves-up rule for every sum. */
  lemma AverageRoundsHalfUp(stat: string, answers: Answers)
    requires stat in AverageScored
    ensures var s := Sum(answers.part1) + Sum(answers.part2);
      (s % 2 == 0 ==> CalculateStatScore(stat, answers) * 2 == s) &&
      (s % 2 == 1 ==> CalculateStatScore(stat, answers) * 2 == s + 1)
  {
  }

  /** Swapping the two parts does not change any score: every rule is symmetric in the parts. */
  lemma ScoreSymmetricInParts(stat: string, p1: seq<int>, p2: seq<int>)
    ensures CalculateStatScore(stat, Answers(p1, p2)) == CalculateStatScore(stat, Answers(p2, p1))
  {
  }

  /** A sum of non-negative values is non-negative. */
  lemma {:induction false} SumNonNegative(xs: seq<int>)
    requires forall i :: 0 <= i < |xs| ==> xs[i] >= 0
    ensures Sum(xs) >= 0
  {
    if |xs| > 0 {
      SumNonNegative(xs[..|xs| - 1]);
    }
  }

  /** Sum is monotone in every element. */
  lemma {:induction false} SumMonotone(xs: seq<int>, ys: seq<int>)
    requires |xs| == |ys|
    requires forall i :: 0 <= i < |xs| ==> xs[i] <= ys[i]
    ensures Sum(xs) <= Sum(ys)
  {
    if |xs| > 0 {
      SumMonotone(xs[..|xs| - 1], ys[..|ys| - 1]);
    }
  }
}
