/**
 * src/utils/calculateStats.ts: the older strength scorer.  Part 2 starts at
 * a base of 8 and adds the value of every question answered yes; the score
 * is the larger of that and the part-1 value.  The file reads the strength
 * question table (src/data/questions/strength.ts); a yes-answer past the end
 * of that table reads `undefined.value` and throws, which is `None` here.
 */
module CalculateStats {
  import opened Wrappers
  import opened CharacterTypes
  import QuestionData
  import QuizHelpers

  const Values: seq<int> := QuestionData.StrengthPart2Values

  /** The seed of the part-2 fold. */
  const Base: int := 8

  /** Every yes-answer has a question to take its value from. */
  predicate Indexable(answers: seq<bool>)
  {
    forall i :: 0 <= i < |answers| && answers[i] ==> i < |Values|
  }

  /** What answer `i` adds: its question's value for yes, nothing for no. */
  function Contribution(answers: seq<bool>, i: nat): int
    requires i < |answers|
  {
    if answers[i] && i < |Values| then Values[i] else 0
  }

  /** The independent reference: the contribution of each answer, position by position. */
  function Contributions(answers: seq<bool>): (cs: seq<int>)
    ensures |cs| == |answers|
    ensures forall i :: 0 <= i < |answers| ==> cs[i] == Contribution(answers, i)
  {
    seq(|answers|, i requires 0 <= i < |answers| => Contribution(answers, i))
  }

  /**
   * The `reduce` of calculateStrengthScore, seeded with 8: defined exactly
   * when every yes-answer has a question, and then 8 plus the contributions.
   */
  function Part2Score(answers: seq<bool>): (r: Option<int>)
    ensures r.Some? <==> Indexable(answers)
    ensures r.Some? ==> r.value == Base + QuizHelpers.Sum(Contributions(answers))
  {
    if |answers| == 0 then Some(Base)
    else
      var i := |answers| - 1;
      var prefix := answers[..i];
      assert Contributions(answers)[..i] == Contributions(prefix);
      assert Indexable(answers) <==> Indexable(prefix) && (answers[i] ==> i < |Values|);
      match Part2Score(prefix)
      case None => None
      case Some(total) =>
        if !answers[i] then Some(total)
        else if i < |Values| then Some(total + Values[i])
        else None
  }

  /** calculateStrengthScore: `Math.max(part1Score, part2Score)`. */
  function CalculateStrengthScore(part1Score: int, answers: seq<bool>): (r: Option<int>)
    ensures r.Some? <==> Indexable(answers)
    ensures r.Some? ==>
      r.value >= part1Score && r.value >= Part2Score(answers).value &&
      (r.value == part1Score || r.value == Part2Score(answers).value)
  {
    match Part2Score(answers)
    case None => None
    case Some(part2Score) => Some(if part1Score >= part2Score then part1Score else part2Score)
  }

  /** Answers that are all "no" leave part 2 at its base of 8. */
  lemma {:induction false} AllNoIsBase(answers: seq<bool>)
    requires forall i :: 0 <= i < |answers| ==> !answers[i]
    ensures Part2Score(answers) == Some(Base)
  {
    if |answers| > 0 {
      AllNoIsBase(answers[..|answers| - 1]);
    }
  }

  /** With the table's non-negative values, a defined strength score is at least 8. */
  lemma StrengthAtLeastBase(part1Score: int, answers: seq<bool>)
    requires Indexable(answers)
    ensures CalculateStrengthScore(part1Score, answers).value >= Base
  {
    QuizHelpers.SumNonNegative(Contributions(answers));
  }

  /** Turning an answer into "yes" never lowers the strength score. */
  lemma YesNeverLowers(part1Score: int, answers: seq<bool>, i: nat)
    requires Indexable(answers)
    requires i < |answers| && i < |Values|
    ensures CalculateStrengthScore(part1Score, answers[i := true]).Some?
    ensures CalculateStrengthScore(part1Score, answers[i := true]).value
         >= CalculateStrengthScore(part1Score, answers).value
  {
    var more := answers[i := true];
    assert Indexable(more);
    QuizHelpers.SumMonotone(Contributions(answers), Contributions(more));
  }

  /** Appending one more "yes" answer that has a question never lowers the strength score. */
  lemma AppendYesNeverLowers(part1Score: int, answers: seq<bool>)
    requires Indexable(answers)
    requires |answers| < |Values|
    ensures CalculateStrengthScore(part1Score, answers + [true]).Some?
    ensures CalculateStrengthScore(part1Score, answers + [true]).value
         >= CalculateStrengthScore(part1Score, answers).value
  {
    var more := answers + [true];
    assert more[..|answers|] == answers;
    assert Values[|answers|] >= 0;
  }

  /** The `answers` record calculateFinalStats reads. */
  datatype FinalAnswers = FinalAnswers(strengthPart1: int, strengthPart2: seq<bool>)

  /** calculateFinalStats: strength from its answers, every other stat a flat 10. */
  function CalculateFinalStats(answers: FinalAnswers): (r: Option<Stats>)
    ensures r.Some? <==> Indexable(answers.strengthPart2)
    ensures r.Some? ==>
      && r.value.strength == CalculateStrengthScore(answers.strengthPart1, answers.strengthPart2).value
      && r.value.strength >= answers.strengthPart1
      && forall s :: s != Strength ==> r.value.Get(s) == 10
  {
    match CalculateStrengthScore(answers.strengthPart1, answers.strengthPart2)
    case None => None
    case Some(strength) => Some(AllTens.(strength := strength))
  }
}
