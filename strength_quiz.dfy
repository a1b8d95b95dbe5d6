/**
 * src/components/quiz/StrengthQuiz.tsx: the two-part strength quiz.  Its
 * state variables are the fields of a class; the onComplete callback is the
 * value HandlePart2Answer returns.
 */
module StrengthQuiz {
  import opened Wrappers
  import QuestionData
  import CalculateStats

  /** The number of part-2 questions (`strengthQuestions.part2.length`). */
  const QuestionCount: nat := |QuestionData.StrengthPart2Values|

  /** What onComplete receives. */
  datatype Scores = Scores(part1: int, part2: seq<bool>)

  /** `part1Answer || 8`: both null and 0 are falsy. */
  function Part1OrDefault(answer: Option<int>): (r: int)
    ensures answer.Some? && answer.value != 0 ==> r == answer.value
    ensures answer.None? || answer.value == 0 ==> r == 8
  {
    if answer.Some? && answer.value != 0 then answer.value else 8
  }

  /** The scores a completed quiz hands on always have a strength score, at least 8 and at least part 1. */
  lemma CompletedScoresAreScorable(s: Scores)
    requires |s.part2| == QuestionCount
    ensures CalculateStats.CalculateStrengthScore(s.part1, s.part2).Some?
    ensures CalculateStats.CalculateStrengthScore(s.part1, s.part2).value >= 8
    ensures CalculateStats.CalculateStrengthScore(s.part1, s.part2).value >= s.part1
  {
    CalculateStats.StrengthAtLeastBase(s.part1, s.part2);
  }

  class Quiz {
    var part: int
    var part1Answer: Option<int>
    var part2Answers: seq<bool>

    ghost predicate Valid()
      reads this
    {
      (part == 1 || part == 2) && |part2Answers| == QuestionCount
    }

    /** The initial state: part 1, nothing chosen, every part-2 answer false. */
    constructor ()
      ensures Valid() && part == 1 && part1Answer == None
      ensures forall i :: 0 <= i < |part2Answers| ==> !part2Answers[i]
    {
      part := 1;
      part1Answer := None;
      part2Answers := seq(QuestionCount, _ => false);
    }

    /** handlePart1Selection: record the option's value and go to part 2. */
    method HandlePart1Selection(value: int)
      requires Valid()
      modifies this
      ensures Valid() && part1Answer == Some(value) && part == 2
      ensures part2Answers == old(part2Answers)
    {
      part1Answer := Some(value);
      part := 2;
    }

    /**
     * handlePart2Answer: replace the answer at `index` only; answering the
     * last question completes the quiz with the updated answers.
     */
    method HandlePart2Answer(index: nat, value: bool) returns (completed: Option<Scores>)
      requires Valid() && index < QuestionCount
      modifies this
      ensures Valid() && part == old(part) && part1Answer == old(part1Answer)
      ensures part2Answers == old(part2Answers)[index := value]
      ensures completed.Some? <==> index == QuestionCount - 1
      ensures completed.Some? ==> completed.value == Scores(Part1OrDefault(part1Answer), part2Answers)
      ensures completed.Some? ==> CalculateStats.CalculateStrengthScore(completed.value.part1, completed.value.part2).Some?
    {
      var newAnswers := part2Answers[index := value];
      part2Answers := newAnswers;
      completed := None;
      if index == QuestionCount - 1 {
        completed := Some(Scores(Part1OrDefault(part1Answer), newAnswers));
        CompletedScoresAreScorable(completed.value);
      }
    }
  }
}
