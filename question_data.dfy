/**
 * The question sets of the files under src/data/questions, reduced to what the scoring
 * and progression logic reads: the point value of every part-1 option and of
 * every part-2 yes/no question.  The question texts are left out.
 */
module QuestionData {

  /** A yes/no question of part 2 and the points it is worth. */
  datatype Question = Question(value: int)

  /**
   * Part 1 of a set: either one multiple-choice question (all registered
   * sets) or a list of questions.
   */
  datatype Part1 = Choice(options: seq<int>) | Questions(list: seq<Question>)

  datatype QuestionSet = QuestionSet(part1: Part1, part2: seq<Question>)

  function Worth(values: seq<int>): (qs: seq<Question>)
    ensures |qs| == |values|
    ensures forall i :: 0 <= i < |values| ==> qs[i].value == values[i]
  {
    seq(|values|, i requires 0 <= i < |values| => Question(values[i]))
  }

  const StrengthPart2Values: seq<int> := [1, 1, 1, 1, 2, 1, 1, 1, 2, 1, 1, 1]

  const StrengthQuestions: QuestionSet :=
    QuestionSet(Choice([8, 9, 10, 11, 12, 13, 14, 15, 16, 17, 18, 19]), Worth(StrengthPart2Values))
  const IntelligenceQuestions: QuestionSet :=
    QuestionSet(Choice([19, 16, 14, 12, 10, 8, 6]), Worth([2, 1, 1, 2, 2, 1, 2, 1, 2, 1, 1, -1]))
  const DexterityQuestions: QuestionSet :=
    QuestionSet(Choice([18, 16, 14, 12, 10, 8]), Worth([-1, -1, 2, 2, 2, 1, 1, 2, 1, 1]))
  const ConstitutionQuestions: QuestionSet :=
    QuestionSet(Choice([18, 16, 14, 12, 10, 8]), Worth([-2, -1, 1, 3, 4, -1, 3, -1, 2, 2]))
  const WisdomQuestions: QuestionSet :=
    QuestionSet(Choice([18, 16, 14, 12, 10, 8]), Worth([-1, 1, -1, 1, 2, 1, 2, 2, 1, 1]))
  const CharismaQuestions: QuestionSet :=
    QuestionSet(Choice([18, 16, 14, 12, 10, 8]), Worth([-1, 1, 1, 1, 2, 1, 2, 1, 1, 2]))

  /** The lookup table of getQuestions, keyed by stat name. */
  const Registry: map<string, QuestionSet> := map[
    "strength" := StrengthQuestions,
    "intelligence" := IntelligenceQuestions,
    "dexterity" := DexterityQuestions,
    "constitution" := ConstitutionQuestions,
    "wisdom" := WisdomQuestions,
    "charisma" := CharismaQuestions]
}
