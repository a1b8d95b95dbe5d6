/**
 * src/components/CharacterQuiz.tsx: the quiz that walks the six stats in a
 * fixed order, part 1 then part 2 of each, and scores all of them after
 * the last answer.  The component's state variables are the fields of a
 * class; the onComplete callback is the value HandleAnswer returns.
 *
 * The component scores the `answers` it captured before the last answer
 * was appended, so that answer is never scored.  HandleAnswer keeps that
 * behaviour; HandleAnswerIntended scores every answer.
 */
module CharacterQuiz {
  import opened Wrappers
  import opened CharacterTypes
  import QuestionData
  import opened QuizHelpers

  datatype Phase = VersionSelect | InProgress

  datatype QuizPart = Part1 | Part2

  /** The `stats` array of the component. */
  const StatNames: seq<string> := ["strength", "dexterity", "constitution", "intelligence", "wisdom", "charisma"]

  lemma StatNamesAreStatOrder()
    ensures |StatNames| == |StatOrder|
    ensures forall i :: 0 <= i < |StatNames| ==> StatNames[i] == StatName(StatOrder[i])
  {
  }

  lemma StatNamesRegistered(stat: string)
    requires stat in StatNames
    ensures stat in QuestionData.Registry
  {
  }

  /** `Array.prototype.indexOf`: the first position of `x`, or -1. */
  function IndexOf(xs: seq<string>, x: string): (i: int)
    ensures -1 <= i < |xs|
    ensures i == -1 <==> x !in xs
    ensures i >= 0 ==> xs[i] == x && forall j :: 0 <= j < i ==> xs[j] != x
  {
    if |xs| == 0 then -1
    else if xs[0] == x then 0
    else
      var j := IndexOf(xs[1..], x);
      if j == -1 then -1 else j + 1
  }

  /** The answers recorded for a stat, or empty lists (`answers[stat] || { part1: [], part2: [] }`). */
  function Entry(answers: map<string, Answers>, stat: string): Answers
  {
    if stat in answers then answers[stat] else NoAnswers
  }

  /** The `setAnswers` updater: append `value` to one part of one stat. */
  function Record(answers: map<string, Answers>, stat: string, part: QuizPart, value: int): (r: map<string, Answers>)
    ensures r.Keys == answers.Keys + {stat}
    ensures part == Part1 ==> r[stat] == Answers(Entry(answers, stat).part1 + [value], Entry(answers, stat).part2)
    ensures part == Part2 ==> r[stat] == Answers(Entry(answers, stat).part1, Entry(answers, stat).part2 + [value])
    ensures forall s :: s in answers && s != stat ==> r[s] == answers[s]
  {
    var e := Entry(answers, stat);
    answers[stat := if part == Part1 then Answers(e.part1 + [value], e.part2)
                                     else Answers(e.part1, e.part2 + [value])]
  }

  /** How many answers a part takes: its length for a list, 1 for a single question. */
  function QuestionCount(qs: QuestionData.QuestionSet, part: QuizPart): nat
  {
    match part
    case Part1 => (match qs.part1 case Choice(_) => 1 case Questions(list) => |list|)
    case Part2 => |qs.part2|
  }

  function Answered(answers: map<string, Answers>, stat: string, part: QuizPart): nat
  {
    if part == Part1 then |Entry(answers, stat).part1| else |Entry(answers, stat).part2|
  }

  /** Where the quiz goes after an answer: a stat and part to ask, or the end. */
  datatype Position = At(stat: string, part: QuizPart) | Finished

  /**
   * The position after answering `stat`/`part` when `answeredBefore`
   * answers were already recorded there: stay until the part's count is
   * reached, then part 2 if it has questions, then part 1 of the next stat,
   * and the end after the last stat.
   */
  function NextPosition(stat: string, part: QuizPart, answeredBefore: nat, qs: QuestionData.QuestionSet): (p: Position)
    requires stat in StatNames
    ensures answeredBefore + 1 < QuestionCount(qs, part) ==> p == At(stat, part)
    ensures answeredBefore + 1 >= QuestionCount(qs, part) && part == Part1 && |qs.part2| > 0 ==>
      p == At(stat, Part2)
    ensures answeredBefore + 1 >= QuestionCount(qs, part) && (part == Part2 || |qs.part2| == 0) ==>
      var i := IndexOf(StatNames, stat);
      (i + 1 < |StatNames| ==> p == At(StatNames[i + 1], Part1)) &&
      (i + 1 == |StatNames| ==> p == Finished)
    ensures p.At? ==> p.stat in StatNames
  {
    if answeredBefore + 1 >= QuestionCount(qs, part) then
      if part == Part1 && |qs.part2| > 0 then
        At(stat, Part2)
      else
        var next := IndexOf(StatNames, stat) + 1;
        if next < |StatNames| then At(StatNames[next], Part1) else Finished
    else
      At(stat, part)
  }

  /** The six stats are visited in order, and the last part of charisma ends the quiz. */
  lemma StatsInOrder(i: nat, qs: QuestionData.QuestionSet, answeredBefore: nat)
    requires i < |StatNames|
    requires answeredBefore + 1 >= QuestionCount(qs, Part2)
    ensures i + 1 < |StatNames| ==> NextPosition(StatNames[i], Part2, answeredBefore, qs) == At(StatNames[i + 1], Part1)
    ensures i + 1 == |StatNames| ==> NextPosition(StatNames[i], Part2, answeredBefore, qs) == Finished
  {
    assert IndexOf(StatNames, StatNames[i]) == i;
  }

  /** The final-stats `reduce`: each stat scored from its answers, or from empty lists. */
  function FinalStats(answers: map<string, Answers>): (r: Stats)
    ensures forall s :: r.Get(s) == CalculateStatScore(StatName(s), Entry(answers, StatName(s)))
  {
    Stats(CalculateStatScore("strength", Entry(answers, "strength")),
          CalculateStatScore("dexterity", Entry(answers, "dexterity")),
          CalculateStatScore("constitution", Entry(answers, "constitution")),
          CalculateStatScore("intelligence", Entry(answers, "intelligence")),
          CalculateStatScore("wisdom", Entry(answers, "wisdom")),
          CalculateStatScore("charisma", Entry(answers, "charisma")))
  }

  /** With no answers at all, every clamped stat is 8 and every other one 0. */
  lemma FinalStatsOfNothing()
    ensures FinalStats(map[]) == Stats(0, 8, 0, 0, 0, 8)
  {
  }

  /**
   * The dropped answer, concretely: with charisma answered 10 in part 1 and
   * nine "no" answers (0) in part 2, a last "yes" (1) should give charisma
   * 11, but the answers captured before it give 10.
   */
  lemma FinalAnswerIsDropped()
    ensures var before := map["charisma" := Answers([10], [0, 0, 0, 0, 0, 0, 0, 0, 0])];
      FinalStats(before).charisma == 10 &&
      FinalStats(Record(before, "charisma", Part2, 1)).charisma == 11
  {
    var before := map["charisma" := Answers([10], [0, 0, 0, 0, 0, 0, 0, 0, 0])];
    SumConcat([0, 0, 0, 0, 0, 0, 0, 0, 0], [1]);
    AllZeroSum([0, 0, 0, 0, 0, 0, 0, 0, 0]);
    assert Sum([10]) == 10 by {
      assert [10][..0] == [];
    }
    assert Record(before, "charisma", Part2, 1)["charisma"]
        == Answers([10], [0, 0, 0, 0, 0, 0, 0, 0, 0] + [1]);
  }

  lemma {:induction false} AllZeroSum(xs: seq<int>)
    requires forall i :: 0 <= i < |xs| ==> xs[i] == 0
    ensures Sum(xs) == 0
  {
    if |xs| > 0 {
      AllZeroSum(xs[..|xs| - 1]);
    }
  }

  /** With the intended scoring, the final answer counts: the stat is scored from every answer it received. */
  lemma FinalAnswerCounts(answers: map<string, Answers>, part: QuizPart, value: int)
    ensures var e := Entry(answers, "charisma");
      FinalStats(Record(answers, "charisma", part, value)).charisma ==
        CalculateStatScore("charisma", if part == Part1 then Answers(e.part1 + [value], e.part2)
                                                        else Answers(e.part1, e.part2 + [value]))
  {
    assert StatName(Charisma) == "charisma";
  }

  class Quiz {
    var quizVersion: QuizVersion
    var quizState: Phase
    var currentStat: Option<string>
    var currentPart: QuizPart
    var answers: map<string, Answers>

    ghost predicate Valid()
      reads this
    {
      currentStat.Some? ==> currentStat.value in StatNames
    }

    constructor ()
      ensures Valid() && quizVersion == Unset && quizState == VersionSelect
      ensures currentStat == None && currentPart == Part1 && answers == map[]
    {
      quizVersion := Unset;
      quizState := VersionSelect;
      currentStat := None;
      currentPart := Part1;
      answers := map[];
    }

    /** handleVersionSelect: remember the version and start at the first stat. */
    method HandleVersionSelect(version: QuizVersion)
      modifies this
      ensures Valid()
      ensures quizVersion == version && quizState == InProgress && currentStat == Some(StatNames[0])
      ensures currentPart == old(currentPart) && answers == old(answers)
    {
      quizVersion := version;
      quizState := InProgress;
      currentStat := Some(StatNames[0]);
    }

    /**
     * The state changes of handleAnswer: record the answer and move to the
     * next position; `last` says the quiz has ended.  The component only
     * shows a question once a version and a stat are chosen.
     */
    method Advance(value: int) returns (last: bool)
      requires Valid() && currentStat.Some? && quizVersion != Unset
      modifies this
      ensures Valid() && quizVersion == old(quizVersion) && quizState == old(quizState)
      ensures answers == Record(old(answers), old(currentStat).value, old(currentPart), value)
      ensures var p := NextPosition(old(currentStat).value, old(currentPart),
                                    Answered(old(answers), old(currentStat).value, old(currentPart)),
                                    GetQuestions(old(currentStat).value, quizVersion).value);
        && (last <==> p.Finished?)
        && (p.At? ==> currentStat == Some(p.stat) && currentPart == p.part)
        && (p.Finished? ==> currentStat == old(currentStat) && currentPart == old(currentPart))
    {
      var stat := currentStat.value;
      StatNamesRegistered(stat);
      var before := Answered(answers, stat, currentPart);
      answers := Record(answers, stat, currentPart, value);
      var qs := GetQuestions(stat, quizVersion).value;
      var p := NextPosition(stat, currentPart, before, qs);
      last := p.Finished?;
      if p.At? {
        currentStat := Some(p.stat);
        currentPart := p.part;
      }
    }

    /** handleAnswer as written: the final stats come from the answers before this one. */
    method HandleAnswer(value: int) returns (completed: Option<Stats>)
      requires Valid() && currentStat.Some? && quizVersion != Unset
      modifies this
      ensures Valid() && quizVersion == old(quizVersion) && quizState == old(quizState)
      ensures answers == Record(old(answers), old(currentStat).value, old(currentPart), value)
      ensures var p := NextPosition(old(currentStat).value, old(currentPart),
                                    Answered(old(answers), old(currentStat).value, old(currentPart)),
                                    GetQuestions(old(currentStat).value, quizVersion).value);
        && (p.At? ==> currentStat == Some(p.stat) && currentPart == p.part && completed.None?)
        && (p.Finished? ==> currentStat == old(currentStat) && currentPart == old(currentPart) &&
                            completed == Some(FinalStats(old(answers))))
    {
      var before := answers;
      var last := Advance(value);
      completed := if last then Some(FinalStats(before)) else None;
    }

    /** handleAnswer as intended: the final stats include the answer just given. */
    method HandleAnswerIntended(value: int) returns (completed: Option<Stats>)
      requires Valid() && currentStat.Some? && quizVersion != Unset
      modifies this
      ensures Valid() && quizVersion == old(quizVersion) && quizState == old(quizState)
      ensures answers == Record(old(answers), old(currentStat).value, old(currentPart), value)
      ensures var p := NextPosition(old(currentStat).value, old(currentPart),
                                    Answered(old(answers), old(currentStat).value, old(currentPart)),
                                    GetQuestions(old(currentStat).value, quizVersion).value);
        && (p.At? ==> currentStat == Some(p.stat) && currentPart == p.part && completed.None?)
        && (p.Finished? ==> currentStat == old(currentStat) && currentPart == old(currentPart) &&
                            completed == Some(FinalStats(answers)))
    {
      var last := Advance(value);
      completed := if last then Some(FinalStats(answers)) else None;
    }
  }
}
