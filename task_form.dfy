/**
 * src/components/TaskForm.tsx: handleSubmit turns the form's fields into a
 * new habit, daily or todo, with an impact chosen by difficulty.  The
 * random id is the parameter `id`.
 */
module TaskForm {
  import opened Wrappers
  import opened CharacterTypes

  datatype TaskKind = HabitKind | DailyKind | TodoKind

  /** The reward the form attaches (named `impact` here, `rewards` in the type `Task`). */
  datatype Impact = Impact(health: int, mana: int, experience: int)

  /** The difficulty -> impact table: hard, medium, and everything else. */
  function ImpactFor(d: Difficulty): (r: Impact)
    ensures r.health == (if d == Hard then 10 else if d == Medium then 5 else 2)
    ensures r.mana == (if d == Hard then 8 else if d == Medium then 4 else 1)
    ensures r.experience == (if d == Hard then 20 else if d == Medium then 10 else 5)
  {
    match d
    case Hard => Impact(10, 8, 20)
    case Medium => Impact(5, 4, 10)
    case _ => Impact(2, 1, 5)
  }

  /** Every component of the impact is non-decreasing in the difficulty rank; trivial earns what easy earns. */
  lemma ImpactMonotone(d1: Difficulty, d2: Difficulty)
    requires Rank(d1) <= Rank(d2)
    ensures ImpactFor(d1).health <= ImpactFor(d2).health
    ensures ImpactFor(d1).mana <= ImpactFor(d2).mana
    ensures ImpactFor(d1).experience <= ImpactFor(d2).experience
    ensures ImpactFor(Trivial) == ImpactFor(Easy)
  {
  }

  /** The state of the form when it is submitted. */
  datatype Form = Form(name: string, description: string, difficulty: Difficulty,
                       isPositive: bool, dueDate: string, schedule: Schedule)

  datatype BaseTask = BaseTask(id: string, name: string, description: string, difficulty: Difficulty,
                               completed: bool, lastCompleted: Option<string>, impact: Impact)

  datatype NewTask =
    | NewHabit(base: BaseTask, positive: bool, count: int)
    | NewDaily(base: BaseTask, streak: int, schedule: Schedule)
    | NewTodo(base: BaseTask, dueDate: Option<string>)

  /** handleSubmit: the new habit, daily or todo passed to onSubmit. */
  function HandleSubmit(kind: TaskKind, form: Form, id: string): (t: NewTask)
    ensures t.base == BaseTask(id, form.name, form.description, form.difficulty, false, None,
                               ImpactFor(form.difficulty))
    ensures t.NewHabit? <==> kind == HabitKind
    ensures t.NewDaily? <==> kind == DailyKind
    ensures t.NewTodo? <==> kind == TodoKind
    ensures t.NewHabit? ==> t.count == 0 && t.positive == form.isPositive
    ensures t.NewDaily? ==> t.streak == 0 && t.schedule == form.schedule
    ensures t.NewTodo? ==> (t.dueDate.None? <==> form.dueDate == "")
    ensures t.NewTodo? && t.dueDate.Some? ==> t.dueDate.value == form.dueDate
  {
    var base := BaseTask(id, form.name, form.description, form.difficulty, false, None,
                         ImpactFor(form.difficulty));
    match kind
    case HabitKind => NewHabit(base, form.isPositive, 0)
    case DailyKind => NewDaily(base, 0, form.schedule)
    case TodoKind => NewTodo(base, if form.dueDate != "" then Some(form.dueDate) else None)
  }
}
