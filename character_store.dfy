/**
 * src/stores/characterStore.ts: a store whose actions change the character
 * in place.  The character, when present, is a record value that every
 * action replaces; a habit is changed by writing its position in the list.
 */
module CharacterStore {
  import opened Wrappers
  import opened CharacterTypes

  /** A habit as this store keeps it: the fields the actions read or write. */
  datatype StoreHabit = StoreHabit(id: string, name: string, difficulty: Difficulty,
                                   associatedStat: Stat, frequency: string,
                                   completed: bool, streak: int)

  /** The argument of addHabit (`Omit<Habit, 'id' | 'completed' | 'streak'>`). */
  datatype HabitDraft = HabitDraft(name: string, difficulty: Difficulty,
                                   associatedStat: Stat, frequency: string)

  /** The character as this store builds it. */
  datatype StoreCharacter = StoreCharacter(id: string, name: string, race: string,
                                           characterClass: string, level: int, experience: int,
                                           battleTokens: int, stats: Stats, habits: seq<StoreHabit>)

  /** A `Partial<Character>`: `None` is a key the caller left out. */
  datatype CharacterDraft = CharacterDraft(id: Option<string>, name: Option<string>,
                                           race: Option<string>, characterClass: Option<string>,
                                           level: Option<int>, experience: Option<int>,
                                           battleTokens: Option<int>, stats: Option<Stats>,
                                           habits: Option<seq<StoreHabit>>)

  /**
   * The character initializeCharacter builds: the defaults, then every key of
   * `data` spread over them, so a supplied key always wins.
   */
  function Initialized(data: CharacterDraft, uuid: string): (r: StoreCharacter)
    ensures data.id.None? ==> r.id == uuid
    ensures data.name.None? ==> r.name == "New Character"
    ensures data.race.None? ==> r.race == "Human"
    ensures data.characterClass.None? ==> r.characterClass == "Fighter"
    ensures data.level.None? ==> r.level == 1
    ensures data.experience.None? ==> r.experience == 0
    ensures data.battleTokens.None? ==> r.battleTokens == 0
    ensures data.stats.None? ==> forall s :: r.stats.Get(s) == 10
    ensures data.habits.None? ==> r.habits == []
    ensures data.id.Some? ==> r.id == data.id.value
    ensures data.name.Some? ==> r.name == data.name.value
    ensures data.race.Some? ==> r.race == data.race.value
    ensures data.characterClass.Some? ==> r.characterClass == data.characterClass.value
    ensures data.level.Some? ==> r.level == data.level.value
    ensures data.experience.Some? ==> r.experience == data.experience.value
    ensures data.battleTokens.Some? ==> r.battleTokens == data.battleTokens.value
    ensures data.stats.Some? ==> r.stats == data.stats.value
    ensures data.habits.Some? ==> r.habits == data.habits.value
  {
    StoreCharacter(
      data.id.UnwrapOr(uuid), data.name.UnwrapOr("New Character"), data.race.UnwrapOr("Human"),
      data.characterClass.UnwrapOr("Fighter"), data.level.UnwrapOr(1), data.experience.UnwrapOr(0),
      data.battleTokens.UnwrapOr(0), data.stats.UnwrapOr(AllTens), data.habits.UnwrapOr([]))
  }

  /**
   * The experience table of completeHabit AS WRITTEN: it has no entry for
   * 'trivial', so a trivial habit reads `undefined` (`None`) and the
   * character's experience becomes NaN.
   */
  function ExpGainAsWritten(d: Difficulty): (r: Option<int>)
    ensures r.None? <==> d == Trivial
    ensures d == Easy ==> r == Some(10)
    ensures d == Medium ==> r == Some(25)
    ensures d == Hard ==> r == Some(50)
  {
    match d
    case Easy => Some(10)
    case Medium => Some(25)
    case Hard => Some(50)
    case Trivial => None
  }

  /** The stat table of completeHabit as written, with the same missing entry. */
  function StatGainAsWritten(d: Difficulty): (r: Option<int>)
    ensures r.None? <==> d == Trivial
    ensures d == Easy ==> r == Some(1)
    ensures d == Medium ==> r == Some(2)
    ensures d == Hard ==> r == Some(3)
  {
    match d
    case Easy => Some(1)
    case Medium => Some(2)
    case Hard => Some(3)
    case Trivial => None
  }

  /**
   * The experience table as intended: total over all four difficulties,
   * with 'trivial' in the lowest tier, and equal to the written table
   * wherever that has an entry.
   */
  function ExpGain(d: Difficulty): (r: nat)
    ensures ExpGainAsWritten(d).Some? ==> r == ExpGainAsWritten(d).value
    ensures d == Trivial ==> r == ExpGainAsWritten(Easy).value
  {
    match d
    case Trivial => 10
    case Easy => 10
    case Medium => 25
    case Hard => 50
  }

  /** The stat table as intended, total in the same way. */
  function StatGain(d: Difficulty): (r: nat)
    ensures StatGainAsWritten(d).Some? ==> r == StatGainAsWritten(d).value
    ensures d == Trivial ==> r == StatGainAsWritten(Easy).value
  {
    match d
    case Trivial => 1
    case Easy => 1
    case Medium => 2
    case Hard => 3
  }

  /** Both rewards grow with the difficulty rank. */
  lemma GainsMonotone(d1: Difficulty, d2: Difficulty)
    requires Rank(d1) <= Rank(d2)
    ensures ExpGain(d1) <= ExpGain(d2) && StatGain(d1) <= StatGain(d2)
  {
  }

  /** `habits.find(h => h.id === id)`: the first habit with the id, if any. */
  function FindHabit(hs: seq<StoreHabit>, id: string): (k: Option<nat>)
    ensures k.None? <==> forall i :: 0 <= i < |hs| ==> hs[i].id != id
    ensures k.Some? ==> k.value < |hs| && hs[k.value].id == id
    ensures k.Some? ==> forall i :: 0 <= i < k.value ==> hs[i].id != id
  {
    if |hs| == 0 then None
    else if hs[0].id == id then Some(0)
    else match FindHabit(hs[1..], id)
      case None => None
      case Some(j) => Some(j + 1)
  }

  /**
   * The character after completing habit `k`: the habit is completed with
   * its streak one higher, experience and the habit's stat rise by the
   * difficulty's reward, and at most one level (with one battle token)
   * follows when experience reaches `level * 100`; experience is not reduced.
   */
  function AfterCompletion(c: StoreCharacter, k: nat): (r: StoreCharacter)
    requires k < |c.habits|
    ensures var h := c.habits[k];
      && r.habits == c.habits[k := h.(completed := true, streak := h.streak + 1)]
      && r.experience == c.experience + ExpGain(h.difficulty)
      && r.stats.Get(h.associatedStat) == c.stats.Get(h.associatedStat) + StatGain(h.difficulty)
      && (forall s :: s != h.associatedStat ==> r.stats.Get(s) == c.stats.Get(s))
    ensures r.experience > c.experience
    ensures r.experience >= c.level * 100 ==> r.level == c.level + 1 && r.battleTokens == c.battleTokens + 1
    ensures r.experience < c.level * 100 ==> r.level == c.level && r.battleTokens == c.battleTokens
    ensures r.id == c.id && r.name == c.name && r.race == c.race && r.characterClass == c.characterClass
  {
    var h := c.habits[k];
    var experience := c.experience + ExpGain(h.difficulty);
    var stats := c.stats.Set(h.associatedStat, c.stats.Get(h.associatedStat) + StatGain(h.difficulty));
    var leveled := experience >= c.level * 100;
    c.(habits := c.habits[k := h.(completed := true, streak := h.streak + 1)],
       experience := experience,
       stats := stats,
       level := if leveled then c.level + 1 else c.level,
       battleTokens := if leveled then c.battleTokens + 1 else c.battleTokens)
  }

  /**
   * The fields completeHabit writes, as written: the habits, experience, the
   * habit's stat, level and battle tokens.  A JavaScript number that became
   * NaN is `None`.
   */
  datatype WrittenCompletion = WrittenCompletion(habits: seq<StoreHabit>, experience: Option<int>,
                                                 statValue: Option<int>, level: int, battleTokens: int)

  /**
   * completeHabit AS WRITTEN, with the rewards from the written tables.  The
   * habit is always completed with its streak one higher.  For a 'trivial'
   * habit experience and the stat become NaN, and `NaN >= level * 100` is
   * false, so level and tokens stay.  For every other difficulty it is the
   * corrected completion.
   */
  function AfterCompletionAsWritten(c: StoreCharacter, k: nat): (r: WrittenCompletion)
    requires k < |c.habits|
    ensures var h := c.habits[k];
      r.habits == c.habits[k := h.(completed := true, streak := h.streak + 1)]
    ensures r.experience.None? <==> c.habits[k].difficulty == Trivial
    ensures r.statValue.None? <==> c.habits[k].difficulty == Trivial
    ensures c.habits[k].difficulty == Trivial ==> r.level == c.level && r.battleTokens == c.battleTokens
    ensures c.habits[k].difficulty != Trivial ==>
      var fixed := AfterCompletion(c, k);
      && r.experience == Some(fixed.experience)
      && r.statValue == Some(fixed.stats.Get(c.habits[k].associatedStat))
      && r.level == fixed.level && r.battleTokens == fixed.battleTokens
  {
    var h := c.habits[k];
    var habits := c.habits[k := h.(completed := true, streak := h.streak + 1)];
    match (ExpGainAsWritten(h.difficulty), StatGainAsWritten(h.difficulty))
    case (Some(expGain), Some(statGain)) =>
      var experience := c.experience + expGain;
      var leveled := experience >= c.level * 100;
      WrittenCompletion(habits, Some(experience), Some(c.stats.Get(h.associatedStat) + statGain),
                        if leveled then c.level + 1 else c.level,
                        if leveled then c.battleTokens + 1 else c.battleTokens)
    case _ => WrittenCompletion(habits, None, None, c.level, c.battleTokens)
  }

  /** Completing a 'trivial' habit: NaN and no level-up as written, the easy reward as corrected. */
  lemma TrivialCompletion(c: StoreCharacter, k: nat)
    requires k < |c.habits| && c.habits[k].difficulty == Trivial
    ensures AfterCompletionAsWritten(c, k).experience.None?
    ensures AfterCompletionAsWritten(c, k).level == c.level
    ensures AfterCompletion(c, k).experience == c.experience + 10
    ensures AfterCompletion(c, k).stats.Get(c.habits[k].associatedStat)
         == c.stats.Get(c.habits[k].associatedStat) + 1
  {
  }

  class Store {
    var character: Option<StoreCharacter>
    var loading: bool
    var error: Option<string>

    constructor ()
      ensures character == None && !loading && error == None
    {
      character := None;
      loading := false;
      error := None;
    }

    /** getCharacterStats: the stats, or nothing without a character. */
    function GetCharacterStats(): (r: Option<Stats>)
      reads this
      ensures r.Some? <==> character.Some?
      ensures r.Some? ==> r.value == character.value.stats
    {
      if character.Some? then Some(character.value.stats) else None
    }

    /** getHabits: the habits, or an empty list without a character. */
    function GetHabits(): (r: seq<StoreHabit>)
      reads this
      ensures character.Some? ==> r == character.value.habits
      ensures character.None? ==> r == []
    {
      if character.Some? then character.value.habits else []
    }

    /** getBattleTokens: `character?.battleTokens || 0`. */
    function GetBattleTokens(): (r: int)
      reads this
      ensures character.None? ==> r == 0
      ensures character.Some? ==> r == character.value.battleTokens
    {
      if character.Some? then character.value.battleTokens else 0
    }

    /** getLevel: `character?.level || 1`, so a missing character and level 0 both read 1. */
    function GetLevel(): (r: int)
      reads this
      ensures character.None? || character.value.level == 0 ==> r == 1
      ensures character.Some? && character.value.level != 0 ==> r == character.value.level
    {
      if character.Some? && character.value.level != 0 then character.value.level else 1
    }

    /** initializeCharacter; the random id is the parameter `uuid`. */
    method InitializeCharacter(data: CharacterDraft, uuid: string)
      modifies this
      ensures character == Some(Initialized(data, uuid))
      ensures !loading && error == old(error)
    {
      loading := true;
      character := Some(Initialized(data, uuid));
      loading := false;
    }

    /** addHabit: push a new, not completed habit with streak 0; nothing without a character. */
    method AddHabit(draft: HabitDraft, uuid: string)
      modifies this
      ensures old(character).None? ==> character == None
      ensures old(character).Some? ==>
        character == Some(old(character).value.(habits := old(character).value.habits +
          [StoreHabit(uuid, draft.name, draft.difficulty, draft.associatedStat, draft.frequency, false, 0)]))
      ensures loading == old(loading) && error == old(error)
    {
      if character.None? {
        return;
      }
      var newHabit := StoreHabit(uuid, draft.name, draft.difficulty, draft.associatedStat,
                                 draft.frequency, false, 0);
      character := Some(character.value.(habits := character.value.habits + [newHabit]));
    }

    /** completeHabit: complete the first habit with the id; nothing without a character or such a habit. */
    method CompleteHabit(habitId: string)
      modifies this
      ensures old(character).None? ==> character == None
      ensures old(character).Some? && FindHabit(old(character).value.habits, habitId).None? ==>
        character == old(character)
      ensures old(character).Some? && FindHabit(old(character).value.habits, habitId).Some? ==>
        character == Some(AfterCompletion(old(character).value,
                                          FindHabit(old(character).value.habits, habitId).value))
      ensures loading == old(loading) && error == old(error)
    {
      if character.None? {
        return;
      }
      var found := FindHabit(character.value.habits, habitId);
      if found.None? {
        return;
      }
      character := Some(AfterCompletion(character.value, found.value));
    }

    /** resetDailyHabits: un-complete every habit whose frequency is 'daily', one by one. */
    method ResetDailyHabits()
      modifies this
      ensures old(character).None? ==> character == None
      ensures old(character).Some? ==>
        character.Some? && character.value.(habits := old(character).value.habits) == old(character).value
      ensures old(character).Some? ==>
        var before := old(character).value.habits;
        var after := character.value.habits;
        && |after| == |before|
        && (forall i :: 0 <= i < |before| && before[i].frequency == "daily" ==>
              after[i] == before[i].(completed := false))
        && (forall i :: 0 <= i < |before| && before[i].frequency != "daily" ==>
              after[i] == before[i])
      ensures loading == old(loading) && error == old(error)
    {
      if character.None? {
        return;
      }
      var habits := character.value.habits;
      var i := 0;
      while i < |habits|
        invariant 0 <= i <= |habits| == |old(character).value.habits|
        invariant forall j :: 0 <= j < i && old(character).value.habits[j].frequency == "daily" ==>
          habits[j] == old(character).value.habits[j].(completed := false)
        invariant forall j :: 0 <= j < i && old(character).value.habits[j].frequency != "daily" ==>
          habits[j] == old(character).value.habits[j]
        invariant forall j :: i <= j < |habits| ==> habits[j] == old(character).value.habits[j]
      {
        if habits[i].frequency == "daily" {
          habits := habits[i := habits[i].(completed := false)];
        }
        i := i + 1;
      }
      character := Some(character.value.(habits := habits));
    }
  }
}
