/**
 * src/stores/debugCharacterStore.ts: every action builds a new character
 * from the old one with spreads and `.map`, so each is a function
 * Character -> Character here.  Random ids are parameters.
 */
module DebugCharacterStore {
  import opened Wrappers
  import opened CharacterTypes

  const DefaultCharacter: Character := Character(
    "debug-character", "Debug Character", "Human", "Fighter",
    1, 0, 100, Resource(100, 100), Resource(50, 50), AllTens, 0, [], [], [])

  /** resetCharacter: back to the default debug character. */
  function ResetCharacter(): (c: Character)
    ensures WellFormed(c)
    ensures c.id == "debug-character" && c.name == "Debug Character"
    ensures c.race == "Human" && c.characterClass == "Fighter"
    ensures c.level == 1 && c.experience == 0 && c.experienceToNextLevel == 100
    ensures c.health == Resource(100, 100) && c.mana == Resource(50, 50)
    ensures forall s :: c.stats.Get(s) == 10
    ensures c.battleTokens == 0 && c.habits == [] && c.dailies == [] && c.todos == []
  {
    DefaultCharacter
  }

  /** A `Partial<CharacterStats>`: `None` is a key that is absent. */
  datatype StatsPatch = StatsPatch(strength: Option<int>, dexterity: Option<int>, constitution: Option<int>,
                                   intelligence: Option<int>, wisdom: Option<int>, charisma: Option<int>)
  {
    function Get(s: Stat): Option<int>
    {
      match s
      case Strength => strength
      case Dexterity => dexterity
      case Constitution => constitution
      case Intelligence => intelligence
      case Wisdom => wisdom
      case Charisma => charisma
    }
  }

  const EmptyPatch: StatsPatch := StatsPatch(None, None, None, None, None, None)

  /** updateStats: `{...stats, ...patch}`. */
  function UpdateStats(c: Character, patch: StatsPatch): (r: Character)
    ensures forall s :: patch.Get(s).Some? ==> r.stats.Get(s) == patch.Get(s).value
    ensures forall s :: patch.Get(s).None? ==> r.stats.Get(s) == c.stats.Get(s)
    ensures r.(stats := c.stats) == c
  {
    c.(stats := Stats(
      patch.strength.UnwrapOr(c.stats.strength),
      patch.dexterity.UnwrapOr(c.stats.dexterity),
      patch.constitution.UnwrapOr(c.stats.constitution),
      patch.intelligence.UnwrapOr(c.stats.intelligence),
      patch.wisdom.UnwrapOr(c.stats.wisdom),
      patch.charisma.UnwrapOr(c.stats.charisma)))
  }

  /** Merging the same patch twice is merging it once; the empty patch changes nothing. */
  lemma UpdateStatsIdempotent(c: Character, patch: StatsPatch)
    ensures UpdateStats(UpdateStats(c, patch), patch) == UpdateStats(c, patch)
    ensures UpdateStats(c, EmptyPatch) == c
  {
  }

  /** The fields of a new habit the caller supplies (`Omit<Habit, 'id' | 'type' | 'count'>`). */
  datatype HabitInput = HabitInput(name: string, description: string, difficulty: Difficulty,
                                   completed: bool, lastCompleted: Option<string>,
                                   associatedStat: Stat, rewards: Rewards, positive: bool)

  /** The fields of a new daily the caller supplies (`Omit<Daily, 'id' | 'type' | 'completed' | 'streak'>`). */
  datatype DailyInput = DailyInput(name: string, description: string, difficulty: Difficulty,
                                   lastCompleted: Option<string>, associatedStat: Stat,
                                   rewards: Rewards, schedule: Schedule)

  /** addHabit: append one habit with count 0 and id `debug-habit-<uuid>`. */
  function AddHabit(c: Character, input: HabitInput, uuid: string): (r: Character)
    ensures |r.habits| == |c.habits| + 1 && r.habits[..|c.habits|] == c.habits
    ensures var h := r.habits[|c.habits|];
      && h.id == "debug-habit-" + uuid && h.count == 0
      && h.name == input.name && h.description == input.description
      && h.difficulty == input.difficulty && h.completed == input.completed
      && h.lastCompleted == input.lastCompleted && h.associatedStat == input.associatedStat
      && h.rewards == input.rewards && h.positive == input.positive
    ensures r.(habits := c.habits) == c
  {
    var h := Habit("debug-habit-" + uuid, input.name, input.description, input.difficulty,
                   input.completed, input.lastCompleted, input.associatedStat, input.rewards,
                   0, input.positive);
    c.(habits := c.habits + [h])
  }

  /** addDaily: append one daily, not completed, streak 0, id `debug-daily-<uuid>`. */
  function AddDaily(c: Character, input: DailyInput, uuid: string): (r: Character)
    ensures |r.dailies| == |c.dailies| + 1 && r.dailies[..|c.dailies|] == c.dailies
    ensures var d := r.dailies[|c.dailies|];
      && d.id == "debug-daily-" + uuid && !d.completed && d.streak == 0
      && d.name == input.name && d.description == input.description
      && d.difficulty == input.difficulty && d.lastCompleted == input.lastCompleted
      && d.associatedStat == input.associatedStat && d.rewards == input.rewards
      && d.schedule == input.schedule
    ensures r.(dailies := c.dailies) == c
  {
    var d := Daily("debug-daily-" + uuid, input.name, input.description, input.difficulty,
                   false, input.lastCompleted, input.associatedStat, input.rewards,
                   0, input.schedule);
    c.(dailies := c.dailies + [d])
  }

  predicate HasDaily(ds: seq<Daily>, id: string)
  {
    exists i :: 0 <= i < |ds| && ds[i].id == id
  }

  predicate HasHabit(hs: seq<Habit>, id: string)
  {
    exists i :: 0 <= i < |hs| && hs[i].id == id
  }

  /**
   * completeDaily: every daily with the id becomes completed with its streak
   * one higher; there is no guard against completing it again.
   */
  function CompleteDaily(c: Character, dailyId: string): (r: Character)
    ensures !HasDaily(c.dailies, dailyId) ==> r == c
    ensures |r.dailies| == |c.dailies|
    ensures forall i :: 0 <= i < |c.dailies| && c.dailies[i].id == dailyId ==>
      r.dailies[i] == c.dailies[i].(completed := true, streak := c.dailies[i].streak + 1)
    ensures forall i :: 0 <= i < |c.dailies| && c.dailies[i].id != dailyId ==>
      r.dailies[i] == c.dailies[i]
    ensures r.(dailies := c.dailies) == c
  {
    if !HasDaily(c.dailies, dailyId) then c
    else
      c.(dailies := seq(|c.dailies|, i requires 0 <= i < |c.dailies| =>
        var d := c.dailies[i];
        if d.id == dailyId then d.(completed := true, streak := d.streak + 1) else d))
  }

  /** Completing the same daily twice counts its streak up twice: the store is not idempotent. */
  lemma CompleteDailyTwiceCountsTwice(c: Character, dailyId: string, i: nat)
    requires i < |c.dailies| && c.dailies[i].id == dailyId
    ensures CompleteDaily(CompleteDaily(c, dailyId), dailyId).dailies[i].streak == c.dailies[i].streak + 2
  {
    assert HasDaily(CompleteDaily(c, dailyId).dailies, dailyId) by {
      assert CompleteDaily(c, dailyId).dailies[i].id == dailyId;
    }
  }

  /** toggleHabit: every habit with the id counts one up (positive) or down (negative). */
  function ToggleHabit(c: Character, habitId: string, positive: bool): (r: Character)
    ensures !HasHabit(c.habits, habitId) ==> r == c
    ensures |r.habits| == |c.habits|
    ensures forall i :: 0 <= i < |c.habits| && c.habits[i].id == habitId ==>
      r.habits[i] == c.habits[i].(count := c.habits[i].count + (if positive then 1 else -1))
    ensures forall i :: 0 <= i < |c.habits| && c.habits[i].id != habitId ==>
      r.habits[i] == c.habits[i]
    ensures r.(habits := c.habits) == c
  {
    if !HasHabit(c.habits, habitId) then c
    else
      c.(habits := seq(|c.habits|, i requires 0 <= i < |c.habits| =>
        var h := c.habits[i];
        if h.id == habitId then h.(count := h.count + if positive then 1 else -1) else h))
  }

  /** A positive toggle is undone by a negative one on the same habit. */
  lemma ToggleUndo(c: Character, habitId: string)
    ensures ToggleHabit(ToggleHabit(c, habitId, true), habitId, false) == c
  {
    var once := ToggleHabit(c, habitId, true);
    if HasHabit(c.habits, habitId) {
      var i :| 0 <= i < |c.habits| && c.habits[i].id == habitId;
      assert once.habits[i].id == habitId;
      assert ToggleHabit(once, habitId, false).habits == c.habits;
    }
  }

  /** `Math.floor(t * 1.5)` for an integer threshold `t`. */
  function Grown(t: int): (r: int)
    ensures t >= 1 ==> r >= t
    ensures t >= 2 ==> r > t
    ensures 2 * r <= 3 * t < 2 * r + 2
  {
    (3 * t) / 2
  }

  /**
   * gainExperience: at most one level-up per call.  Reaching the threshold
   * raises the level by one, keeps the overflow and grows the threshold.
   */
  function GainExperience(c: Character, amount: int): (r: Character)
    ensures c.experience + amount < c.experienceToNextLevel ==>
      r == c.(experience := c.experience + amount)
    ensures c.experience + amount >= c.experienceToNextLevel ==>
      && r.level == c.level + 1
      && r.experience == c.experience + amount - c.experienceToNextLevel
      && r.experienceToNextLevel == Grown(c.experienceToNextLevel)
      && r.(level := c.level, experience := c.experience,
            experienceToNextLevel := c.experienceToNextLevel) == c
  {
    var newExperience := c.experience + amount;
    if newExperience >= c.experienceToNextLevel then
      c.(level := c.level + 1,
         experience := newExperience - c.experienceToNextLevel,
         experienceToNextLevel := Grown(c.experienceToNextLevel))
    else
      c.(experience := newExperience)
  }

  /**
   * A gain keeps the character well formed when it is not negative and does
   * not overshoot the next threshold as well.
   */
  lemma GainExperienceKeepsWellFormed(c: Character, amount: int)
    requires WellFormed(c) && 0 <= amount
    requires c.experience + amount < c.experienceToNextLevel + Grown(c.experienceToNextLevel)
    ensures WellFormed(GainExperience(c, amount))
    ensures GainExperience(c, amount).level - c.level in {0, 1}
  {
  }

  /**
   * A large grant still levels up only once: the default character given
   * 500 experience ends at level 2 with 400 experience against a threshold
   * of 150.
   */
  lemma LargeGainLevelsOnce()
    ensures var r := GainExperience(DefaultCharacter, 500);
      r.level == 2 && r.experience == 400 && r.experienceToNextLevel == 150 &&
      !WellFormed(r)
  {
  }

  /** levelUp: next level, experience back to 0, threshold grown. */
  function LevelUp(c: Character): (r: Character)
    ensures r.level == c.level + 1 && r.experience == 0
    ensures r.experienceToNextLevel == Grown(c.experienceToNextLevel)
    ensures r.(level := c.level, experience := c.experience,
               experienceToNextLevel := c.experienceToNextLevel) == c
    ensures WellFormed(c) ==> WellFormed(r)
  {
    c.(level := c.level + 1, experience := 0, experienceToNextLevel := Grown(c.experienceToNextLevel))
  }

  /** Gaining exactly the experience still missing is the same as levelUp. */
  lemma GainMissingIsLevelUp(c: Character)
    ensures GainExperience(c, c.experienceToNextLevel - c.experience) == LevelUp(c)
  {
  }

  /** updateBattleTokens: add `amount` (which may be negative) to the tokens. */
  function UpdateBattleTokens(c: Character, amount: int): (r: Character)
    ensures r.battleTokens - c.battleTokens == amount
    ensures r.(battleTokens := c.battleTokens) == c
  {
    c.(battleTokens := c.battleTokens + amount)
  }

  /** `current` moved by `amount`, then clamped: `Math.min(max, Math.max(0, current + amount))`. */
  function Clamped(res: Resource, amount: int): (r: Resource)
    ensures r.max == res.max
    ensures res.max >= 0 ==> 0 <= r.current <= r.max
    ensures 0 <= res.current + amount <= res.max ==> r.current == res.current + amount
    ensures res.current + amount < 0 && res.max >= 0 ==> r.current == 0
    ensures res.current + amount > res.max ==> r.current == res.max
  {
    var raised := if res.current + amount > 0 then res.current + amount else 0;
    Resource(if res.max < raised then res.max else raised, res.max)
  }

  /** A clamped resource moved by nothing stays where it is. */
  lemma ClampedIsStable(res: Resource, amount: int)
    requires res.max >= 0
    ensures Clamped(Clamped(res, amount), 0) == Clamped(res, amount)
  {
  }

  /** updateHealth: only `health.current` changes, and it stays in [0, max]. */
  function UpdateHealth(c: Character, amount: int): (r: Character)
    ensures r.health == Clamped(c.health, amount)
    ensures c.health.max >= 0 ==> 0 <= r.health.current <= r.health.max
    ensures r.(health := c.health) == c
    ensures WellFormed(c) ==> WellFormed(r)
  {
    c.(health := Clamped(c.health, amount))
  }

  /** updateMana: only `mana.current` changes, and it stays in [0, max]. */
  function UpdateMana(c: Character, amount: int): (r: Character)
    ensures r.mana == Clamped(c.mana, amount)
    ensures c.mana.max >= 0 ==> 0 <= r.mana.current <= r.mana.max
    ensures r.(mana := c.mana) == c
    ensures WellFormed(c) ==> WellFormed(r)
  {
    c.(mana := Clamped(c.mana, amount))
  }

  /** The habit, daily and stat actions leave the well-formedness invariant alone. */
  lemma TaskActionsKeepWellFormed(c: Character, id: string, positive: bool, patch: StatsPatch,
                                  h: HabitInput, d: DailyInput, uuid: string)
    requires WellFormed(c)
    ensures WellFormed(CompleteDaily(c, id)) && WellFormed(ToggleHabit(c, id, positive))
    ensures WellFormed(UpdateStats(c, patch))
    ensures WellFormed(AddHabit(c, h, uuid)) && WellFormed(AddDaily(c, d, uuid))
  {
  }
}
