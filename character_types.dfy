/**
 * The records of src/types/character.ts: character stats, the three task
 * kinds, the character itself, and the user record that the browser-side
 * user store keeps (src/stores/userStore.ts).
 */
module CharacterTypes {
  import opened Wrappers

  /** The six keys of CharacterStats. */
  datatype Stat = Strength | Dexterity | Constitution | Intelligence | Wisdom | Charisma

  /** The fixed order in which the quiz visits the stats. */
  const StatOrder: seq<Stat> := [Strength, Dexterity, Constitution, Intelligence, Wisdom, Charisma]

  /** The property name the TypeScript code uses for a stat. */
  function StatName(s: Stat): string
  {
    match s
    case Strength => "strength"
    case Dexterity => "dexterity"
    case Constitution => "constitution"
    case Intelligence => "intelligence"
    case Wisdom => "wisdom"
    case Charisma => "charisma"
  }

  datatype Stats = Stats(strength: int, dexterity: int, constitution: int,
                         intelligence: int, wisdom: int, charisma: int)
  {
    function Get(s: Stat): int
    {
      match s
      case Strength => strength
      case Dexterity => dexterity
      case Constitution => constitution
      case Intelligence => intelligence
      case Wisdom => wisdom
      case Charisma => charisma
    }

    /** `stats[s] = v`: only stat `s` changes. */
    function Set(s: Stat, v: int): (r: Stats)
      ensures r.Get(s) == v
      ensures forall t :: t != s ==> r.Get(t) == Get(t)
    {
      match s
      case Strength => this.(strength := v)
      case Dexterity => this.(dexterity := v)
      case Constitution => this.(constitution := v)
      case Intelligence => this.(intelligence := v)
      case Wisdom => this.(wisdom := v)
      case Charisma => this.(charisma := v)
    }
  }

  /** The stats every store starts a fresh character with. */
  const AllTens: Stats := Stats(10, 10, 10, 10, 10, 10)

  /** Task difficulty, ranked trivial < easy < medium < hard. */
  datatype Difficulty = Trivial | Easy | Medium | Hard

  function Rank(d: Difficulty): nat
  {
    match d
    case Trivial => 0
    case Easy => 1
    case Medium => 2
    case Hard => 3
  }

  datatype Rewards = Rewards(health: int, mana: int, experience: int)

  datatype Schedule = Schedule(monday: bool, tuesday: bool, wednesday: bool, thursday: bool,
                               friday: bool, saturday: bool, sunday: bool)

  datatype Habit = Habit(id: string, name: string, description: string, difficulty: Difficulty,
                         completed: bool, lastCompleted: Option<string>, associatedStat: Stat,
                         rewards: Rewards, count: int, positive: bool)

  datatype Daily = Daily(id: string, name: string, description: string, difficulty: Difficulty,
                         completed: bool, lastCompleted: Option<string>, associatedStat: Stat,
                         rewards: Rewards, streak: int, schedule: Schedule)

  datatype Todo = Todo(id: string, name: string, description: string, difficulty: Difficulty,
                       completed: bool, lastCompleted: Option<string>, associatedStat: Stat,
                       rewards: Rewards, dueDate: Option<string>)

  /** A current/max pair (health, mana). */
  datatype Resource = Resource(current: int, max: int)

  datatype Character = Character(
    id: string, name: string, race: string, characterClass: string,
    level: int, experience: int, experienceToNextLevel: int,
    health: Resource, mana: Resource, stats: Stats, battleTokens: int,
    habits: seq<Habit>, dailies: seq<Daily>, todos: seq<Todo>)

  /**
   * The character invariants: level at least 1,
   * experience below the threshold, resources within [0, max], no debt of
   * tokens.  The stores do not enforce all of these; lemmas say which
   * operations keep them.
   */
  predicate WellFormed(c: Character)
  {
    && c.level >= 1
    && 0 <= c.experience < c.experienceToNextLevel
    && 0 <= c.health.current <= c.health.max
    && 0 <= c.mana.current <= c.mana.max
    && c.battleTokens >= 0
  }

  /** The user record of the browser-side user store. */
  datatype User = User(email: string, username: string, password: string, character: Option<Character>)
}
