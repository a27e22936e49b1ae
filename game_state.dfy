/**
  The process-wide game state (src/GameState.ts): a record of counters that the
  scenes share, created lazily by `getInstance`, and two static level tables.
*/
module GameStates {

  datatype Status = Play | GameOver | Won

  datatype DialogCategory = Neutral | Positive | Negative

  /** Level -> minimum coins; levels without an entry are looked up as 0. */
  const MinCoinsPerLevel: map<int, int> := map[1 := 10, 2 := 20, 3 := 30]

  /** Level -> number of rocks; levels without an entry are looked up as 0. */
  const RocksPerLevel: map<int, int> := map[1 := 5, 2 := 10, 3 := 15]

  /** `table.get(level) || 0`: an absent (undefined) or falsy entry gives 0. */
  function GetOrZero(table: map<int, int>, level: int): int
  {
    if level in table && table[level] != 0 then table[level] else 0
  }

  /** Static: reads no instance, so no `reads` clause. */
  function MinCoinsForLevel(level: int): (coins: int)
    ensures 1 <= level <= 3 ==> coins == 10 * level
    ensures !(1 <= level <= 3) ==> coins == 0
  {
    GetOrZero(MinCoinsPerLevel, level)
  }

  /** Static: reads no instance, so no `reads` clause. */
  function RocksForLevel(level: int): (rocks: int)
    ensures 1 <= level <= 3 ==> rocks == 5 * level
    ensures !(1 <= level <= 3) ==> rocks == 0
  {
    GetOrZero(RocksPerLevel, level)
  }

  /** The fields of one GameState, as a value. */
  datatype Fields = Fields(
    totalCoins: int,
    currentLevel: int,
    score: int,
    status: Status,
    earnStreak: int,
    loseStreak: int,
    dialogCategory: DialogCategory,
    dialogNeutralStreak: int,
    dialogPositiveStreak: int,
    dialogNegativeStreak: int)

  /** What the private constructor stores. */
  const Defaults: Fields := Fields(0, 1, 0, Play, 0, 0, Neutral, 0, 0, 0)

  class GameState {
    var totalCoins: int
    var currentLevel: int
    var score: int
    var status: Status
    var earnStreak: int
    var loseStreak: int
    var dialogCategory: DialogCategory
    var dialogNeutralStreak: int
    var dialogPositiveStreak: int
    var dialogNegativeStreak: int

    function Snapshot(): Fields
      reads this
    {
      Fields(totalCoins, currentLevel, score, status, earnStreak, loseStreak,
             dialogCategory, dialogNeutralStreak, dialogPositiveStreak, dialogNegativeStreak)
    }

    /** Only `Registry.GetInstance` constructs one (the source's constructor is private). */
    constructor ()
      ensures Snapshot() == Defaults
    {
      totalCoins := 0;
      currentLevel := 1;
      status := Play;
      earnStreak := 0;
      loseStreak := 0;
      score := 0;
      dialogCategory := Neutral;
      dialogNeutralStreak := 0;
      dialogPositiveStreak := 0;
      dialogNegativeStreak := 0;
    }

    function GetTotalCoins(): int reads this { totalCoins }

    function GetScore(): int reads this { score }

    function GetCurrentLevel(): int reads this { currentLevel }

    function GetStatus(): Status reads this { status }

    /** Stores any integer, negative ones included. */
    method SetTotalCoins(coins: int)
      modifies this
      ensures GetTotalCoins() == coins
      ensures Snapshot() == old(Snapshot()).(totalCoins := coins)
    {
      totalCoins := coins;
    }

    method SetScore(newScore: int)
      modifies this
      ensures GetScore() == newScore
      ensures Snapshot() == old(Snapshot()).(score := newScore)
    {
      score := newScore;
    }

    method SetCurrentLevel(level: int)
      modifies this
      ensures GetCurrentLevel() == level
      ensures Snapshot() == old(Snapshot()).(currentLevel := level)
    {
      currentLevel := level;
    }

    method SetStatus(newStatus: Status)
      modifies this
      ensures GetStatus() == newStatus
      ensures Snapshot() == old(Snapshot()).(status := newStatus)
    {
      status := newStatus;
    }

    method ResetEarnStreak()
      modifies this
      ensures Snapshot() == old(Snapshot()).(earnStreak := 0)
    {
      earnStreak := 0;
    }

    method ResetLoseStreak()
      modifies this
      ensures Snapshot() == old(Snapshot()).(loseStreak := 0)
    {
      loseStreak := 0;
    }
  }

  /** Holder of the static `GameState.instance` slot. */
  class Registry {
    var instance: GameState?

    /** Before the first `getInstance` the slot is empty. */
    constructor ()
      ensures instance == null
    {
      instance := null;
    }

    /** Builds the instance on the first call, and returns that same object ever after. */
    method GetInstance() returns (gs: GameState)
      modifies this
      ensures old(instance) != null ==> gs == old(instance)
      ensures old(instance) == null ==> fresh(gs) && gs.Snapshot() == Defaults
      ensures instance == gs
    {
      if instance == null {
        instance := new GameState();
      }
      gs := instance;
    }

    /** Any two calls, in a row, hand out one and the same object. */
    method GetInstanceTwice() returns (first: GameState, second: GameState)
      modifies this
      ensures first == second && instance == first
      ensures old(instance) != null ==> first == old(instance)
    {
      first := GetInstance();
      second := GetInstance();
    }
  }
}
