/** The vocabulary of the territory game: the 20x20 ownership grid, the two
    agents, power-ups, the game settings, and a few generic helpers used by the
    rule and policy modules. Everything here is a value. */
module Grid {

  // Game settings (game.py:34, 55-61). Times are kept in milliseconds, the unit
  // of the pygame tick counter that drives the game.
  const GRID_SIZE: int := 20
  const TIME_LIMIT: int := 60              // seconds per match
  const NORMAL_SPEED: int := 7
  const HARD_SPEED: int := 12
  const FREEZE_DURATION: int := 5          // seconds
  const POINTS_BONUS: int := 20
  const MAX_POWER_UPS: int := 3
  const SPAWN_ATTEMPTS: int := 10
  const FRAMES_PER_SECOND: int := 60       // clock.tick(60)
  const MS_PER_SECOND: int := 1000
  const RESPAWN_DELAY_MS: int := 2000      // one-shot respawn after a collection
  const SPAWN_PERIOD_MS: int := 5000       // periodic respawn while playing

  datatype Option<T> = None | Some(value: T)

  /** The two agents; the source keys its dictionaries by "blue" and "green". */
  datatype Agent = Blue | Green {
    function Opponent(): (o: Agent)
      ensures o != this
    {
      if Blue? then Green else Blue
    }
  }

  /** What a grid cell holds: `None` in the source, or the name of an agent. */
  datatype Owner = Unowned | Owned(agent: Agent)

  /** A cell coordinate; the board is indexed column-major, board[x][y]. */
  datatype Cell = Cell(x: int, y: int)

  predicate InBounds(c: Cell) {
    0 <= c.x < GRID_SIZE && 0 <= c.y < GRID_SIZE
  }

  /** The board has the game's dimensions. */
  predicate IsGrid(board: array2<Owner>) {
    board.Length0 == GRID_SIZE && board.Length1 == GRID_SIZE
  }

  /** board[x][y] of the source. */
  function OwnerAt(board: array2<Owner>, c: Cell): Owner
    reads board
    requires IsGrid(board) && InBounds(c)
  {
    board[c.x, c.y]
  }

  function Abs(n: int): int {
    if n < 0 then -n else n
  }

  /** `b` is one cardinal step away from `a`. */
  predicate Adjacent(a: Cell, b: Cell) {
    Abs(a.x - b.x) + Abs(a.y - b.y) == 1
  }

  datatype PowerUpKind = Freeze | Points

  /** A live power-up, the source's (x, y, type) tuple. */
  datatype PowerUp = PowerUp(cell: Cell, kind: PowerUpKind)

  /** Some live power-up sits on `c`. */
  predicate HasPowerUpAt(pus: seq<PowerUp>, c: Cell) {
    exists i :: 0 <= i < |pus| && pus[i].cell == c
  }

  /** One value per agent, the two-entry dictionaries of the source. */
  datatype PerAgent<T> = PerAgent(blue: T, green: T) {
    function Get(a: Agent): T {
      if a == Blue then blue else green
    }

    function With(a: Agent, v: T): (r: PerAgent<T>)
      ensures r.Get(a) == v && r.Get(a.Opponent()) == Get(a.Opponent())
    {
      if a == Blue then PerAgent(v, green) else PerAgent(blue, v)
    }
  }

  /** The four arrow keys a human player can press. */
  datatype Direction = Up | Down | Left | Right

  datatype GameMode = HumanVsAi | AiVsAi

  datatype Difficulty = Normal | Hard

  datatype GameState = Menu | ModeSelect | DifficultySelect | Customization | Playing | GameOver

  /** The first index of `s` whose element satisfies `p`, if any. */
  function FirstIndex<T>(s: seq<T>, p: T -> bool): (r: Option<nat>)
    ensures r.Some? ==> r.value < |s| && p(s[r.value])
    ensures r.Some? ==> forall j :: 0 <= j < r.value ==> !p(s[j])
    ensures r.None? <==> forall j :: 0 <= j < |s| ==> !p(s[j])
  {
    if s == [] then None
    else if p(s[0]) then Some(0)
    else match FirstIndex(s[1..], p)
      case None => None
      case Some(i) => Some(i + 1)
  }

  /** The elements of `s` that satisfy `p`, in their original order. */
  function Filter<T>(s: seq<T>, p: T -> bool): (r: seq<T>)
    ensures |r| <= |s|
    ensures forall i :: 0 <= i < |r| ==> r[i] in s && p(r[i])
    ensures forall j :: 0 <= j < |s| && p(s[j]) ==> s[j] in r
  {
    if s == [] then []
    else if p(s[0]) then [s[0]] + Filter(s[1..], p)
    else Filter(s[1..], p)
  }

  /** Appending two elements one at a time appends the pair. */
  lemma AppendPair<T>(s: seq<T>, a: T, b: T)
    ensures s + [a] + [b] == s + [a, b]
  {
  }

  /** Filtering a sequence filters its head, then its tail. */
  lemma FilterCons<T>(x: T, rest: seq<T>, p: T -> bool)
    ensures Filter([x] + rest, p) == (if p(x) then [x] else []) + Filter(rest, p)
  {
    assert ([x] + rest)[1..] == rest;
  }

  /** `s` without its element at index `i` (Python's list.remove of that element). */
  function RemoveAt<T>(s: seq<T>, i: nat): (r: seq<T>)
    requires i < |s|
    ensures |r| == |s| - 1
    ensures forall j :: 0 <= j < |r| ==> r[j] == if j < i then s[j] else s[j + 1]
  {
    s[..i] + s[i + 1..]
  }

  /** Removing one element takes exactly that element out of the multiset. */
  lemma RemoveAtMultiset<T>(s: seq<T>, i: nat)
    requires i < |s|
    ensures multiset(RemoveAt(s, i)) + multiset{s[i]} == multiset(s)
  {
    assert s == s[..i] + [s[i]] + s[i + 1..];
  }
}
