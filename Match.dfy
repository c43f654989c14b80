/** The state of one match and the operations that change it in place: the
    board, the scores, the positions, the freeze timers and the live power-ups
    (the module-level globals of game.py:69-78), with spawn_power_up,
    check_power_ups, move_agent and reset_game as methods. */
module Engine {
  import opened Grid
  import opened Policy
  import opened Rules

  /** The outcome of spawn_power_up's random draws, supplied by the caller:
      the ten candidate cells of the retry loop, and the kind picked when a
      candidate is accepted. */
  datatype SpawnDraw = SpawnDraw(cells: seq<Cell>, kind: PowerUpKind)

  predicate ValidDraw(d: SpawnDraw) {
    |d.cells| == SPAWN_ATTEMPTS && forall i :: 0 <= i < |d.cells| ==> InBounds(d.cells[i])
  }

  /** One call that changes the match from outside: a move_agent turn of an
      agent, or a spawn_power_up attempt. */
  datatype Action = Turn(agent: Agent) | SpawnAttempt

  /** `n` spawn attempts in a row. */
  function Attempts(n: nat): (r: seq<Action>)
    ensures |r| == n && forall i :: 0 <= i < n ==> r[i] == SpawnAttempt
  {
    if n == 0 then [] else Attempts(n - 1) + [SpawnAttempt]
  }

  /** One more spawn attempt extends a run of attempts by one. */
  lemma AttemptsStep(start: seq<Action>, n: nat, before: seq<Action>, after: seq<Action>)
    requires before == start + Attempts(n) && after == before + [SpawnAttempt]
    ensures after == start + Attempts(n + 1)
  {
    assert start + Attempts(n) + [SpawnAttempt] == start + (Attempts(n) + [SpawnAttempt]);
  }

  class Match {
    var board: array2<Owner>
    var scores: PerAgent<int>
    var positions: PerAgent<Cell>
    var frozenUntil: PerAgent<int>       // milliseconds
    var powerUps: seq<PowerUp>
    var respawnAt: Option<int>           // the pending one-shot respawn timer, if any
    ghost var log: seq<Action>           // the turns and spawn attempts so far, in order

    /** The match invariant: the board has its dimensions, both agents are on
        it, scores are never negative, at most three power-ups are live, and
        each sits alone on an unowned cell no agent stands on. */
    ghost predicate Valid()
      reads this`board, this`positions, this`scores, this`powerUps, board
    {
      IsGrid(board) && InBounds(positions.blue) && InBounds(positions.green)
      && scores.blue >= 0 && scores.green >= 0
      && |powerUps| <= MAX_POWER_UPS
      && (forall i :: 0 <= i < |powerUps| ==>
            InBounds(powerUps[i].cell) && OwnerAt(board, powerUps[i].cell) == Unowned
            && powerUps[i].cell != positions.blue && powerUps[i].cell != positions.green)
      && DistinctCells(powerUps)
    }

    /** The globals as the program starts, before any match (game.py:69-78). */
    constructor ()
      ensures Valid() && fresh(board)
      ensures forall x, y :: 0 <= x < GRID_SIZE && 0 <= y < GRID_SIZE ==> board[x, y] == Unowned
      ensures scores == PerAgent(0, 0) && positions == PerAgent(BLUE_START, GREEN_START)
      ensures frozenUntil == PerAgent(0, 0) && powerUps == [] && respawnAt == None
    {
      board := new Owner[GRID_SIZE, GRID_SIZE]((x, y) => Unowned);
      scores := PerAgent(0, 0);
      positions := PerAgent(BLUE_START, GREEN_START);
      frozenUntil := PerAgent(0, 0);
      powerUps := [];
      respawnAt := None;
    }

    // ------------------------------------------------------------ spawning

    predicate CanPlace(c: Cell)
      reads this`board, this`positions, this`powerUps, board
      requires IsGrid(board) && InBounds(c)
    {
      Placeable(OwnerAt(board, c), c, powerUps, positions)
    }

    /** The attempt at which spawn_power_up's retry loop succeeds: the first
        candidate that passes the placement test, if any. This is
        Grid.FirstIndex written out for CanPlace, which reads the board and so
        cannot be passed as a `Cell -> bool`. */
    function PlacementIndex(cells: seq<Cell>): (r: Option<nat>)
      reads this`board, this`positions, this`powerUps, board
      requires IsGrid(board) && forall i :: 0 <= i < |cells| ==> InBounds(cells[i])
      ensures r.Some? ==> r.value < |cells| && CanPlace(cells[r.value])
      ensures r.Some? ==> forall j :: 0 <= j < r.value ==> !CanPlace(cells[j])
      ensures r.None? <==> forall j :: 0 <= j < |cells| ==> !CanPlace(cells[j])
    {
      if cells == [] then None
      else if CanPlace(cells[0]) then Some(0)
      else match PlacementIndex(cells[1..])
        case None => None
        case Some(i) => Some(i + 1)
    }

    /** The live power-ups after one call of spawn_power_up with `draw`
        (game.py:112-126). Nothing is added at the cap of three; otherwise at
        most one power-up is appended, of the drawn kind, on a cell that is
        unowned, free of power-ups and agents, and more than two steps from
        each agent along some axis. */
    function SpawnResult(draw: SpawnDraw): (r: seq<PowerUp>)
      reads this`board, this`positions, this`powerUps, board
      requires IsGrid(board) && ValidDraw(draw)
      ensures |powerUps| >= MAX_POWER_UPS ==> r == powerUps
      ensures |powerUps| <= |r| <= |powerUps| + 1 && r[..|powerUps|] == powerUps
      ensures |powerUps| <= MAX_POWER_UPS ==> |r| <= MAX_POWER_UPS
      // a power-up is added exactly when there is room and some candidate is placeable
      ensures |r| > |powerUps| <==>
        |powerUps| < MAX_POWER_UPS && exists i :: 0 <= i < |draw.cells| && CanPlace(draw.cells[i])
      ensures |r| > |powerUps| ==>
        var added := r[|powerUps|];
        added.kind == draw.kind
        // the first candidate that passes the test: earlier attempts all failed
        && (exists i :: 0 <= i < |draw.cells| && added.cell == draw.cells[i]
              && forall j :: 0 <= j < i ==> !CanPlace(draw.cells[j]))
        && OwnerAt(board, added.cell) == Unowned && !HasPowerUpAt(powerUps, added.cell)
        && added.cell != positions.blue && added.cell != positions.green
        && FarFrom(added.cell, positions.blue) && FarFrom(added.cell, positions.green)
    {
      if |powerUps| >= MAX_POWER_UPS then powerUps
      else match PlacementIndex(draw.cells)
        case None => powerUps
        case Some(i) => powerUps + [PowerUp(draw.cells[i], draw.kind)]
    }

    /** spawn_power_up (game.py:112-126): up to ten placement attempts, at most
        one power-up added. */
    method SpawnPowerUp(draw: SpawnDraw)
      requires Valid() && ValidDraw(draw)
      modifies this`powerUps, this`log
      ensures Valid()
      ensures powerUps == old(SpawnResult(draw))
      ensures log == old(log) + [SpawnAttempt]
    {
      if |powerUps| < MAX_POWER_UPS {
        var attempt := 0;
        while attempt < |draw.cells|
          invariant 0 <= attempt <= |draw.cells|
          invariant powerUps == old(powerUps) && log == old(log)
          invariant forall j :: 0 <= j < attempt ==> !CanPlace(draw.cells[j])
        {
          var c := draw.cells[attempt];
          if board[c.x, c.y] == Unowned && !HasPowerUpAt(powerUps, c) {
            if c != positions.blue && c != positions.green {
              if FarFrom(c, positions.blue) && FarFrom(c, positions.green) {
                assert PlacementIndex(draw.cells) == Some(attempt);
                powerUps := powerUps + [PowerUp(c, draw.kind)];
                log := log + [SpawnAttempt];
                return;
              }
            }
          }
          attempt := attempt + 1;
        }
      }
      log := log + [SpawnAttempt];
    }

    // ---------------------------------------------------------- collection

    /** The fields that collecting a power-up may change. */
    function CurrentStatus(): Status
      reads this`powerUps, this`scores, this`frozenUntil, this`respawnAt
    {
      Status(powerUps, scores, frozenUntil, respawnAt)
    }

    /** check_power_ups (game.py:332-349): the first power-up on `c`, if any,
        is removed and takes effect, as Collect describes. */
    method CheckPowerUps(agent: Agent, c: Cell, now: int)
      modifies this`powerUps, this`scores, this`frozenUntil, this`respawnAt
      ensures CurrentStatus() == Collect(old(CurrentStatus()), agent, c, now)
    {
      var snapshot := powerUps;   // the loop walks a copy while removing from the list
      var k := 0;
      while k < |snapshot|
        invariant 0 <= k <= |snapshot|
        invariant forall j :: 0 <= j < k ==> snapshot[j].cell != c
        invariant powerUps == snapshot == old(powerUps)
        invariant scores == old(scores) && frozenUntil == old(frozenUntil) && respawnAt == old(respawnAt)
      {
        var pu := snapshot[k];
        if pu.cell == c {
          assert IndexOfPowerUpAt(powerUps, c) == Some(k);
          // list.remove drops the first element equal to `pu`; no earlier
          // element is on `c`, so that is the one at index k
          powerUps := RemoveAt(powerUps, k);
          match pu.kind {
            case Freeze =>
              frozenUntil := frozenUntil.With(agent.Opponent(), FreezeEnd(now));
            case Points =>
              scores := scores.With(agent, scores.Get(agent) + POINTS_BONUS);
          }
          respawnAt := Some(now + RESPAWN_DELAY_MS);
          return;
        }
        k := k + 1;
      }
      assert !HasPowerUpAt(old(powerUps), c);
    }

    // ------------------------------------------------------------ movement

    /** The state is as before, cell for cell. */
    twostate predicate Unchanged()
      reads this`board, this`positions, this`powerUps, this`scores, this`frozenUntil, this`respawnAt, board
    {
      board == old(board)
      && (forall x, y :: 0 <= x < board.Length0 && 0 <= y < board.Length1 ==> board[x, y] == old(board[x, y]))
      && positions == old(positions) && CurrentStatus() == old(CurrentStatus())
    }

    /** The effect of `agent` stepping onto `dest` at time `now`
        (game.py:317-329): `dest` becomes the agent's and every other cell,
        the vacated one included, keeps its owner; the agent stands on `dest`
        and the other agent stays put; scores follow the capture rule; then
        the first power-up on `dest`, if any, is collected. */
    twostate predicate MovedTo(agent: Agent, dest: Cell, now: int)
      reads this`board, this`positions, this`powerUps, this`scores, this`frozenUntil, this`respawnAt, board
      requires old(IsGrid(board)) && InBounds(dest)
    {
      board == old(board) && board[dest.x, dest.y] == Owned(agent)
      && (forall x, y :: 0 <= x < GRID_SIZE && 0 <= y < GRID_SIZE && Cell(x, y) != dest
            ==> board[x, y] == old(board[x, y]))
      && positions == old(positions).With(agent, dest)
      && CurrentStatus() == Collect(old(CurrentStatus()).(scores := CaptureScores(old(scores), agent, old(board[dest.x, dest.y]))),
                                    agent, dest, now)
    }

    /** The effect of one move_agent call (game.py:251-329) on the match:
        nothing when the agent has no destination (frozen, a refused key, no
        candidate), otherwise the move onto its destination. */
    twostate predicate TookTurn(agent: Agent, mode: GameMode, key: Option<Direction>, difficulty: Difficulty,
                                now: int, draw: AiDraw)
      reads this`board, this`positions, this`powerUps, this`scores, this`frozenUntil, this`respawnAt, board
      requires old(Valid())
    {
      var d := old(Destination(agent, mode, key, difficulty, now, draw));
      (d.None? ==> Unchanged()) && (d.Some? ==> InBounds(d.value) && MovedTo(agent, d.value, now))
    }

    /** The capture of game.py:318-328: score bookkeeping, the cell changes
        hands, the agent moves onto it. */
    method Claim(agent: Agent, dest: Cell)
      requires Valid() && InBounds(dest)
      modifies this`scores, this`positions, board
      ensures scores == CaptureScores(old(scores), agent, old(board[dest.x, dest.y]))
      ensures board[dest.x, dest.y] == Owned(agent)
      ensures forall x, y :: 0 <= x < GRID_SIZE && 0 <= y < GRID_SIZE && Cell(x, y) != dest
                ==> board[x, y] == old(board[x, y])
      ensures positions == old(positions).With(agent, dest)
    {
      var prior := board[dest.x, dest.y];
      if prior != Owned(agent) {
        scores := scores.With(agent, scores.Get(agent) + 1);
        if prior != Unowned {
          var opponent := agent.Opponent();
          if scores.Get(opponent) > 0 {
            scores := scores.With(opponent, scores.Get(opponent) - 1);
          }
        }
      }
      assert scores == CaptureScores(old(scores), agent, prior);
      board[dest.x, dest.y] := Owned(agent);
      positions := positions.With(agent, dest);
    }

    /** The second half of move_agent (game.py:317-329), once a destination
        has been chosen: the capture, then the collection on `dest`. */
    method ApplyMove(agent: Agent, dest: Cell, now: int)
      requires Valid() && InBounds(dest)
      modifies this`scores, this`positions, this`powerUps, this`frozenUntil, this`respawnAt, board
      ensures Valid()
      ensures MovedTo(agent, dest, now)
    {
      ghost var prior := board[dest.x, dest.y];
      ghost var captured := CaptureScores(scores, agent, prior);
      ghost var before := CurrentStatus().(scores := captured);
      CaptureKeepsScoresNonNegative(scores, agent, prior);
      CollectClearsCell(before, agent, dest, now);
      if HasPowerUpAt(before.powerUps, dest) {
        var kind := before.powerUps[IndexOfPowerUpAt(before.powerUps, dest).value].kind;
        if kind == Freeze { CollectFreeze(before, agent, dest, now); }
        else { CollectPoints(before, agent, dest, now); }
      }
      assert captured.Get(Blue) == captured.blue && captured.Get(Green) == captured.green;
      Claim(agent, dest);
      assert CurrentStatus() == before;
      CheckPowerUps(agent, dest, now);
      // what is left of the power-ups was live before, away from `dest`
      assert scores.Get(Blue) == scores.blue && scores.Get(Green) == scores.green;
      forall j | 0 <= j < |powerUps|
        ensures InBounds(powerUps[j].cell) && OwnerAt(board, powerUps[j].cell) == Unowned
        ensures powerUps[j].cell != positions.blue && powerUps[j].cell != positions.green
      {
        assert powerUps[j] in old(powerUps);
      }
    }

    /** Where move_agent takes `agent` this time, or None when it does not
        move (game.py:251-316): nothing while frozen; a human key for blue in
        a human-versus-AI match (refused if it leaves the grid); otherwise the
        AI's choice. */
    function Destination(agent: Agent, mode: GameMode, key: Option<Direction>, difficulty: Difficulty,
                         now: int, draw: AiDraw): (r: Option<Cell>)
      reads this`board, this`positions, this`powerUps, this`scores, this`frozenUntil, board
      requires Valid()
      ensures r.Some? ==> !IsFrozen(frozenUntil.Get(agent), now)
      ensures r.Some? ==> InBounds(r.value) && Adjacent(positions.Get(agent), r.value)
      // a human key moves exactly one step, and only when that step stays on the grid
      ensures !IsFrozen(frozenUntil.Get(agent), now) && agent == Blue && mode == HumanVsAi && key.Some? ==>
        (r.Some? <==> InBounds(Step(positions.Get(agent), key.value)))
        && (r.Some? ==> r.value == Step(positions.Get(agent), key.value))
      // the AI always finds a move while unfrozen, one of its possible moves
      ensures !IsFrozen(frozenUntil.Get(agent), now) && !(agent == Blue && mode == HumanVsAi && key.Some?) ==>
        r.Some? && r.value in Neighbours(positions.Get(agent))
    {
      if IsFrozen(frozenUntil.Get(agent), now) then None
      else
        var pos := positions.Get(agent);
        AiTargetIsStep(board, powerUps, agent, pos, difficulty, draw);
        NeighboursNonEmpty(pos);
        var target :=
          if agent == Blue && mode == HumanVsAi && key.Some? then HumanTarget(pos, key.value)
          else AiTarget(board, powerUps, agent, pos, difficulty, draw);
        if target.Some? && target.value != pos then target else None
    }

    /** move_agent (game.py:251-329). A frozen agent changes nothing. */
    method MoveAgent(agent: Agent, mode: GameMode, key: Option<Direction>, difficulty: Difficulty,
                     now: int, draw: AiDraw)
      requires Valid()
      modifies this, board
      ensures Valid()
      // a frozen agent changes nothing but the log
      ensures old(IsFrozen(frozenUntil.Get(agent), now)) ==>
        unchanged(this`board, this`positions, this`powerUps, this`scores, this`frozenUntil, this`respawnAt, old(board))
      ensures TookTurn(agent, mode, key, difficulty, now, draw)
      ensures log == old(log) + [Turn(agent)]
    {
      var dest := Destination(agent, mode, key, difficulty, now, draw);
      if dest.Some? {
        ApplyMove(agent, dest.value, now);
      }
      log := log + [Turn(agent)];
    }

    // --------------------------------------------------------------- reset

    /** The first half of reset_game (game.py:727-735): a fresh board owned
        only at the two starting corners, starting positions, scores of one,
        no freezes and no power-ups. */
    method StartLayout()
      modifies this`board, this`scores, this`positions, this`powerUps, this`frozenUntil
      ensures Valid() && fresh(board) && powerUps == []
      ensures forall x, y :: 0 <= x < GRID_SIZE && 0 <= y < GRID_SIZE ==> board[x, y] == StartOwner(Cell(x, y))
      ensures positions == PerAgent(BLUE_START, GREEN_START)
      ensures scores == PerAgent(1, 1) && frozenUntil == PerAgent(0, 0)
    {
      board := new Owner[GRID_SIZE, GRID_SIZE]((x, y) => Unowned);
      scores := PerAgent(0, 0);
      positions := PerAgent(BLUE_START, GREEN_START);
      powerUps := [];
      frozenUntil := PerAgent(0, 0);
      board[positions.blue.x, positions.blue.y] := Owned(Blue);
      board[positions.green.x, positions.green.y] := Owned(Green);
      scores := PerAgent(1, 1);
    }

    /** reset_game (game.py:724-742): a fresh board where each agent owns its
        starting corner, scores of one, no freezes, the respawn timer cleared,
        and one spawn attempt per draw (two or three). */
    method Reset(draws: seq<SpawnDraw>)
      requires 2 <= |draws| <= 3 && forall i :: 0 <= i < |draws| ==> ValidDraw(draws[i])
      modifies this
      ensures Valid() && fresh(board)
      ensures forall x, y :: 0 <= x < GRID_SIZE && 0 <= y < GRID_SIZE ==> board[x, y] == StartOwner(Cell(x, y))
      ensures positions == PerAgent(BLUE_START, GREEN_START)
      ensures scores == PerAgent(1, 1) && frozenUntil == PerAgent(0, 0)
      ensures |powerUps| <= |draws| && respawnAt == None
      ensures log == old(log) + Attempts(|draws|)
    {
      StartLayout();
      var n := 0;
      while n < |draws|
        invariant 0 <= n <= |draws|
        invariant Valid() && |powerUps| <= n
        invariant log == old(log) + Attempts(n)
        modifies this`powerUps, this`log
      {
        ghost var before := log;
        SpawnPowerUp(draws[n]);
        AttemptsStep(old(log), n, before, log);
        n := n + 1;
      }
      respawnAt := None;
    }

    /** The one-shot respawn event (game.py:815-817): once the timer armed by a
        collection is due, one spawn attempt is made and the timer cleared. */
    method RespawnIfDue(now: int, draw: SpawnDraw)
      requires Valid() && ValidDraw(draw)
      modifies this`powerUps, this`respawnAt, this`log
      ensures Valid()
      ensures if RespawnDue(old(respawnAt), now)
              then powerUps == old(SpawnResult(draw)) && respawnAt == None && log == old(log) + [SpawnAttempt]
              else powerUps == old(powerUps) && respawnAt == old(respawnAt) && log == old(log)
    {
      if respawnAt.Some? && now >= respawnAt.value {
        SpawnPowerUp(draw);
        respawnAt := None;
      }
    }
  }
}
