/** The bookkeeping rules of a match, as pure functions of the values they
    depend on: score changes on capture, power-up lookup and placement, the
    freeze timer, the AI cadence, the clock and the winner. The Engine and
    GameLoop modules apply them to the mutable state. */
module Rules {
  import opened Grid

  // ---------------------------------------------------------------- scores

  /** The scores after `agent` enters a cell whose owner was `prior`
      (game.py:318-325): the mover gains a point unless it already owned the
      cell; a previous owner (necessarily the opponent) loses one, but never
      drops below zero. */
  function CaptureScores(scores: PerAgent<int>, agent: Agent, prior: Owner): (r: PerAgent<int>)
    ensures r.Get(agent) == scores.Get(agent) + (if prior == Owned(agent) then 0 else 1)
    ensures r.Get(agent.Opponent()) == scores.Get(agent.Opponent())
      - (if prior == Owned(agent.Opponent()) && scores.Get(agent.Opponent()) > 0 then 1 else 0)
  {
    if prior == Owned(agent) then scores
    else
      var gained := scores.With(agent, scores.Get(agent) + 1);
      var opponent := agent.Opponent();
      assert prior != Unowned ==> prior == Owned(opponent) by {
        assert prior.Owned? ==> prior.agent == Blue || prior.agent == Green;
      }
      if prior != Unowned && scores.Get(opponent) > 0 then gained.With(opponent, scores.Get(opponent) - 1)
      else gained
  }

  function Total(scores: PerAgent<int>): int {
    scores.blue + scores.green
  }

  /** Scores never become negative through captures. */
  lemma CaptureKeepsScoresNonNegative(scores: PerAgent<int>, agent: Agent, prior: Owner)
    requires scores.blue >= 0 && scores.green >= 0
    ensures var r := CaptureScores(scores, agent, prior); r.blue >= 0 && r.green >= 0
  {
    var r := CaptureScores(scores, agent, prior);
    assert r.Get(Blue) == r.blue && r.Get(Green) == r.green;
  }

  /** A capture adds at most one point to the total: one for an unowned cell or
      for an opponent cell whose owner is already at zero, none for a contested
      cell taken from a positive score, and none for a cell already owned. */
  lemma CaptureTotal(scores: PerAgent<int>, agent: Agent, prior: Owner)
    ensures Total(CaptureScores(scores, agent, prior)) - Total(scores)
         == if prior == Unowned then 1
            else if prior == Owned(agent) then 0
            else if scores.Get(agent.Opponent()) > 0 then 0
            else 1
  {
    var r := CaptureScores(scores, agent, prior);
    assert Total(r) == r.Get(agent) + r.Get(agent.Opponent());
    assert Total(scores) == scores.Get(agent) + scores.Get(agent.Opponent());
  }

  // ------------------------------------------------------------- power-ups

  /** The test of game.py:338 as a function value: the power-up sits on `c`. */
  function AtCell(c: Cell): PowerUp -> bool {
    (pu: PowerUp) => pu.cell == c
  }

  /** Where check_power_ups finds the power-up it collects: the first one on `c`. */
  function IndexOfPowerUpAt(pus: seq<PowerUp>, c: Cell): (r: Option<nat>)
    ensures r.Some? ==> r.value < |pus| && pus[r.value].cell == c
    ensures r.Some? ==> forall j :: 0 <= j < r.value ==> pus[j].cell != c
    ensures r.None? <==> !HasPowerUpAt(pus, c)
  {
    var r := FirstIndex(pus, AtCell(c));
    assert r.None? <==> forall j :: 0 <= j < |pus| ==> pus[j].cell != c;
    r
  }

  /** The parts of a match that collecting a power-up may change. */
  datatype Status = Status(powerUps: seq<PowerUp>, scores: PerAgent<int>,
                           frozenUntil: PerAgent<int>, respawnAt: Option<int>)

  /** check_power_ups (game.py:332-349) on values: without a power-up on `c`
      nothing changes; otherwise exactly one, the first on `c`, is removed,
      and the two-second respawn is armed. */
  function Collect(s: Status, agent: Agent, c: Cell, now: int): (r: Status)
    ensures !HasPowerUpAt(s.powerUps, c) ==> r == s
    ensures HasPowerUpAt(s.powerUps, c) ==>
      var taken := s.powerUps[IndexOfPowerUpAt(s.powerUps, c).value];
      taken.cell == c && |r.powerUps| == |s.powerUps| - 1
      && r.respawnAt == Some(now + RESPAWN_DELAY_MS)
  {
    match IndexOfPowerUpAt(s.powerUps, c)
    case None => s
    case Some(i) =>
      var rest := RemoveAt(s.powerUps, i);
      var armed := Some(now + RESPAWN_DELAY_MS);
      match s.powerUps[i].kind
      case Freeze =>
        Status(rest, s.scores, s.frozenUntil.With(agent.Opponent(), FreezeEnd(now)), armed)
      case Points =>
        Status(rest, s.scores.With(agent, s.scores.Get(agent) + POINTS_BONUS), s.frozenUntil, armed)
  }

  /** Collection removes exactly one power-up, the one it collects, and
      keeps all others (as a multiset). */
  lemma CollectRemovesOne(s: Status, agent: Agent, c: Cell, now: int)
    requires HasPowerUpAt(s.powerUps, c)
    ensures var taken := s.powerUps[IndexOfPowerUpAt(s.powerUps, c).value];
      multiset(Collect(s, agent, c, now).powerUps) + multiset{taken} == multiset(s.powerUps)
  {
    var i := IndexOfPowerUpAt(s.powerUps, c).value;
    RemoveAtMultiset(s.powerUps, i);
  }

  /** A Freeze freezes the opponent until five seconds from now, whatever its
      earlier freeze end was, and changes no score. */
  lemma CollectFreeze(s: Status, agent: Agent, c: Cell, now: int)
    requires HasPowerUpAt(s.powerUps, c)
    requires s.powerUps[IndexOfPowerUpAt(s.powerUps, c).value].kind == Freeze
    ensures var r := Collect(s, agent, c, now);
      r.frozenUntil.Get(agent.Opponent()) == FreezeEnd(now)
      && r.frozenUntil.Get(agent) == s.frozenUntil.Get(agent) && r.scores == s.scores
  {
  }

  /** A Points power-up adds 20 to the collector's score and nothing else. */
  lemma CollectPoints(s: Status, agent: Agent, c: Cell, now: int)
    requires HasPowerUpAt(s.powerUps, c)
    requires s.powerUps[IndexOfPowerUpAt(s.powerUps, c).value].kind == Points
    ensures var r := Collect(s, agent, c, now);
      r.scores.Get(agent) == s.scores.Get(agent) + POINTS_BONUS
      && r.scores.Get(agent.Opponent()) == s.scores.Get(agent.Opponent())
      && r.frozenUntil == s.frozenUntil
  {
  }

  /** A collection never cuts a freeze short: an agent frozen before it is
      still frozen after it (a Freeze collected by the other agent only
      moves the end to five seconds from now). */
  lemma CollectKeepsFreezes(s: Status, agent: Agent, c: Cell, now: int, a: Agent)
    requires IsFrozen(s.frozenUntil.Get(a), now)
    ensures IsFrozen(Collect(s, agent, c, now).frozenUntil.Get(a), now)
  {
    if HasPowerUpAt(s.powerUps, c) {
      var taken := s.powerUps[IndexOfPowerUpAt(s.powerUps, c).value];
      if taken.kind == Freeze {
        CollectFreeze(s, agent, c, now);
      } else {
        CollectPoints(s, agent, c, now);
      }
    }
  }

  predicate DistinctCells(pus: seq<PowerUp>) {
    forall i, j :: 0 <= i < j < |pus| ==> pus[i].cell != pus[j].cell
  }

  /** When no two power-ups share a cell, collection clears `c`, and every
      power-up left was live before, at a cell other than `c`. */
  lemma CollectClearsCell(s: Status, agent: Agent, c: Cell, now: int)
    requires DistinctCells(s.powerUps)
    ensures var r := Collect(s, agent, c, now);
      DistinctCells(r.powerUps)
      && forall pu :: pu in r.powerUps ==> pu in s.powerUps && pu.cell != c
  {
    var pus := s.powerUps;
    var found := IndexOfPowerUpAt(pus, c);
    if found.Some? {
      var i := found.value;
      var rest := RemoveAt(pus, i);
      assert Collect(s, agent, c, now).powerUps == rest;
      forall j | 0 <= j < |rest|
        ensures rest[j] in pus && rest[j].cell != c
      {
        var k := if j < i then j else j + 1;
        assert rest[j] == pus[k];
        if k < i { assert pus[k].cell != pus[i].cell; }
        else { assert pus[i].cell != pus[k].cell; }
      }
      forall j1, j2 | 0 <= j1 < j2 < |rest|
        ensures rest[j1].cell != rest[j2].cell
      {
        var k1 := if j1 < i then j1 else j1 + 1;
        var k2 := if j2 < i then j2 else j2 + 1;
        assert rest[j1] == pus[k1] && rest[j2] == pus[k2];
      }
    }
  }

  /** Neither |dx| > 2 nor |dy| > 2 fails only inside the 5x5 square centred
      on `p`: the per-axis test of game.py:122-123. */
  predicate FarFrom(c: Cell, p: Cell) {
    Abs(c.x - p.x) > 2 || Abs(c.y - p.y) > 2
  }

  /** Where spawn_power_up may put a power-up (game.py:118-123): an unowned cell
      without a power-up, on neither agent, and far from both agents. */
  predicate Placeable(owner: Owner, c: Cell, pus: seq<PowerUp>, positions: PerAgent<Cell>) {
    owner == Unowned && !HasPowerUpAt(pus, c)
    && c != positions.blue && c != positions.green
    && FarFrom(c, positions.blue) && FarFrom(c, positions.green)
  }

  /** The exclusion zone is a square, not a disc: a cell two steps away on both
      axes is refused, a cell three steps away on one axis is allowed. */
  lemma ExclusionIsSquare(p: Cell)
    ensures !FarFrom(Cell(p.x + 2, p.y + 2), p) && !FarFrom(Cell(p.x - 2, p.y - 2), p)
    ensures FarFrom(Cell(p.x + 3, p.y), p) && FarFrom(Cell(p.x, p.y - 3), p)
    ensures forall c :: FarFrom(c, p) ==> c != p
  {
  }

  // ------------------------------------------------------------ freeze

  /** frozen_until holds `ticks / 1000 + 5` seconds and is compared with
      `ticks / 1000`; kept in milliseconds it is `ticks + 5000`. */
  function FreezeEnd(now: int): int {
    now + FREEZE_DURATION * MS_PER_SECOND
  }

  /** An agent may not move while its freeze has not expired (game.py:252-254). */
  predicate IsFrozen(frozenUntil: int, now: int) {
    frozenUntil > now
  }

  /** A freeze applied at `now` holds for exactly the next five seconds. */
  lemma FreezeLastsFiveSeconds(now: int, t: int)
    requires now <= t
    ensures IsFrozen(FreezeEnd(now), t) <==> t - now < FREEZE_DURATION * MS_PER_SECOND
  {
  }

  // ------------------------------------------------------------ cadence

  function Speed(d: Difficulty): int {
    if d == Hard then HARD_SPEED else NORMAL_SPEED
  }

  /** Frames between AI moves, `int(60 / speed)` (game.py:761-763): the
      largest whole number of moves at that speed that fits in 60 frames. */
  function AiMoveDelay(d: Difficulty): (r: nat)
    ensures r * Speed(d) <= FRAMES_PER_SECOND < (r + 1) * Speed(d)
    ensures d == Hard ==> r == 5
    ensures d == Normal ==> r == 8
  {
    FRAMES_PER_SECOND / Speed(d)
  }

  /** The frame counter after one more frame (game.py:821-823): it counts up
      and falls back to zero on the frame at which the AI moves. */
  function AdvanceAiTimer(t: int, d: Difficulty): int {
    if t + 1 >= AiMoveDelay(d) then 0 else t + 1
  }

  /** The AI moves on this frame. */
  predicate AiMovesNow(t: int, d: Difficulty) {
    t + 1 >= AiMoveDelay(d)
  }

  /** The counter `n` frames after it was set to zero on entering a match. */
  function AiTimerAfter(n: nat, d: Difficulty): int {
    if n == 0 then 0 else AdvanceAiTimer(AiTimerAfter(n - 1, d), d)
  }

  /** How many of those `n` frames moved the AI. */
  function AiTurnsAfter(n: nat, d: Difficulty): nat {
    if n == 0 then 0
    else AiTurnsAfter(n - 1, d) + (if AiMovesNow(AiTimerAfter(n - 1, d), d) then 1 else 0)
  }

  /** The AI moves on every AiMoveDelay-th frame of a match and on no other:
      after `n` frames the counter reads n mod delay and the AI has moved
      n div delay times. */
  lemma {:induction false} AiCadence(n: nat, d: Difficulty)
    ensures AiTimerAfter(n, d) == n % AiMoveDelay(d)
    ensures AiTurnsAfter(n, d) == n / AiMoveDelay(d)
  {
    if n > 0 {
      AiCadence(n - 1, d);
      NextRemainder(n - 1, AiMoveDelay(d));
    }
  }

  /** Counting one further: the remainder steps up, or wraps to zero while
      the quotient steps up. Only the two delays the game uses are needed. */
  lemma NextRemainder(m: nat, k: int)
    requires k == 5 || k == 8
    ensures (m + 1) % k == (if m % k + 1 == k then 0 else m % k + 1)
    ensures (m + 1) / k == (if m % k + 1 == k then m / k + 1 else m / k)
  {
  }

  /** The delayed respawn armed by a collection is due (game.py:348, 815-817). */
  predicate RespawnDue(respawnAt: Option<int>, now: int) {
    respawnAt.Some? && now >= respawnAt.value
  }

  /** The periodic spawn is due once more than five seconds have passed since
      the last one (game.py:831-834). */
  predicate SpawnDue(last: int, now: int) {
    now - last > SPAWN_PERIOD_MS
  }

  // -------------------------------------------------------------- clock

  /** Whole seconds since the match started, `(now - start) // 1000`
      (game.py:795); Python's floor division agrees with Dafny's for a
      positive divisor. */
  function ElapsedSeconds(start: int, now: int): int {
    (now - start) / MS_PER_SECOND
  }

  predicate Expired(start: int, now: int) {
    ElapsedSeconds(start, now) >= TIME_LIMIT
  }

  /** The match is over exactly when a full minute of ticks has passed (game.py:795-797). */
  lemma ExpiredAfterOneMinute(start: int, now: int)
    ensures Expired(start, now) <==> now - start >= TIME_LIMIT * MS_PER_SECOND
  {
  }

  // ------------------------------------------------------------- layout

  const BLUE_START: Cell := Cell(1, 1)
  const GREEN_START: Cell := Cell(GRID_SIZE - 2, GRID_SIZE - 2)

  /** The board right after reset_game (game.py:727-734). */
  function StartOwner(c: Cell): Owner {
    if c == BLUE_START then Owned(Blue)
    else if c == GREEN_START then Owned(Green)
    else Unowned
  }

  function OwnedCells(owner: Cell -> Owner): set<Cell> {
    set x, y | 0 <= x < GRID_SIZE && 0 <= y < GRID_SIZE && owner(Cell(x, y)) != Unowned :: Cell(x, y)
  }

  /** A fresh match owns exactly two cells, each agent its starting cell. */
  lemma StartOwnsExactlyTwo()
    ensures OwnedCells(StartOwner) == {BLUE_START, GREEN_START}
    ensures StartOwner(BLUE_START) == Owned(Blue) && StartOwner(GREEN_START) == Owned(Green)
  {
    var s := OwnedCells(StartOwner);
    assert BLUE_START in s by { assert StartOwner(Cell(1, 1)) != Unowned; }
    assert GREEN_START in s by { assert StartOwner(Cell(18, 18)) != Unowned; }
  }

  // ------------------------------------------------------------- winner

  datatype Outcome = Won(agent: Agent) | Tie

  /** The result shown at game over (game.py:355-363): the agent with the
      strictly higher score wins; equal scores are a tie. */
  function MatchOutcome(scores: PerAgent<int>): (r: Outcome)
    ensures forall a: Agent :: r == Won(a) <==> scores.Get(a) > scores.Get(a.Opponent())
    ensures r == Tie <==> scores.blue == scores.green
  {
    if scores.blue > scores.green then Won(Blue)
    else if scores.green > scores.blue then Won(Green)
    else Tie
  }
}
