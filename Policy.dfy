/** Where an agent wants to go next (game.py:256-314): the pass-through of a
    human arrow key, and the scripted AI that prefers power-ups, then cells it
    does not own, then any neighbour. These are pure decisions over a snapshot
    of the board; applying them is the movement resolver's job (Engine). */
module Policy {
  import opened Grid

  /** The cell one arrow-key step away from `c`; Up decreases y, the screen row. */
  function Step(c: Cell, d: Direction): Cell {
    match d
    case Up => Cell(c.x, c.y - 1)
    case Down => Cell(c.x, c.y + 1)
    case Left => Cell(c.x - 1, c.y)
    case Right => Cell(c.x + 1, c.y)
  }

  /** The destination of a human arrow key, or None when the step is refused
      because it would leave the grid (game.py:260-272). */
  function HumanTarget(pos: Cell, d: Direction): (r: Option<Cell>)
    ensures r.Some? ==> r.value == Step(pos, d) && Adjacent(pos, r.value)
    ensures InBounds(pos) ==> (r.Some? <==> InBounds(Step(pos, d)))
  {
    match d
    case Up => if pos.y > 0 then Some(Step(pos, d)) else None
    case Down => if pos.y < GRID_SIZE - 1 then Some(Step(pos, d)) else None
    case Left => if pos.x > 0 then Some(Step(pos, d)) else None
    case Right => if pos.x < GRID_SIZE - 1 then Some(Step(pos, d)) else None
  }

  /** The four cardinal cells around `pos` in the order the AI examines them:
      offsets (0,1), (1,0), (0,-1), (-1,0) (game.py:275). */
  function CardinalCells(pos: Cell): seq<Cell> {
    [Cell(pos.x, pos.y + 1), Cell(pos.x + 1, pos.y), Cell(pos.x, pos.y - 1), Cell(pos.x - 1, pos.y)]
  }

  /** The AI's possible moves: the cardinal cells that stay on the grid (game.py:274-278). */
  function Neighbours(pos: Cell): (r: seq<Cell>)
    ensures forall i :: 0 <= i < |r| ==> InBounds(r[i]) && Adjacent(pos, r[i])
  {
    Filter(CardinalCells(pos), InBounds)
  }

  /** A cell as a candidate list of its own: itself when on the grid, nothing otherwise. */
  function OnGrid(c: Cell): seq<Cell> {
    if InBounds(c) then [c] else []
  }

  /** The candidates keep the source's order: each cardinal cell that stays on
      the grid, in the order (0,1), (1,0), (0,-1), (-1,0) (game.py:274-278). */
  lemma NeighboursInOrder(pos: Cell)
    ensures var cs := CardinalCells(pos);
      Neighbours(pos) == OnGrid(cs[0]) + (OnGrid(cs[1]) + (OnGrid(cs[2]) + OnGrid(cs[3])))
  {
    var cs := CardinalCells(pos);
    var f0 := Filter(cs, InBounds);
    assert Neighbours(pos) == f0;
    FilterCons(cs[3], [], InBounds);
    assert [cs[3]] + [] == cs[3..];
    var f3 := Filter(cs[3..], InBounds);
    assert f3 == OnGrid(cs[3]);
    FilterCons(cs[2], cs[3..], InBounds);
    assert [cs[2]] + cs[3..] == cs[2..];
    var f2 := Filter(cs[2..], InBounds);
    assert f2 == OnGrid(cs[2]) + f3;
    FilterCons(cs[1], cs[2..], InBounds);
    assert [cs[1]] + cs[2..] == cs[1..];
    var f1 := Filter(cs[1..], InBounds);
    assert f1 == OnGrid(cs[1]) + f2;
    FilterCons(cs[0], cs[1..], InBounds);
    assert [cs[0]] + cs[1..] == cs;
    assert f0 == OnGrid(cs[0]) + f1;
  }

  /** Every on-grid cell one step from `pos` is a possible move, and an agent
      standing on the grid always has one (so game.py:281-282 never fires). */
  lemma NeighboursComplete(pos: Cell, c: Cell)
    requires InBounds(c) && Adjacent(pos, c)
    ensures c in Neighbours(pos)
  {
    var cs := CardinalCells(pos);
    var k := if c == cs[0] then 0 else if c == cs[1] then 1 else if c == cs[2] then 2 else 3;
    assert cs[k] == c;
  }

  lemma NeighboursNonEmpty(pos: Cell)
    requires InBounds(pos)
    ensures Neighbours(pos) != []
  {
    var c := if pos.y + 1 < GRID_SIZE then Cell(pos.x, pos.y + 1) else Cell(pos.x, pos.y - 1);
    NeighboursComplete(pos, c);
  }

  /** The test of game.py:291-292 as a function value: the cell holds a live power-up. */
  function HoldsPowerUp(pus: seq<PowerUp>): Cell -> bool {
    c => HasPowerUpAt(pus, c)
  }

  /** The moves onto a cell the agent does not own, i.e. unowned or held by
      the opponent (game.py:299-302). */
  function GoodMoves(board: array2<Owner>, agent: Agent, moves: seq<Cell>): (r: seq<Cell>)
    reads board
    requires IsGrid(board)
    requires forall i :: 0 <= i < |moves| ==> InBounds(moves[i])
    ensures forall i :: 0 <= i < |r| ==> r[i] in moves && InBounds(r[i]) && OwnerAt(board, r[i]) != Owned(agent)
    ensures forall j :: 0 <= j < |moves| && OwnerAt(board, moves[j]) != Owned(agent) ==> moves[j] in r
  {
    if moves == [] then []
    else
      var rest := GoodMoves(board, agent, moves[1..]);
      if OwnerAt(board, moves[0]) != Owned(agent) then [moves[0]] + rest else rest
  }

  lemma {:induction false} NoGoodMoves(board: array2<Owner>, agent: Agent, moves: seq<Cell>)
    requires IsGrid(board)
    requires forall i :: 0 <= i < |moves| ==> InBounds(moves[i]) && OwnerAt(board, moves[i]) == Owned(agent)
    ensures GoodMoves(board, agent, moves) == []
  {
    if moves != [] {
      NoGoodMoves(board, agent, moves[1..]);
    }
  }

  /** The probability that the AI makes a "smart" choice (game.py:58-59, 284). */
  function Smartness(d: Difficulty): real {
    if d == Hard then 0.9 else 0.7
  }

  /** What the random number generator supplies to one AI decision: the value
      of random.random() and the index random.choice draws (taken modulo the
      number of choices). */
  datatype AiDraw = AiDraw(roll: real, pick: nat)

  /** The AI's chosen destination (game.py:274-313): the first neighbour holding
      a power-up; otherwise a drawn neighbour the agent does not own; otherwise
      a drawn neighbour. None only when there is no neighbour at all. */
  function AiTarget(board: array2<Owner>, pus: seq<PowerUp>, agent: Agent, pos: Cell,
                    difficulty: Difficulty, draw: AiDraw): (r: Option<Cell>)
    reads board
    requires IsGrid(board)
    ensures r.Some? ==> r.value in Neighbours(pos)
    ensures r.None? <==> Neighbours(pos) == []
  {
    var moves := Neighbours(pos);
    if moves == [] then None
    else match FirstIndex(moves, HoldsPowerUp(pus))
      case Some(i) => Some(moves[i])
      case None =>
        var good := GoodMoves(board, agent, moves);
        if good != [] then
          if draw.roll < Smartness(difficulty) then Some(good[draw.pick % |good|])
          else Some(good[draw.pick % |good|])
        else Some(moves[draw.pick % |moves|])
  }

  /** Every AI move is one cardinal step onto the grid. */
  lemma AiTargetIsStep(board: array2<Owner>, pus: seq<PowerUp>, agent: Agent, pos: Cell,
                       difficulty: Difficulty, draw: AiDraw)
    requires IsGrid(board)
    ensures var r := AiTarget(board, pus, agent, pos, difficulty, draw);
      r.Some? ==> InBounds(r.value) && Adjacent(pos, r.value)
  {
  }

  /** When a neighbour holds a power-up, the AI goes to the first such
      neighbour in the order down, right, up, left. */
  lemma AiTakesFirstPowerUp(board: array2<Owner>, pus: seq<PowerUp>, agent: Agent, pos: Cell,
                            difficulty: Difficulty, draw: AiDraw, c: Cell)
    requires IsGrid(board)
    requires c in Neighbours(pos) && HasPowerUpAt(pus, c)
    ensures var moves := Neighbours(pos);
      exists i :: 0 <= i < |moves| && AiTarget(board, pus, agent, pos, difficulty, draw) == Some(moves[i])
        && HasPowerUpAt(pus, moves[i]) && forall j :: 0 <= j < i ==> !HasPowerUpAt(pus, moves[j])
  {
    var moves := Neighbours(pos);
    var k :| 0 <= k < |moves| && moves[k] == c;
    var first := FirstIndex(moves, HoldsPowerUp(pus));
    assert first.Some?;
  }

  /** With no power-up next to it, the AI takes a cell it does not own whenever
      one is available. */
  lemma AiPrefersUnowned(board: array2<Owner>, pus: seq<PowerUp>, agent: Agent, pos: Cell,
                         difficulty: Difficulty, draw: AiDraw, c: Cell)
    requires IsGrid(board)
    requires forall m :: m in Neighbours(pos) ==> !HasPowerUpAt(pus, m)
    requires c in Neighbours(pos) && OwnerAt(board, c) != Owned(agent)
    ensures var r := AiTarget(board, pus, agent, pos, difficulty, draw);
      r.Some? && OwnerAt(board, r.value) != Owned(agent)
  {
    var moves := Neighbours(pos);
    var k :| 0 <= k < |moves| && moves[k] == c;
    assert FirstIndex(moves, HoldsPowerUp(pus)).None?;
    assert c in GoodMoves(board, agent, moves);
  }

  /** With no power-up next to it, the AI's move is the drawn index into its
      good moves, or into all its moves when it has no good move. */
  lemma AiDrawsWithoutPowerUp(board: array2<Owner>, pus: seq<PowerUp>, agent: Agent, pos: Cell,
                              difficulty: Difficulty, draw: AiDraw)
    requires IsGrid(board)
    requires Neighbours(pos) != [] && FirstIndex(Neighbours(pos), HoldsPowerUp(pus)).None?
    ensures var moves := Neighbours(pos);
      var good := GoodMoves(board, agent, moves);
      AiTarget(board, pus, agent, pos, difficulty, draw)
        == if good != [] then Some(good[draw.pick % |good|]) else Some(moves[draw.pick % |moves|])
  {
  }

  /** A draw below the number of choices picks that very index. */
  lemma SmallIndexMod(i: nat, n: nat)
    requires i < n
    ensures i % n == i
  {
  }

  /** random.choice may return any of the cells it is offered: with no power-up
      next to it, every neighbour the agent does not own is the AI's move for
      some draw, and when it owns every neighbour, every neighbour is. */
  lemma AiMayPickAnyUnowned(board: array2<Owner>, pus: seq<PowerUp>, agent: Agent, pos: Cell,
                            difficulty: Difficulty, c: Cell)
    requires IsGrid(board)
    requires forall m :: m in Neighbours(pos) ==> !HasPowerUpAt(pus, m)
    requires c in Neighbours(pos) && OwnerAt(board, c) != Owned(agent)
    ensures exists draw :: AiTarget(board, pus, agent, pos, difficulty, draw) == Some(c)
  {
    var moves := Neighbours(pos);
    assert FirstIndex(moves, HoldsPowerUp(pus)).None?;
    var k :| 0 <= k < |moves| && moves[k] == c;
    var good := GoodMoves(board, agent, moves);
    assert c in good;
    var g :| 0 <= g < |good| && good[g] == c;
    SmallIndexMod(g, |good|);
    AiDrawsWithoutPowerUp(board, pus, agent, pos, difficulty, AiDraw(0.0, g));
  }

  lemma AiMayPickAnyWhenAllOwned(board: array2<Owner>, pus: seq<PowerUp>, agent: Agent, pos: Cell,
                                 difficulty: Difficulty, c: Cell)
    requires IsGrid(board)
    requires forall m :: m in Neighbours(pos) ==> !HasPowerUpAt(pus, m) && OwnerAt(board, m) == Owned(agent)
    requires c in Neighbours(pos)
    ensures exists draw :: AiTarget(board, pus, agent, pos, difficulty, draw) == Some(c)
  {
    var moves := Neighbours(pos);
    assert FirstIndex(moves, HoldsPowerUp(pus)).None?;
    forall i | 0 <= i < |moves|
      ensures OwnerAt(board, moves[i]) == Owned(agent)
    {
      assert moves[i] in Neighbours(pos);
    }
    NoGoodMoves(board, agent, moves);
    var k :| 0 <= k < |moves| && moves[k] == c;
    SmallIndexMod(k, |moves|);
    AiDrawsWithoutPowerUp(board, pus, agent, pos, difficulty, AiDraw(0.0, k));
  }

  /** The smartness roll decides nothing: both of its branches make the same
      choice (game.py:305-309), so difficulty and roll do not affect the move. */
  lemma SmartnessHasNoEffect(board: array2<Owner>, pus: seq<PowerUp>, agent: Agent, pos: Cell,
                             d1: Difficulty, d2: Difficulty, roll1: real, roll2: real, pick: nat)
    requires IsGrid(board)
    ensures AiTarget(board, pus, agent, pos, d1, AiDraw(roll1, pick))
         == AiTarget(board, pus, agent, pos, d2, AiDraw(roll2, pick))
  {
  }
}
