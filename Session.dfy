/** The main loop of game.py (game_loop, game.py:745-855) without its
    drawing: which screen is active, the chosen mode and difficulty, and, while
    a match is played, the per-frame work: reset on entry, the one-minute
    expiry, the player's keys, the delayed respawn, the AI cadence and the
    periodic spawn. */
module GameLoop {
  import opened Grid
  import opened Policy
  import opened Rules
  import opened Engine

  /** The keys the match screen reacts to; every other key is OtherKey. */
  datatype Key = Arrow(d: Direction) | Escape | OtherKey

  /** The input events of one frame, in the order pygame delivers them. */
  datatype Event = KeyDown(key: Key) | Quit

  /** The random draws one frame may need: those of reset_game (one per
      spawn attempt, two or three), of the delayed and of the periodic spawn,
      and of each AI decision. */
  datatype TickDraws = TickDraws(reset: seq<SpawnDraw>, respawn: SpawnDraw, periodic: SpawnDraw,
                                 blueAi: AiDraw, greenAi: AiDraw)

  predicate ValidTickDraws(t: TickDraws) {
    2 <= |t.reset| <= 3 && (forall i :: 0 <= i < |t.reset| ==> ValidDraw(t.reset[i]))
    && ValidDraw(t.respawn) && ValidDraw(t.periodic)
  }

  /** The turns taken during one frame's event loop: one turn of blue for
      each arrow key in a human-versus-AI match (game.py:805-808). */
  function KeyTurns(mode: GameMode, events: seq<Event>): seq<Action> {
    if events == [] then []
    else KeyTurns(mode, events[..|events| - 1]) + KeyTurn(mode, events[|events| - 1])
  }

  /** The turn one event causes: an arrow key moves blue against the AI. */
  function KeyTurn(mode: GameMode, e: Event): seq<Action> {
    if mode == HumanVsAi && e.KeyDown? && e.key.Arrow? then [Turn(Blue)] else []
  }

  /** Handling one more event extends the turns taken so far by that event's turn. */
  lemma KeyTurnsStep(start: seq<Action>, mode: GameMode, events: seq<Event>, i: nat, before: seq<Action>, after: seq<Action>)
    requires i < |events| && before == start + KeyTurns(mode, events[..i])
    requires after == before + KeyTurn(mode, events[i])
    ensures after == start + KeyTurns(mode, events[..i + 1])
  {
    assert events[..i + 1][..i] == events[..i];
    assert start + KeyTurns(mode, events[..i]) + KeyTurn(mode, events[i])
        == start + (KeyTurns(mode, events[..i]) + KeyTurn(mode, events[i]));
  }

  /** Only the human player's agent moves on keys, only against the AI, and
      once per key exactly when every event is an arrow key. */
  lemma {:induction false} KeyTurnsAreBlueArrows(mode: GameMode, events: seq<Event>)
    ensures forall i :: 0 <= i < |KeyTurns(mode, events)| ==> KeyTurns(mode, events)[i] == Turn(Blue)
    ensures mode == AiVsAi ==> KeyTurns(mode, events) == []
    ensures mode == HumanVsAi ==>
      (|KeyTurns(mode, events)| == |events| <==> forall i :: 0 <= i < |events| ==> events[i].KeyDown? && events[i].key.Arrow?)
    ensures |KeyTurns(mode, events)| <= |events|
  {
    if events != [] {
      var init := events[..|events| - 1];
      KeyTurnsAreBlueArrows(mode, init);
      assert forall i :: 0 <= i < |init| ==> init[i] == events[i];
    }
  }

  /** The agents that move on the AI's turn, in order (game.py:824-828). */
  function AiMovers(mode: GameMode): seq<Action> {
    if mode == HumanVsAi then [Turn(Green)] else [Turn(Blue), Turn(Green)]
  }

  /** Where each menu screen may lead (game.py:420-597, 352-418): the main
      menu to mode selection or customization (or back to itself), mode
      selection to the menu or difficulty selection, difficulty selection back
      to mode selection or into a match, customization to the menu, and the
      game-over screen into a new match or the menu. */
  predicate ScreenLeadsTo(from: GameState, next: GameState) {
    match from
    case Menu => next in {Menu, ModeSelect, Customization}
    case ModeSelect => next in {Menu, DifficultySelect}
    case DifficultySelect => next in {ModeSelect, Playing}
    case Customization => next == Menu
    case GameOver => next in {Playing, Menu}
    case Playing => false
  }

  class Session {
    var state: GameState
    var mode: GameMode
    var difficulty: Difficulty
    var startTime: int       // tick of the first match frame; 0 means "not started"
    var aiTimer: int         // frames since the AI last moved
    var spawnTimer: int      // tick of the last periodic spawn
    var running: bool
    const game: Match

    /** The loop invariant: the match state is valid, the start time is
        cleared whenever no match is on screen, and inside a started match
        the frame counter is below the AI's delay. */
    ghost predicate Valid()
      reads this, game, game.board
    {
      game.Valid() && aiTimer >= 0
      && (state != Playing ==> startTime == 0)
      && (state == Playing && startTime != 0 ==> aiTimer < AiMoveDelay(difficulty))
    }

    /** The program starts on the menu with the default settings
        (game.py:72-74, 755-759). */
    constructor (now: int)
      ensures Valid() && fresh(game)
      ensures state == Menu && mode == HumanVsAi && difficulty == Normal
      ensures startTime == 0 && aiTimer == 0 && spawnTimer == now && running
    {
      state := Menu;
      mode := HumanVsAi;
      difficulty := Normal;
      startTime := 0;
      aiTimer := 0;
      spawnTimer := now;
      running := true;
      game := new Match();
    }

    /** One pass of the loop on a menu screen (game.py:766-785, 845-847): the
        screen's choice becomes the state. Mode selection records the chosen
        mode only when it leads on to difficulty selection, and difficulty
        selection records the chosen difficulty only when it starts a match;
        going back keeps the current setting (game.py:530-538, 588-597).
        Leaving the game-over screen clears the start time. */
    method ScreenStep(next: GameState, chosenMode: GameMode, chosenDifficulty: Difficulty)
      requires Valid() && ScreenLeadsTo(state, next)
      modifies this`state, this`mode, this`difficulty, this`startTime
      ensures Valid() && state == next
      ensures mode == (if old(state) == ModeSelect && next == DifficultySelect then chosenMode else old(mode))
      ensures difficulty == (if old(state) == DifficultySelect && next == Playing then chosenDifficulty else old(difficulty))
      ensures startTime == 0
    {
      match state {
        case ModeSelect =>
          if next == DifficultySelect {
            mode := chosenMode;
          }
        case DifficultySelect =>
          if next == Playing {
            difficulty := chosenDifficulty;
          }
        case GameOver =>
          startTime := 0;
        case _ =>
      }
      state := next;
    }

    /** One frame of a match at tick `now` (game.py:787-834). A frame that
        finds the start time cleared resets the match first. A frame at or
        after the one-minute mark only moves to the game-over screen. Otherwise
        each arrow key moves blue in a human-versus-AI match, Escape returns to
        the menu and Quit stops the loop (neither ends the frame early); then
        the delayed respawn, the AI's turn every AiMoveDelay frames, and the
        periodic spawn. */
    method PlayingTick(now: int, events: seq<Event>, draws: TickDraws)
      requires Valid() && state == Playing && ValidTickDraws(draws)
      modifies this, game, game.board
      ensures Valid() && mode == old(mode) && difficulty == old(difficulty)
      ensures old(startTime) == 0 ==> fresh(game.board)
      ensures old(startTime) != 0 && Expired(old(startTime), now) ==>
        state == GameOver && startTime == 0 && running == old(running)
        && aiTimer == old(aiTimer) && spawnTimer == old(spawnTimer)
        && unchanged(game) && unchanged(old(game.board))
      ensures var start := if old(startTime) == 0 then now else old(startTime);
        var lastSpawn := if old(startTime) == 0 then now else old(spawnTimer);
        !Expired(start, now) ==>
          state == (if KeyDown(Escape) in events then Menu else Playing)
          && startTime == (if KeyDown(Escape) in events then 0 else start)
          && running == (old(running) && Quit !in events)
          && aiTimer == AdvanceAiTimer(if old(startTime) == 0 then 0 else old(aiTimer), difficulty)
          && spawnTimer == (if SpawnDue(lastSpawn, now) then now else lastSpawn)
    {
      if startTime == 0 {
        EnterMatch(now, draws.reset);
      }
      if Expired(startTime, now) {
        state := GameOver;
        startTime := 0;
        return;
      }
      MatchFrame(now, events, draws);
    }

    /** A match frame that has not expired (game.py:801-834): the key events,
        then the delayed respawn, the AI's turn and the periodic spawn. The
        turns taken are one blue turn per arrow key against the AI, then the
        AI's movers on its turn; the spawn attempts are the respawn, when a
        collection earlier in the frame or before it has made it due, and the
        periodic spawn when due. */
    method MatchFrame(now: int, events: seq<Event>, draws: TickDraws)
      requires Valid() && state == Playing && ValidTickDraws(draws)
      modifies this`state, this`startTime, this`running, this`aiTimer, this`spawnTimer, game, game.board
      ensures game.Valid() && game.board == old(game.board)
      ensures state == (if KeyDown(Escape) in events then Menu else Playing)
      ensures startTime == (if KeyDown(Escape) in events then 0 else old(startTime))
      ensures running == (old(running) && Quit !in events)
      ensures aiTimer == AdvanceAiTimer(old(aiTimer), difficulty)
      ensures spawnTimer == (if SpawnDue(old(spawnTimer), now) then now else old(spawnTimer))
      ensures var keys := old(game.log) + KeyTurns(mode, events);
        var ai := if AiMovesNow(old(aiTimer), difficulty) then AiMovers(mode) else [];
        var spawn := if SpawnDue(old(spawnTimer), now) then [SpawnAttempt] else [];
        game.log == keys + ai + spawn || game.log == keys + [SpawnAttempt] + ai + spawn
      // a frame without a turn or a spawn leaves the match alone
      ensures KeyTurns(mode, events) == [] && !RespawnDue(old(game.respawnAt), now)
              && !AiMovesNow(old(aiTimer), difficulty) && !SpawnDue(old(spawnTimer), now)
              ==> unchanged(game, old(game.board))
    {
      HandleEvents(now, events, draws.blueAi);
      EndFrame(now, draws);
    }

    /** The first frame of a match (game.py:788-792): reset_game, and the
        start time and both frame timers taken from this tick. */
    method EnterMatch(now: int, resetDraws: seq<SpawnDraw>)
      requires Valid() && state == Playing && startTime == 0
      requires 2 <= |resetDraws| <= 3 && forall i :: 0 <= i < |resetDraws| ==> ValidDraw(resetDraws[i])
      modifies this`startTime, this`aiTimer, this`spawnTimer, game
      ensures Valid() && fresh(game.board)
      ensures startTime == now && aiTimer == 0 && spawnTimer == now
      ensures forall x, y :: 0 <= x < GRID_SIZE && 0 <= y < GRID_SIZE ==> game.board[x, y] == StartOwner(Cell(x, y))
      ensures game.positions == PerAgent(BLUE_START, GREEN_START)
      ensures game.scores == PerAgent(1, 1) && game.frozenUntil == PerAgent(0, 0)
      ensures |game.powerUps| <= |resetDraws| && game.respawnAt == None
      ensures game.log == old(game.log) + Attempts(|resetDraws|)
    {
      game.Reset(resetDraws);
      startTime := now;
      aiTimer := 0;
      spawnTimer := now;
    }

    /** The event loop of a match frame (game.py:800-818, the timer event
        aside): each arrow key moves blue at once in a human-versus-AI match;
        Escape returns to the menu and clears the start time; Quit stops the
        main loop. The frame goes on in every case. */
    method HandleEvents(now: int, events: seq<Event>, draw: AiDraw)
      requires Valid() && state == Playing
      modifies this`state, this`startTime, this`running, game, game.board
      ensures Valid()
      ensures state == (if KeyDown(Escape) in events then Menu else Playing)
      ensures startTime == (if KeyDown(Escape) in events then 0 else old(startTime))
      ensures running == (old(running) && Quit !in events)
      ensures game.board == old(game.board)
      ensures game.log == old(game.log) + KeyTurns(mode, events)
      // without a turn the match is left alone
      ensures KeyTurns(mode, events) == [] ==> unchanged(game, old(game.board))
    {
      var i := 0;
      while i < |events|
        invariant 0 <= i <= |events|
        invariant game.Valid() && game.board == old(game.board)
        invariant state == (if KeyDown(Escape) in events[..i] then Menu else Playing)
        invariant startTime == (if KeyDown(Escape) in events[..i] then 0 else old(startTime))
        invariant running == (old(running) && Quit !in events[..i])
        invariant game.log == old(game.log) + KeyTurns(mode, events[..i])
        invariant KeyTurns(mode, events[..i]) == [] ==> unchanged(game, old(game.board))
      {
        assert events[..i + 1] == events[..i] + [events[i]];
        ghost var before := game.log;
        HandleEvent(now, events[i], draw);
        KeyTurnsStep(old(game.log), mode, events, i, before, game.log);
        i := i + 1;
      }
      assert events[..i] == events;
    }

    /** One event of the frame's event loop (game.py:801-813): Quit stops the
        loop, an arrow key moves blue against the AI, Escape returns to the
        menu. */
    method HandleEvent(now: int, e: Event, draw: AiDraw)
      requires game.Valid()
      modifies this`state, this`startTime, this`running, game, game.board
      ensures game.Valid() && game.board == old(game.board)
      ensures state == (if e == KeyDown(Escape) then Menu else old(state))
      ensures startTime == (if e == KeyDown(Escape) then 0 else old(startTime))
      ensures running == (old(running) && e != Quit)
      ensures game.log == old(game.log) + KeyTurn(mode, e)
      // an arrow key against the AI is blue's turn as move_agent makes it
      ensures mode == HumanVsAi && e.KeyDown? && e.key.Arrow? ==>
        game.TookTurn(Blue, mode, Some(e.key.d), difficulty, now, draw)
      // any other event leaves the match alone
      ensures KeyTurn(mode, e) == [] ==> unchanged(game, old(game.board))
    {
      match e {
        case Quit =>
          running := false;
        case KeyDown(key) =>
          if mode == HumanVsAi && key.Arrow? {
            game.MoveAgent(Blue, mode, Some(key.d), difficulty, now, draw);
          }
          if key == Escape {
            state := Menu;
            startTime := 0;
          }
      }
    }

    /** The rest of a match frame (game.py:815-834): the delayed respawn once
        it is due, the AI's turn when the frame counter reaches the delay
        (green alone against a human, blue then green otherwise), and a spawn
        when more than five seconds have passed since the last one. */
    method EndFrame(now: int, draws: TickDraws)
      requires game.Valid() && aiTimer >= 0 && ValidTickDraws(draws)
      modifies this`aiTimer, this`spawnTimer, game, game.board
      ensures game.Valid() && game.board == old(game.board)
      ensures aiTimer == AdvanceAiTimer(old(aiTimer), difficulty)
      ensures spawnTimer == (if SpawnDue(old(spawnTimer), now) then now else old(spawnTimer))
      ensures game.log == old(game.log)
        + (if RespawnDue(old(game.respawnAt), now) then [SpawnAttempt] else [])
        + (if AiMovesNow(old(aiTimer), difficulty) then AiMovers(mode) else [])
        + (if SpawnDue(old(spawnTimer), now) then [SpawnAttempt] else [])
      // with nothing due the match is left alone
      ensures !RespawnDue(old(game.respawnAt), now) && !AiMovesNow(old(aiTimer), difficulty)
              && !SpawnDue(old(spawnTimer), now)
              ==> unchanged(game, old(game.board))
    {
      game.RespawnIfDue(now, draws.respawn);
      AiStep(now, draws.blueAi, draws.greenAi);
      PeriodicSpawn(now, draws.periodic);
    }

    /** The AI cadence of a match frame (game.py:821-828): the frame counter
        advances, and on reaching the delay it falls back to zero and the AI
        takes its turn. */
    method AiStep(now: int, blueDraw: AiDraw, greenDraw: AiDraw)
      requires game.Valid() && aiTimer >= 0
      modifies this`aiTimer, game, game.board
      ensures game.Valid() && game.board == old(game.board)
      ensures aiTimer == AdvanceAiTimer(old(aiTimer), difficulty)
      ensures game.log == old(game.log) + (if AiMovesNow(old(aiTimer), difficulty) then AiMovers(mode) else [])
      ensures AiMovesNow(old(aiTimer), difficulty) ==> AiTurnTaken(now, blueDraw, greenDraw)
      ensures !AiMovesNow(old(aiTimer), difficulty) ==> unchanged(game, old(game.board))
    {
      // the turn reads nothing of the counter, so it may come before the reset
      if aiTimer + 1 >= AiMoveDelay(difficulty) {
        AiTurn(now, blueDraw, greenDraw);
        aiTimer := 0;
      } else {
        aiTimer := aiTimer + 1;
      }
    }

    /** The periodic spawn (game.py:831-834): one spawn attempt when more than
        five seconds have passed since the last, which restarts the period. */
    method PeriodicSpawn(now: int, draw: SpawnDraw)
      requires game.Valid() && ValidDraw(draw)
      modifies this`spawnTimer, game`powerUps, game`log
      ensures game.Valid()
      ensures game.log == old(game.log) + (if SpawnDue(old(spawnTimer), now) then [SpawnAttempt] else [])
      ensures if SpawnDue(old(spawnTimer), now)
              then spawnTimer == now && game.powerUps == old(game.SpawnResult(draw))
              else spawnTimer == old(spawnTimer) && game.powerUps == old(game.powerUps)
    {
      if now - spawnTimer > SPAWN_PERIOD_MS {
        game.SpawnPowerUp(draw);
        spawnTimer := now;
      }
    }

    /** The effect of the AI's turn on the match (game.py:824-828). Against
        a human, green's turn as move_agent makes it. In an AI-versus-AI match,
        when one agent starts the turn frozen, the turn is the other agent's
        alone, as move_agent makes it (so nothing moves when both are frozen). */
    twostate predicate AiTurnTaken(now: int, blueDraw: AiDraw, greenDraw: AiDraw)
      reads this`mode, this`difficulty, game, game.board
      requires old(game.Valid())
    {
      (mode == HumanVsAi ==> game.TookTurn(Green, mode, None, difficulty, now, greenDraw))
      && (mode == AiVsAi && old(IsFrozen(game.frozenUntil.Get(Blue), now)) ==>
            game.TookTurn(Green, mode, None, difficulty, now, greenDraw))
      && (mode == AiVsAi && old(IsFrozen(game.frozenUntil.Get(Green), now)) ==>
            game.TookTurn(Blue, mode, None, difficulty, now, blueDraw))
    }

    /** The AI's turn (game.py:824-828): green moves against a human player;
        in an AI-versus-AI match blue moves first, then green. */
    method AiTurn(now: int, blueDraw: AiDraw, greenDraw: AiDraw)
      requires game.Valid()
      modifies game, game.board
      ensures game.Valid() && game.board == old(game.board)
      ensures game.log == old(game.log) + AiMovers(mode)
      ensures AiTurnTaken(now, blueDraw, greenDraw)
    {
      if mode == HumanVsAi {
        game.MoveAgent(Green, mode, None, difficulty, now, greenDraw);
      } else {
        BothAiTurns(now, blueDraw, greenDraw);
      }
    }

    /** The AI-versus-AI turn (game.py:826-828): blue moves, then green. An
        agent frozen at the start of the turn is still frozen for its own
        call, so the turn is then the other agent's move alone. */
    method BothAiTurns(now: int, blueDraw: AiDraw, greenDraw: AiDraw)
      requires game.Valid() && mode == AiVsAi
      modifies game, game.board
      ensures game.Valid() && game.board == old(game.board)
      ensures game.log == old(game.log) + [Turn(Blue), Turn(Green)]
      ensures old(IsFrozen(game.frozenUntil.Get(Blue), now)) ==>
        game.TookTurn(Green, mode, None, difficulty, now, greenDraw)
      ensures old(IsFrozen(game.frozenUntil.Get(Green), now)) ==>
        game.TookTurn(Blue, mode, None, difficulty, now, blueDraw)
    {
      ghost var blueFrozen := IsFrozen(game.frozenUntil.Get(Blue), now);
      ghost var greenFrozen := IsFrozen(game.frozenUntil.Get(Green), now);
      ghost var blueDest := game.Destination(Blue, mode, None, difficulty, now, blueDraw);
      ghost var greenDest := game.Destination(Green, mode, None, difficulty, now, greenDraw);
      if greenFrozen && blueDest.Some? {
        // a collection by blue cannot thaw green
        var captured := game.CurrentStatus().(scores := CaptureScores(game.scores, Blue,
          game.board[blueDest.value.x, blueDest.value.y]));
        CollectKeepsFreezes(captured, Blue, blueDest.value, now, Green);
      }
      game.MoveAgent(Blue, mode, None, difficulty, now, blueDraw);
      ghost var afterBlue := game.log;
      if greenFrozen {
        assert IsFrozen(game.frozenUntil.Get(Green), now);
      }
      if blueFrozen {
        // blue's call changed nothing that green's choice reads
        assert game.Destination(Green, mode, None, difficulty, now, greenDraw) == greenDest;
      }
      game.MoveAgent(Green, mode, None, difficulty, now, greenDraw);
      if blueFrozen {
        if greenDest.None? {
          assert game.Unchanged();
        } else {
          assert game.MovedTo(Green, greenDest.value, now);
        }
      }
      if greenFrozen {
        // green was still frozen for its own call, so the turn is blue's alone
        if blueDest.None? {
          assert game.Unchanged();
        } else {
          assert game.MovedTo(Blue, blueDest.value, now);
        }
      }
      assert game.log == afterBlue + [Turn(Green)];
      AppendPair(old(game.log), Turn(Blue), Turn(Green));
    }
  }
}
