# Territory game: a verified model of the simulation core

`game.py` is a pygame territory game. Two agents, blue and green, walk a
20x20 grid. Each step onto a cell makes the cell theirs and adjusts the
scores. Power-ups appear on free cells: Freeze stops the opponent for five
seconds, and Points adds 20 to the collector's score. A match lasts one
minute, and the higher score wins.

This project models the part of the program that runs the game rather than
drawing it:

- the movement resolver (`move_agent`);
- the scripted AI and the human arrow keys;
- the power-up manager (`spawn_power_up`, `check_power_ups`);
- the match reset;
- the per-frame work of the main loop: expiry, keys, AI cadence and spawn timers;
- the winner rule.

The model is organised in five modules:

- `Grid` (Grid.dfy) holds the vocabulary of the game and its constants: cells, owners, agents, power-ups, and per-agent pairs for the source's two-entry dictionaries. It also has a few generic sequence helpers.
- `Policy` (Policy.dfy) holds the decision of where an agent goes, as pure functions over a snapshot of the board.
- `Rules` (Rules.dfy) holds the bookkeeping rules as pure functions, with lemmas about them. These are:
  - score changes on capture;
  - finding and collecting a power-up;
  - the placement test;
  - the freeze clock;
  - the AI delay and cadence;
  - the match clock;
  - the starting layout;
  - the winner.
- `Engine` (Match.dfy) has the class `Match`. It holds the module-level globals of the game: the board as an `array2`, scores, positions, freeze ends, the live power-ups, and the pending delayed respawn. Its methods change them in place as the source does, and each is proved against the Rules functions. `SpawnPowerUp`, `ApplyMove`, `MoveAgent`, `StartLayout`, `Reset` and `RespawnIfDue` also keep the invariant `Valid()`. `Claim` and `CheckPowerUps` are the two halves of a move and may break it between them; `ApplyMove` restores it. The invariant says:
  - scores are never negative;
  - at most three power-ups are live;
  - each power-up sits alone on an unowned cell that no agent stands on.
- `GameLoop` (Session.dfy) has the class `Session`: the main loop's own variables and one frame of a match.

`Match` also keeps a ghost field `log`, the record of what the game did: one `Turn(agent)` entry per `move_agent` call and one `SpawnAttempt` entry per `spawn_power_up` call. The methods that move agents or spawn power-ups state how they extend it. This is how the contracts of the frame-level methods say which agents took a turn (called `move_agent`), and in what order: one blue turn per arrow key against the AI, then green alone or blue then green on the AI's turn. A turn is not a move: a frozen agent or a refused key takes a turn and changes nothing. What a turn does to the match is the twostate predicate `Match.TookTurn`, which `MoveAgent` ensures: nothing when the agent has no destination, otherwise the move onto it (`MovedTo`). The frame-level methods carry that effect as far as their contracts say, and state the match unchanged when no turn and no spawn happen.

Time is an integer count of milliseconds, the unit of the pygame tick counter.
- The source keeps freeze ends in float seconds as `ticks / 1000 + 5` and compares them with `ticks / 1000`. The model keeps them in exact milliseconds and tests `ticks + 5000 > now`. This is the source's test in exact arithmetic; the floating-point rounding is left out (see below).
- Every read of the clock within one call or frame is one parameter, `now`.

Randomness is a parameter too:
- A spawn takes its ten candidate cells and the kind it would pick (`SpawnDraw`).
- An AI decision takes the value of `random.random()` and the index that `random.choice` draws, taken modulo the number of choices (`AiDraw`). Every choice is therefore reachable, and the AiMayPickAny lemmas prove that it is.
- A reset spawns once for each draw it is given, two or three times.

## Model

| member | source | states |
|---|---|---|
| Policy.HumanTarget | game.py:260-272 | an arrow key yields exactly the one-step neighbour in its direction, and yields a move if and only if that neighbour is on the grid |
| Policy.Neighbours | game.py:274-278 | every AI candidate is on the grid and one cardinal step from the agent |
| Policy.NeighboursInOrder | game.py:274-278 | the candidates are the cardinal cells that stay on the grid, in the order (0,1),(1,0),(0,-1),(-1,0) |
| Policy.NeighboursComplete | game.py:274-278 | conversely, every on-grid cell one cardinal step away is a candidate |
| Policy.NeighboursNonEmpty | game.py:281-282 | an agent on the grid always has a candidate, so the early return never happens |
| Policy.GoodMoves | game.py:298-302 | the good moves are exactly the candidates the agent does not own: unowned or held by the opponent |
| Policy.NoGoodMoves | game.py:310-311 | when the agent owns every candidate there is no good move |
| Policy.AiTarget | game.py:273-314 | the AI's move is always one of its candidates, and it has none only when there is no candidate |
| Policy.AiTargetIsStep | game.py:273-314 | every AI move is an on-grid cardinal step |
| Policy.AiTakesFirstPowerUp | game.py:289-295 | when a candidate holds a power-up, the AI moves to the first such candidate in the order (0,1),(1,0),(0,-1),(-1,0) |
| Policy.AiPrefersUnowned | game.py:297-309 | with no power-up next to it, the AI moves to a cell it does not own whenever one is available |
| Policy.AiMayPickAnyUnowned | game.py:304-309 | with no power-up next to it, every good move is the AI's choice for some draw |
| Policy.AiMayPickAnyWhenAllOwned | game.py:310-311 | when the agent owns all candidates, every candidate is the AI's choice for some draw |
| Policy.SmartnessHasNoEffect | game.py:305-309 | the smartness roll and the difficulty never change the AI's move, since both branches make the same choice |
| Rules.CaptureScores | game.py:317-325 | the mover gains one point unless it already owned the cell; the opponent loses one exactly when it owned the cell and had a positive score |
| Rules.CaptureKeepsScoresNonNegative | game.py:321-325 | captures never make a score negative |
| Rules.CaptureTotal | game.py:317-325 | the total score rises by one for a free cell or a cell taken from a zero score, and stays the same otherwise |
| Rules.IndexOfPowerUpAt | game.py:336-338 | the power-up found is the first one on the cell, and none is found exactly when no power-up is on the cell |
| Rules.Collect | game.py:332-349 | with no power-up on the cell nothing changes; otherwise one power-up on that cell is removed, one fewer remains, and the two-second respawn is armed |
| Rules.CollectRemovesOne | game.py:336-339 | collection removes exactly the collected power-up and keeps every other one (multiset equality) |
| Rules.CollectFreeze | game.py:341-343 | a Freeze sets the opponent's freeze end to five seconds from now, overwriting the old one, and changes no score |
| Rules.CollectPoints | game.py:344-345 | a Points power-up adds 20 to the collector's score and changes nothing else of the scores and freezes |
| Rules.CollectKeepsFreezes | game.py:338-345 | a collection never cuts a freeze short: an agent frozen before it is still frozen after it |
| Rules.CollectClearsCell | game.py:332-349 | when no two power-ups share a cell, none is left on the collected cell, the rest were live before, and they still share no cell |
| Rules.ExclusionIsSquare | game.py:122-123 | the distance test is a per-axis OR: a cell two steps away on both axes is refused, one three steps away on one axis is allowed |
| Rules.FreezeLastsFiveSeconds | game.py:252-254 | a freeze applied at time t blocks moves exactly during the following 5000 milliseconds |
| Rules.AiMoveDelay | game.py:761-763 | `int(60 / speed)` is the largest count of moves at that speed that fits in 60 frames: 5 frames on hard, 8 on normal |
| Rules.AiCadence | game.py:821-828 | n frames into a match the frame counter reads n mod delay and the AI has had n div delay turns. A frame is a turn exactly when AiMovesNow holds, and GameLoop.Session.AiStep adds the movers to the log in exactly those frames |
| Rules.ExpiredAfterOneMinute | game.py:795-797 | the match is over exactly when 60000 milliseconds have passed since its start |
| Rules.StartOwnsExactlyTwo | game.py:727-734 | the starting board owns exactly two cells: (1,1) by blue and (18,18) by green |
| Rules.MatchOutcome | game.py:355-363 | an agent wins if and only if its score is strictly higher, and the match is a tie if and only if the scores are equal |
| Engine.Match.constructor | game.py:69-78 | the globals at start-up: an empty board, zero scores, the starting positions, no freezes, no power-ups |
| Engine.Match.PlacementIndex | game.py:114-126 | the retry loop succeeds at the first placeable candidate, and fails only when no candidate is placeable |
| Engine.Match.SpawnResult | game.py:112-126 | at three live power-ups nothing changes. Otherwise at most one power-up is appended, exactly when some candidate is placeable. It sits on the first placeable candidate: unowned, free of power-ups and agents, and more than two steps from each agent along some axis |
| Engine.Match.SpawnPowerUp | game.py:112-126 | the retry loop produces SpawnResult and keeps the match invariant; the call is one spawn attempt in the log |
| Engine.Match.CheckPowerUps | game.py:332-349 | the remove-while-iterating loop produces exactly Collect's effect on power-ups, scores, freezes and the respawn timer |
| Engine.Match.Claim | game.py:317-328 | the scores follow CaptureScores; the destination becomes the mover's, every other cell keeps its owner (the vacated one included), and only the mover's position changes |
| Engine.Match.ApplyMove | game.py:317-329 | a real move is the capture followed by collection on the destination (MovedTo), and it keeps the match invariant |
| Engine.Match.Destination | game.py:251-316 | no move while frozen; a human key moves exactly one step, and only if that step stays on the grid; an unfrozen AI always moves to one of its candidates |
| Engine.Match.MoveAgent | game.py:251-329 | the call's effect is TookTurn: a frozen agent or a refused key changes nothing, and a frozen agent changes no field but the log; otherwise the state is MovedTo the destination; the invariant is kept; the call is one turn of the agent in the log |
| Engine.Match.StartLayout | game.py:727-735 | a fresh board owned only at the two starting corners, the starting positions, scores of one, no freezes, no power-ups, and the invariant holds |
| Engine.Match.Reset | game.py:724-742 | a fresh board where only the two starting cells are owned, starting positions, scores of one, no freezes, the respawn timer cleared, and at most one power-up per spawn attempt, and exactly one spawn attempt per draw in the log |
| Engine.Match.RespawnIfDue | game.py:815-817 | once the armed timer is due, exactly one spawn attempt is made and the timer is cleared; before that nothing changes |
| GameLoop.Session.constructor | game.py:755-759 | the loop starts on the menu in a human-versus-AI normal match, with the start time cleared and the loop running |
| GameLoop.Session.ScreenStep | game.py:766-785 | a menu screen's choice becomes the state; the mode changes only when mode selection moves on to difficulty selection, and the difficulty only when difficulty selection starts the match, so going back keeps both; the start time stays cleared |
| GameLoop.Session.PlayingTick | game.py:787-834 | the first frame of a match resets it; an expired frame only moves to game over and changes nothing in the match. Otherwise Escape leads to the menu, Quit stops the loop, the AI counter advances, and the periodic spawn restarts its period when due. The invariant is kept |
| GameLoop.Session.MatchFrame | game.py:801-834 | an unexpired frame's turns are one blue turn per arrow key against the AI, then the AI's movers when AiMovesNow holds; its spawn attempts are possibly the delayed respawn, then the periodic spawn when due; the state, loop flag and both timers change as in PlayingTick; a frame with no key turn and nothing due leaves the match unchanged |
| GameLoop.Session.EnterMatch | game.py:788-792 | the first frame of a match resets the game and takes the start time and both frame timers from this tick |
| GameLoop.Session.HandleEvents | game.py:801-813 | the state is the menu exactly when Escape was pressed, and the start time is then cleared; the loop keeps running exactly when Quit was not received; blue takes one turn per arrow key, in order, in a human-versus-AI match and none otherwise (KeyTurns); with no such turn the match is unchanged |
| GameLoop.Session.HandleEvent | game.py:801-813 | one event: Quit clears the running flag; an arrow key against the AI is one blue turn whose effect is MoveAgent's (TookTurn with that key); Escape goes to the menu and clears the start time; every event but an arrow key against the AI leaves the match unchanged |
| GameLoop.KeyTurnsAreBlueArrows | game.py:805-808 | only blue moves on keys and only against the AI; there is one turn per event exactly when every event is an arrow key, and never more turns than events |
| GameLoop.Session.EndFrame | game.py:815-834 | the AI counter advances by one frame, wrapping to zero on the AI's turn; the spawn timer moves to now exactly when the periodic spawn was due; the log gains a spawn attempt when the respawn is due, the AI's movers exactly when AiMovesNow holds, and a spawn attempt when the periodic spawn is due, in that order; with nothing due the match is unchanged |
| GameLoop.Session.AiStep | game.py:821-828 | the frame counter advances as AdvanceAiTimer says; the AI's movers take their turns exactly when AiMovesNow holds, with AiTurn's effect on the match, and otherwise the match is unchanged |
| GameLoop.Session.PeriodicSpawn | game.py:830-834 | more than five seconds after the last periodic spawn, one spawn attempt is made and the period restarts; otherwise nothing changes |
| GameLoop.Session.AiTurn | game.py:824-828 | green takes a turn against a human player, blue then green in an AI-versus-AI match (the log gains AiMovers); the match changes as AiTurnTaken says: against a human, green's turn as MoveAgent makes it; between two AIs, the other agent's turn alone when one starts frozen. The match invariant is kept |
| GameLoop.Session.BothAiTurns | game.py:826-828 | blue then green take a turn; when blue starts frozen the match changes exactly as green's turn from the starting state makes it, and when green starts frozen (a collection by blue cannot thaw it) exactly as blue's turn makes it, so nothing moves when both are frozen |

## Left out

- Rendering, fonts, the animated menus and the colour customization (game.py:128-249, 352-721 apart from the winner rule) are presentation only.
- Music is pure I/O.
- The menu screens' own event loops are not modelled. Their choice is a parameter of `ScreenStep`, limited to the states each screen can return. The program exit they perform on Quit is not modelled either.
- The probability distributions of `random.randint`, `random.choice` and `random.random` are not modelled; the draws are parameters.
- pygame's user timer event is not modelled as an event. It becomes the field `respawnAt`: collecting a power-up arms it for two seconds later, re-arming it if it was already armed, and a reset clears it. The match frame handles it after that frame's key events. In the source it arrives somewhere in pygame's event queue, so its order relative to key events in the same frame is not modelled.
- The source reads the clock several times per frame. The model uses one reading per frame.
- The main loop's exit after Quit and the `pygame.quit()` that follows are outside the model. `running` only records that the loop will end after this frame.
- The unknown-state branch (game.py:853-855) cannot occur with the `GameState` datatype.
- GameLoop.Session.PlayingTick: does not state the combined effect of the frame's moves and spawns on the board, the scores or the power-ups. MoveAgent, SpawnPowerUp and RespawnIfDue state each of them one call at a time. The frame states that the match invariant is kept.
- Engine.Match.Reset: promises at most one power-up per spawn attempt, not "two or three power-ups". The code places at most one per attempt and an attempt can fail, so a reset can end with fewer than two power-ups. The model follows the code here: `random.randint(2,3)` at game.py:738 counts spawn attempts, not power-ups placed.
- Rules.FreezeLastsFiveSeconds: states the freeze in exact milliseconds. The source computes `ticks / 1000 + 5` in floating point and compares it with a later `ticks / 1000`. Rounding can make the sum slightly larger than the exact value (for a freeze applied at tick 137, `0.137 + 5` exceeds `5.137`), so the source can keep an agent frozen during the last millisecond that the model already frees. Engine.Match.Destination and Rules.Collect inherit this.
- GameLoop.Session.AiTurn: in an AI-versus-AI match where neither agent starts frozen, states only that blue then green took a turn. Green's turn then starts from the state blue's move left, and MoveAgent states each of the two calls.
- GameLoop.Session.BothAiTurns: when neither agent starts frozen, states only that blue then green took a turn, not that both moved or where to. MoveAgent states each of the two calls, and no contract states their combination.
- GameLoop.Session.AiStep: on an AI turn frame of an AI-versus-AI match where neither agent starts frozen, states only that blue then green took a turn, as AiTurn does, not the match's new state.
- GameLoop.Session.HandleEvents: when arrow keys move blue, states only which turns were taken and in what order. Each key's effect on the match is HandleEvent's, one event at a time.
- GameLoop.Session.EndFrame: states the match unchanged when nothing is due. The AI turn's effect on the match is stated by AiStep and AiTurn, except for an AI-versus-AI turn where neither agent starts frozen. The spawns' effect is stated by RespawnIfDue and PeriodicSpawn. EndFrame as a whole states neither.
- GameLoop.Session.MatchFrame: says the delayed respawn may add one spawn attempt before the AI's turn, but not whether it does. That depends on collections made by the frame's own key moves, which MoveAgent states one call at a time. Like PlayingTick, it also does not state the combined effect of the frame's key moves, AI turn and spawns on the match.
- The start time 0 means "not started" in the source. A match that started at tick 0 would therefore be reset again on its next frame. The model keeps this behaviour.
