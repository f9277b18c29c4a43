# Haunted Castle in Dafny

A model of the core of "Haunted Castle", a small turn-based text game. A
player walks through a castle of ten rooms linked by exits, from the main
gate towards the bedroom, while four ghosts wander about. The game is lost
after twelve moves.

The model keeps the program's own form:

- **Rooms** (`Rooms.Room`) are objects with three exit maps:
  - `exits`, the live view;
  - `dualExits`, where every exit is also recorded under the dual direction;
  - `temp`, which saves the normal view while the room is "dual".

  A room also keeps a list of occupants in arrival order and a stack used to
  list them. `Exits` states the exit maps as a value and proves what
  declaring an exit and toggling a room do to them. `Occupancy` states who
  stands where, and proves that a move keeps rooms and characters in
  agreement.
- **Characters** (`Rooms.Character`) are objects holding their room and their
  role:
  - the player (`Players.Player` wraps its character and adds a goal and a
    move counter);
  - a ghost that teleports to any room;
  - a solid ghost that follows one of the live exits of its room;
  - a dual ghost that teleports and toggles the room it leaves and the room
    it enters.
- **The game** (`Games.Game`) holds the rooms, the ghosts, the player and the
  `finished` flag. `Game.Valid` is the invariant it keeps between commands:
  - every room's views are coherent;
  - every room has at least one exit, and every exit leads into the castle;
  - exactly the rooms of the dual ghosts are toggled;
  - the goal is a room of the castle;
  - every character is listed, once, in exactly the room it stands in;
  - every listing stack is empty.

  `CreateScenario` builds the castle of the game and proves it valid. Every
  command keeps the invariant, and `GoRoom` states the whole turn:
  - the player's move, through the exit the live view names;
  - the ghosts' moves, returned as a sequence `steps` in which `steps[k]` is
    the move of the k-th ghost, from the room it stood in to the room its
    own policy picked (`Game.Moves`, `Game.Positions`);
  - the room lists after the turn, which are those the player's move and
    then the moves in `steps`, one after the other, produce (`Games.Turns`);
    so the arrival order that `getCharacterString` prints is fixed too;
  - the time count, and the goal check made before the time-limit check.

Random draws are parameters. A ghost's draw is a natural number, reduced
modulo the size of the range the program draws from, so every choice the
program can make is reachable.

## Model

| member | source | states |
|---|---|---|
| Exits.GetExit | Room.java:148-153 | the lookup finds a room exactly when the live view has the direction, and then the room the live view maps it to; otherwise nothing (Java `null`) |
| Exits.SetExit | Room.java:70-80 | declaring `d -> n` on a room without a live exit in `d` makes `getExit(d)` return `n` and leaves the saved view alone |
| Exits.SetExitEffect | Room.java:70-80 | declaring `d -> n` changes no other live direction; the dual view gains exactly `d.dual() -> n` and keeps every other entry |
| Exits.DualMapUpdate | Room.java:77 | recording `n` under `d.dual()` keeps the dual view equal to the dual of the declared exits |
| Exits.SetExitCoherent | Room.java:70-80 | declaring an exit on a room in its normal view keeps its views coherent and normal, and adds the exit to its declared exits |
| Exits.ToggleTwice | Room.java:182-194 | two toggles restore the room if and only if the first does not get stuck: from the normal view the live exits must be non-empty (or the dual view empty too); from the dual view the live exits must be the dual ones |
| Exits.ToggleFlag | Room.java:184-188 | after a toggle a view is saved if and only if none was saved before and the live view was non-empty, so a room without live exits never enters the dual state |
| Exits.ToggleCoherent | Room.java:182-194 | toggling a coherent room keeps it coherent and keeps its declared exits; it switches the view if and only if the room has declared exits |
| Exits.LiveTargets | Room.java:182-194 | in either view the live exits lead to exactly the rooms the declared exits lead to, and are empty only if those are |
| Exits.DualMapTargets | Room.java:77 | the dual view leads to the same rooms as the declared exits and is empty only when they are |
| Directions.SortedLabelsSpec | Room.java:108-117 | the exit listing holds exactly the labels of the live exit directions, each once, in strictly increasing string order |
| Rooms.Room.GetExit | Room.java:148-153 | a room is found exactly when the live view has the direction, and it is the room the live view maps the direction to; otherwise nothing (Java `null`) |
| Rooms.Room.GetExits | Room.java:199-202 | the map handed out is the live view: it has a direction exactly when getExit finds a room for it, and maps it to that room |
| Rooms.Room.constructor | Room.java:42-52 | a new room has its description, no exits, no dual exits, nothing saved, no characters and an empty stack |
| Rooms.Room.SetExit | Room.java:70-80 | requires no live exit in the direction; the exit maps become what `Exits.SetExit` says, and the occupants are untouched |
| Rooms.Room.Dual | Room.java:182-194 | the exit maps become their toggle: an empty `temp` saves the live view and shows the dual view; otherwise it restores the saved view and empties `temp` |
| Rooms.Room.AddCharacter | Room.java:161-164 | the character is appended at the end of the occupant list |
| Rooms.Room.RemoveCharacter | Room.java:172-175 | the first occurrence of the character is removed and nothing else changes |
| Occupancy.RemoveFirstMultiset | Room.java:172-175 | removing takes exactly one occurrence of the character out of the list, when there is one |
| Occupancy.RemoveFirstNoDup | Room.java:172-175 | in a list without duplicates, removing a character leaves exactly the others, still without duplicates |
| Rooms.Room.GetExitString | Room.java:108-117 | the loop builds "Exits:" followed by the sorted labels of the live exits, each after a space |
| Rooms.Room.GetCharacterString | Room.java:124-139 | an empty room gives "" and leaves the stack alone; otherwise every occupant is pushed, then all are popped into "\nCharacters: " + the listing, and the stack ends empty |
| Rooms.ListingIsReversed | Room.java:124-139 | the occupant listing names the occupants in reverse arrival order |
| Rooms.LatestArrivalFirst | Room.java:124-139 | a newly arrived character is listed first |
| Rooms.Room.GetLongDescription | Room.java:98-101 | with an empty stack, the result is "You are " + description + ".\n" + exit line + character line, and the stack is empty again |
| Rooms.Character.Name | Ghost.java:34-37 | a ghost prints as its description; the player prints as "you" |
| Rooms.Character.Move | DualGhost.java:53-55 | moving leaves the old room (first occurrence removed), sets the location, and appends the character to the new room; for the same room, the character is removed and appended again |
| Occupancy.ReenterKeepsOccupants | DualGhost.java:41-42 | a character that moves to the room it is in stays listed there exactly as often as before, now as the latest arrival |
| Occupancy.ExactlyOneRoom | Room.java:155-175 | while occupancy is consistent, a character is listed in a room if and only if it stands in that room |
| Occupancy.RelocateConsistent | DualGhost.java:53-55 | moving one character keeps every character listed in its own room and every room listing, once each, only characters standing in it |
| Players.Player.constructor | Player.java:18-23 | a new player stands in the start room as its latest arrival, with the given goal and time 0 |
| Players.Player.IsAtTimeLimit | Player.java:28-34 | true if and only if time is exactly 12 |
| Players.Player.IsAtGoal | Player.java:39-45 | true if and only if the player stands in the goal room itself (reference identity) |
| Players.Player.ToString | Player.java:50-53 | always "you" |
| Players.Player.IncrementTime | Player.java:59-62 | time grows by exactly one, and nothing else changes |
| Ghosts.NewGhost | Ghost.java:24-29 | a new teleporting ghost with its description stands in its start room as the latest arrival |
| Ghosts.NewSolidGhost | SolidGhost.java:21-24 | a new solid ghost stands in its start room as the latest arrival |
| Ghosts.NewDualGhost | DualGhost.java:19-23 | a new dual ghost stands in its start room, which is toggled once |
| Ghosts.GoRandom | Ghost.java:44-47 | the ghost moves, as a character moves, to the room the draw picks out of all rooms; it need not be adjacent and may be the current room |
| Ghosts.GatherCandidates | SolidGhost.java:33-36 | the candidates are one room per live exit, duplicates included: as a multiset, exactly the exit targets |
| Ghosts.ExitTargetsMembers | SolidGhost.java:33-36 | a room is a candidate if and only if some live exit leads to it |
| Ghosts.SolidPick | SolidGhost.java:37-41 | as written: a single candidate is taken without a draw; two or more use the draw; no candidate fails |
| Ghosts.NoExitDoesNotStay | SolidGhost.java:27-41 | with no exit the choice as written fails, while the documented behaviour stays in the current room |
| Ghosts.SolidPickOrStay | SolidGhost.java:27-41 | as documented: with no exit the ghost stays; otherwise it takes the candidate the as-written choice takes |
| Ghosts.SolidGoRandom | SolidGhost.java:31-43 | the candidates are the live exit targets, and the ghost moves to the one the choice picks; the new room is reached by a live exit of the old room that existed at the time of the move; only the two rooms' lists change |
| Ghosts.DualGoRandom | DualGhost.java:31-36 | the ghost moves as Ghost.goRandom moves it, without DualGhost.move; the room left and the room entered are toggled once each, or the same room twice |
| Ghosts.DualMove | DualGhost.java:48-58 | the same net effect on the rooms and the ghost as DualGoRandom, for a given destination |
| Games.ScenarioIsSymmetric | Game.java:60-77 | every exit of the scenario has the dual exit leading back |
| Games.ScenarioClosed | Game.java:60-80 | every exit of the scenario leads to one of the ten rooms of the room list |
| Games.EntranceBuilt | Game.java:60-65 | the gate, entrance hall and kitchen, once built, are coherent and in their normal view, with non-empty declared exits |
| Games.GreatHallBuilt | Game.java:66-68 | the same for the great hall and the chapel |
| Games.StairsBuilt | Game.java:69-72 | the same for the staircase and the dungeon |
| Games.UpperHallBuilt | Game.java:73-77 | the same for the upper hall, the toilet and the bedroom |
| Games.CreateRooms | Game.java:48-57 | ten new, distinct rooms with their descriptions, no exits and no characters |
| Games.LinkGate | Game.java:60-62 | the gate's exit and the first two exits of the entrance hall, with their dual entries |
| Games.LinkKitchen | Game.java:63-65 | the entrance hall's last two exits and the kitchen's exit |
| Games.LinkGreatHall | Game.java:66-68 | the exits of the great hall and the chapel |
| Games.LinkDungeon | Game.java:69-71 | the staircase's exits south and down, and the dungeon's exit |
| Games.LinkUpperHall | Game.java:72-75 | the staircase's exit up, the upper hall's exits down and south, and the toilet's exit |
| Games.LinkBedroom | Game.java:76-77 | the upper hall's exit west and the bedroom's exit |
| Games.BuildCastle | Game.java:48-77 | ten distinct rooms in their normal view, each with exactly the exits the scenario declares for it, and no characters; no `setExit` precondition is violated |
| Games.PlaceCharacters | Game.java:83-91 | the four ghosts, with their roles, in the toilet, dungeon, chapel and bedroom; the player at the gate with the bedroom as goal and time 0; the bedroom toggled |
| Games.RoomToggled | DualGhost.java:31-36 | a room toggled once by the dual ghost is still coherent, with the same declared exits, and in its dual view exactly when the ghost is now there |
| Games.RoomToggledTwice | DualGhost.java:31-36 | a room left and re-entered by the dual ghost is back exactly as it was |
| Games.ScenarioRooms | Game.java:60-86 | the rooms as built: pairwise distinct, each declaring the scenario's exits, only the bedroom toggled |
| Games.ScenarioRoomsOK | Game.java:60-86 | every room is coherent, has an exit, leads into the castle, and only the bedroom is toggled |
| Games.ScenarioOccupancy | Game.java:83-89 | the dual ghost's room is the bedroom; the ghosts are distinct, with at most one dual; occupancy is consistent |
| Games.ScenarioValid | Game.java:40-92 | what createScenario leaves satisfies the game invariant |
| Games.CreateScenario | Game.java:40-92 | the room list in its order, each room with the description and exits it is created with, the ghosts in their order and start rooms, the player at the gate with the bedroom as goal and time 0, all of them new objects; the game invariant holds |
| Games.Game.constructor | Game.java:27-33 | a new game is valid and not finished, with the scenario's rooms (their descriptions and exits), ghosts and player, all of them new objects |
| Games.Game.OnlyGhostRoomToggled | DualGhost.java:19-36 | in a valid game with a single dual ghost, exactly the room that ghost stands in is in its dual view |
| Games.Game.MoveKeepsOccupancy | Ghost.java:44-47 | one character's move changes only its own location and the two room lists, and keeps occupancy consistent |
| Games.Game.DualRoomsMoved | DualGhost.java:31-36 | after the dual ghost's move every room is again as the invariant says, toggled exactly where the ghost now is, with its declared exits unchanged |
| Games.Game.GhostMoved | Game.java:151-153 | one ghost's move, by any policy, keeps the game valid and every room's declared exits; the room lists change as `Relocate` says: the ghost leaves the old room's list and is appended to the new one's |
| Games.Game.PlayerMoved | Game.java:149 | the player's move keeps the game valid and where the ghosts stand; the room lists change as `Relocate` says |
| Games.Game.MoveTeleportingGhost | Ghost.java:44-47 | a plain ghost ends in the room its draw picks; nobody else moves; the game stays valid |
| Games.Game.MoveSolidGhost | SolidGhost.java:31-43 | a solid ghost ends in a room reached by a live exit of its old room, which is also a room one of that room's declared exits leads to; this is always possible, because every room has a live exit; the game stays valid |
| Games.Game.MoveDualGhost | DualGhost.java:31-36 | the dual ghost ends in the room its draw picks, and the game, including the toggled rooms, stays valid |
| Games.Game.MoveGhost | Game.java:151-153 | one ghost's turn by its own policy: a solid ghost to a room an exit of its room leads to, any other ghost to the room its draw picks; only it moves, the room lists change by its move alone, no declared exits change, and the game stays valid |
| Games.Game.TurnRecorded | Game.java:151-153 | the move of the next ghost in list order extends the record of the turn by one: the moves so far and this one are as `Moves` says, the ghosts stand as `Positions` says, and the room lists are the previous ones with this move applied |
| Games.Game.TakeTurn | Game.java:151-153 | one pass of the loop: the next ghost in list order moves by its own policy, and the record of the turn grows by exactly that move |
| Games.Game.MoveGhosts | Game.java:151-153 | `steps[k]` is the move of `ghosts[k]`, from the room it stood in: every ghost moves exactly once, in list order; a solid ghost ends in a room one of its old room's exits leads to, any other ghost in the room its own draw picks; every ghost stands where its move took it; the room lists are those the moves give, made one after the other in list order; the player does not move, no declared exits change, and the game stays valid |
| Games.Game.Advance | Game.java:149-153 | the player enters the given neighbouring room, then the ghosts move as MoveGhosts says: the room lists are those the player's move and then the ghosts' moves, in list order, give; time and `finished` are untouched |
| Games.Game.EndOfMove | Game.java:155-163 | time grows by one; the goal is checked before the time limit, and either ends the game with its message; otherwise the message is the room's description |
| Games.Game.GoRoom | Game.java:138-165 | with no live exit in the direction, the message is the no-exit message and nothing changes; otherwise the player enters the room the pre-move live view names, then every ghost moves exactly once, in list order, by its own policy, as `steps` records; the room lists are those the player's move and then the ghosts' moves give, in that order; time grows by one, and `finished` and the message follow the goal, then time-limit, checks; no declared exits change and the game stays valid |
| Games.Game.Finished | Game.java:105-108 | the value of the `finished` flag |
| Games.Game.Welcome | Game.java:113-118 | the banner followed by the description of the player's room; nothing else changes |
| Games.Game.Help | Game.java:124-127 | the help text; nothing changes |
| Games.Game.Quit | Game.java:170-174 | the game is finished, with the farewell message |
| Games.Game.Look | Game.java:179-182 | the description of the player's room; the game stays valid |
| Games.Game.GoalReached | Game.java:188-194 | the game is finished, with the room's description followed by the goal message |
| Games.Game.TimesUp | Game.java:200-206 | the game is finished, with the room's description followed by the time-out message |

## Left out

- Direction.java is not part of this model. Directions are a six-value datatype:
  - the dual of a direction is its opposite;
  - its label is its lower-case name.

  The exit listing orders these labels by string comparison.
- Character.java is not part of this model. A character is placed in its start room by its constructor. Its move removes it from its room, sets its location and appends it to the new room, the sequence that DualGhost.move shows without its toggles.
- Randomness: `java.util.Random` is replaced by draw parameters:
  - each draw is reduced modulo the size of the range the program draws from;
  - `Ghost.getRandomizer` is not modelled.
- The order of `HashMap.keySet` is not modelled. The solid ghost's candidate list is built in an unspecified order, and its contract states the candidates as a multiset.
- The solid ghost's candidate list is a local result, not the `availableExits` field. The field is only read within the same call.
- Ghosts.SolidGoRandom: requires at least one live exit, because the code as written fails with none (see Findings). In the game this never arises: the invariant keeps a live exit in every room.
- `Game.mapPreview` (console output) and the debugging accessors are left out:
  - `Game.getPlayer`;
  - `Room.getCharacters`;
  - `Room.getShortDescription`, which returns the description, a constant field here.
- The `sane()` checks and the `assert ... != null` checks are left out: references are never null in the model. The class invariants (`Room.Valid`, `Game.Valid`) take their place.
- The command parser and the main loop are not part of this model. `Game.goRoom` does not consult `finished`, so the model does not either.
- Players.Player.IncrementTime: `time` is an unbounded integer, while the Java `int` would wrap after 2^31 - 1 increments. A game ends at time 12, but `goRoom` does not consult `finished`, so only a caller that keeps moving after the end could ever reach the wrap.
- Rooms.Room.GetExits: returns the live view as a value. The Java method hands out the room's own `HashMap`, through which a caller could change the room; the only caller in the core, `SolidGhost.goRandom`, only reads it.
- Java string building is modelled as sequence concatenation. Exact banner texts are constants.

## Findings

| source | as written | input that shows it | evidently intended | confidence | as-written member | corrected member |
|---|---|---|---|---|---|---|
| SolidGhost.java:37-41 | with no live exit the candidate list is empty, and the code calls `nextInt(0)`, which throws | a solid ghost in a room without exits (`SolidPick([], 0) == None`) | as the method's documentation says, the ghost stays in its current room | not executed | Ghosts.NoExitDoesNotStay | Ghosts.SolidPickOrStay |
