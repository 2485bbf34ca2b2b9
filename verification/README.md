# Verified model of the five-in-a-row server

This project models the server side of an online five-in-a-row game, and the part
of the browser page that mirrors a game, and proves what they keep over every run.
Each component comes twice: as functions on values that say what one operation
does, and as a class that changes its fields step by step as the program does, with
every method proved to do exactly what the function says. The lemmas are about the
functions, so they hold of the objects.

`dafny verify dfyconfig.toml` checks the whole project.

## How the parts fit together

- **Matchmaker** (`BlockQueue`, `MatchSpec`, `MatchProofs`, `MatchLoopProofs`,
  `MatchPasses`, `MatchTheorems`, `Matcher`): three tiers with an incoming and a
  pending queue each, a map from users to their current request, lazy deletion of dead
  requests. In this part an enqueue, a cancel, a disconnect and one body of the match loop are each one
  step. Other components may change the status of users without an entry in the map.
- **Matchmaker under interleaving** (`MatchMicro`, `MatchMicroProofs`,
  `MatchMicroTheorems`, `MatchMicroCancels`, `MatchMicroTurns`, `MatchMicroCalls`): every locked
  section,
  every read and every write of a status is its own step, the match thread and any number of enqueues and cancels run
  interleaved, and the statuses may be changed by anybody at any time. A turn of the
  match thread, an enqueue and a cancel that nobody disturbs are proved to do what they
  do in one step in the first model.
- **Room** (`Board`, `BoardText`, `Room`) and **room index** (`RoomId`,
  `RoomManager`, `RoomCollision`).
- **Game controller** (`Game`, `GameProofs`, `GameTheorems`, `GameOutcomes`,
  `GameReturns`, `GameAnswers`, `GameController`) with the **score transaction** (`ScoreTable`). Both timer
  callbacks may fire at any time for any room identifier, armed or not, which covers
  callbacks that were already queued when their timer was cancelled.
- **Browser page** (`Client`, `Replica`, `DrawnGame`): the page agrees with the room
  as long as it handles the messages sent to its user in order.
- **Session layer** (`Session`, `SessionProofs`, `SessionTheorems`, `SessionAnswers`,
  `SessionMatches`, `SessionHandler`): connections, the grace queue for disconnects, authentication,
  and behind them the game controller and the matchmaker over one status map.

`Basics` holds what all parts share.

Identifiers of users, handles and requests are natural numbers; the user number 0 is
"nobody", as in the program. Messages are values, sending appends to one log with
addressees, clocks are parameters, timers are sets of armed room identifiers, and
each database step may fail. Some records carry history that the program does not
store: the creation number of a room, the list of ended games, the requests that were
issued, accepted or withdrawn.

## What the code does not keep

Each of these is a theorem with the exact condition, or with the case that fails.

- Creating a room keeps the room index in order if and only if the generated
  identifier is not in use (`CreateKeepsBijectionIff`). Identifiers cannot collide
  within 10000 rooms (`IdsDiffer`, `NextIdIsFresh`), and there is a run from the empty
  manager, one long game and 9999 short ones at one clock reading, whose next creation
  breaks the index (`IdentifiersDoCollide`).
- Every `game.start` message of every run names its receiver as its own opponent
  (`EveryStartNamesTheReceiver`); the snapshot of a reconnection names the real one.
- The stone that ends a game reaches the pages if and only if it makes a five
  (`LastStone`), and a game that ends without one can be played (`DrawsHappen`).
- While a player is away the other player's move arms the turn timer again
  (`TurnTimerAfterMove`), and a second absence is not noticed for as long as the first
  one lasts (`FlagLasts`).
- Authenticating a handle keeps handles and users in one-to-one correspondence if and
  only if the handle did not belong to another user (`AuthKeepsInverseIff`).
- A cancel that finds the entry, and so is answered with yes, comes too late if and only
  if the match thread is committed to the request at that moment: the match is being
  made, or only the partner is still being validated and has its entry
  (`CancelIsTooLateIff`). It does happen (`SomebodyIsMatchedAfterCancelling`).
- Under interleaving the match thread loses a live request if and only if it finds the
  partner that it holds beside it invalid (`LiveRequestIsLostIff`). There is a run after
  which, with every call over, a user is marked as matching and has an entry, but its
  request is nowhere, and it will be in no result of any continuation
  (`SomebodyIsStranded`).
- A matched pair is seated if and only if neither has a game (`MatchSeatsBothIff`). A
  player who stays away beyond the grace period and returns through the hall can queue
  and be matched while its game goes on; its partner is then marked as being in a room,
  has none, and is turned away by every later `match.start` (`PartnerLeftBehind`).

## Model

| member | source | states |
|---|---|---|
| MatchMicroProofs.SafeUnderEveryInterleaving | source/src/matcher.cpp:27-316 | in every interleaving of enqueues, cancels, status changes and the match thread, no identifier is in two results, every matched identifier belongs to an enqueue that returned true, and the two players of a result are different users |
| MatchMicroProofs.MicroStepKeepsInv | source/src/matcher.cpp:27-316 | every single step keeps the invariant: each request is in one place only (call, incoming queue, pending queue, hand of the match thread, result) and two requests of one user are never both in hand as valid |
| MatchMicroProofs.ThreadConserves | source/src/matcher.cpp:171-316 | a step of the match thread keeps the number of places of every pushed request, but for exactly the requests a failed validation drops |
| MatchMicroProofs.SecondFound | source/src/matcher.cpp:194-216 | when the second request of a pair is found valid, another request of the same user in hand is gone from the map for good |
| MatchMicroTheorems.LiveRequestIsLostIff | source/src/matcher.cpp:205-249 | a live pushed request is lost in a step of the match thread if and only if that step finds its partner in hand invalid |
| MatchMicroTheorems.SomebodyIsStranded | source/src/matcher.cpp:205-210 | there is a run after which, with no call of enqueue or cancel in flight, an accepted user is matching and has an entry, but its request is nowhere, and is in no result of any continuation |
| MatchMicroTheorems.NowhereForGood | source/src/matcher.cpp:171-316 | an issued request that is in no queue, hand, call or result never is again, in any run |
| MatchMicroCancels.CancelIsTooLateIff | source/src/matcher.cpp:66-76 | in every reachable state, a request whose entry a cancel erases can still get into a result iff the match is being made or only its partner is still being validated and has its entry |
| MatchMicroCancels.GoneIsMatchedIff | source/src/matcher.cpp:184-316 | the same for every request whose entry is gone, whoever erased it |
| MatchMicroCancels.RunWinsNothing | source/src/matcher.cpp:184-316 | a request without its entry to which the match thread is not committed is in no result of any run |
| MatchMicroCancels.CommittedWins | source/src/matcher.cpp:208-216 | from every state in which the match thread is committed to a request some continuation puts it into a result |
| MatchMicroCancels.SomebodyIsMatchedAfterCancelling | source/src/matcher.cpp:205-216 | there is a run in which a user cancels, the entry being there, and is matched all the same |
| MatchMicroTurns.UndisturbedTurn | source/src/matcher.cpp:149-161 | steps of the match thread alone, from the start of a turn to the start of the next, compute exactly the one-step loop body, at any two readings of the clock |
| MatchMicroTurns.PassTurn | source/src/matcher.cpp:184-218 | so do its steps in one pass within a tier, with all rereads and rechecks |
| MatchMicroTurns.CrossTurn | source/src/matcher.cpp:220-249 | and its steps in one pass across two tiers |
| MatchMicroCalls.UndisturbedEnqueue | source/src/matcher.cpp:27-64 | the single steps of one enqueue, disturbed by nobody or only by its user going offline, compute exactly the one-step enqueue, with the same answer |
| MatchMicroCalls.UndisturbedCancel | source/src/matcher.cpp:66-76 | the single steps of one cancel compute exactly the one-step cancel |
| MatchProofs.EmptyMatcherInv | source/src/matcher.cpp:5-13 | a new matcher satisfies the invariant when nobody is matching |
| MatchLoopProofs.MatchStepKeepsInv | source/src/matcher.cpp:27-80 | every enqueue, cancel, disconnect, loop body and permitted status change keeps the matcher's invariant |
| MatchLoopProofs.LoopBodyKeepsInv | source/src/matcher.cpp:149-161 | so does one body of the match loop, and its state after the three passes within tiers |
| MatchProofs.FinalizeKeepsInv | source/src/matcher.cpp:294-316 | matching two live requests that are the oldest of their tiers keeps the invariant |
| MatchProofs.EnqueueKeepsInv | source/src/matcher.cpp:27-64 | an enqueue, accepted or refused, keeps the invariant |
| MatchProofs.CancelKeepsInv | source/src/matcher.cpp:66-80 | a cancel and a disconnect keep the invariant |
| MatchTheorems.MatchingMeansQueued | source/src/matcher.cpp:27-137 | a user is matching iff it has an entry; then exactly one queued request carries the identifier of the entry, in the tier of its score (below 1300, below 1700, from 1700 on), and the other queued requests of the user are dead |
| MatchTheorems.EnqueueAnswers | source/src/matcher.cpp:27-64 | an enqueue succeeds iff the user is idle in the hall and does not go offline meanwhile; then the user is matching, the entry has the next identifier and the tier 0, 1 or 2 for a score below 1300, below 1700, or from 1700 on, and the incoming queue of that tier alone grew, by that request; a refused one leaves neither entry nor request |
| MatchTheorems.CancelUndoesEnqueue | source/src/matcher.cpp:27-76 | a cancel right after an accepted enqueue restores every status and entry and leaves the request dead |
| MatchTheorems.MatchedPlayersEnterRooms | source/src/matcher.cpp:294-304 | whoever is matched in a loop body has no entry and is in a room when the body is done |
| MatchTheorems.OneFate | source/src/matcher.cpp:265-304 | every accepted request is live, matched or withdrawn, exactly one of the three |
| MatchTheorems.NothingIsLost | source/src/matcher.cpp:27-80 | the number of accepted requests is the number of waiting users plus two for each result plus the withdrawn ones |
| MatchTheorems.DeadStaysDead | source/src/matcher.cpp:251-285 | a dead request is never live again in any run, and is not matched later |
| MatchTheorems.AcceptedIsServed | source/src/matcher.cpp:171-316 | a live request whose user neither cancels nor leaves is at the end of any run still live or has been matched |
| MatchTheorems.FirstComeFirstServed | source/src/matcher.cpp:177-248 | when a request is matched, every older live request of its tier whose user did not quit has been matched before it or in the same result |
| MatchTheorems.ResultsAreSound | source/src/matcher.cpp:294-320 | no request is in two results, every result is made of issued requests of two different users, and room numbers increase |
| MatchTheorems.LoopBodyIsQuiet | source/src/matcher.cpp:149-161 | after a loop body nothing is incoming, at most one request is pending in each tier, and no two adjacent tiers hold requests of which one has waited 30 seconds at the clock reading |
| MatchTheorems.WhoStillWaits | source/src/matcher.cpp:149-292 | two users still matching after a loop body are of different tiers, and if these are adjacent neither has waited 30000 ms |
| MatchTheorems.LoopBodyObeysRules | source/src/matcher.cpp:129-292 | every result of a loop body joins two scores both below 1300, both from 1300 to 1699, both from 1700 on, or of adjacent bands, the lower one first, with one side waiting at least 30000 ms at the clock reading of that pass |
| MatchPasses.CrossTierDecides | source/src/matcher.cpp:220-292 | a pass across two tiers adds a result iff both have a live request and one of the two oldest has waited 30000 ms, and then it is the pair of these two |
| MatchLoopProofs.PassEmitsPairs | source/src/matcher.cpp:184-218 | the pass within a tier emits exactly the consecutive pairs of the live requests, in order, with consecutive room numbers |
| MatchLoopProofs.LiveIs | source/src/matcher.cpp:251-285 | the live requests of a queue are exactly its valid members, and in the order of the queue |
| Matchmaker.Matcher.TryMatchSameTier | source/src/matcher.cpp:184-218 | the nested loops over the deque terminate and compute the pass: the live requests two by two, the last one left over iff their number is odd, dead ones dropped |
| Matchmaker.Matcher.TryMatchCrossTier | source/src/matcher.cpp:220-249 | drops the dead fronts of both deques and matches the two live fronts iff one has waited 30000 ms |
| Matchmaker.Matcher.ShouldAllowCrossTier | source/src/matcher.cpp:287-292 | true iff one of the two has waited at least 30000 ms |
| Matchmaker.Matcher.DiscardInvalidFronts | source/src/matcher.cpp:251-263 | the discarding loop removes the longest dead prefix and nothing else |
| Matchmaker.Matcher.IsRequestValid | source/src/matcher.cpp:265-285 | true iff the user is online and matching and its entry carries the identifier of the request |
| Matchmaker.Matcher.FinalizeMatch | source/src/matcher.cpp:294-316 | both entries go, both users are in a room, one result with the next room number is emitted |
| Matchmaker.Matcher.DrainIncomingRequests | source/src/matcher.cpp:171-182 | every incoming queue is appended to its pending deque, in order, and is empty afterwards |
| Matchmaker.Matcher.MatchLoopBody | source/src/matcher.cpp:149-161 | one body of the loop computes drain, three passes within tiers and two across them, and keeps the invariant |
| Matchmaker.Matcher.Enqueue | source/src/matcher.cpp:27-64 | refuses unless idle and without entry; the counter moves even when an entry exists; takes the entry back if the user goes offline before its status is set; else entry, status and the queue of the score's band change together |
| Matchmaker.Matcher.Cancel | source/src/matcher.cpp:66-76 | erases the entry, and makes the user idle if it is still online |
| Matchmaker.UserLeaves | source/src/websocket_handler.cpp:48-49 | going offline and telling the matcher withdraws the user's request |
| MatchPasses.DropIsHarmless | source/src/matcher.cpp:187-188 | discarding a dead front changes nothing of what the pass does |
| MatchPasses.NextPair | source/src/matcher.cpp:194-216 | one round pairs the live front with the next live request and leaves the pass to do the rest, or finds the front alone |
| MatchPasses.RestStaysLive | source/src/matcher.cpp:294-304 | matching two requests kills no other request of the queue |
| BlockQueues.BlockQueue.TimedPop | source/include/block_queue.hpp:35-54 | sleeps only while the queue is empty and open and the deadline has not passed, whatever other threads push or shut meanwhile; takes the oldest element if there is one, also after a shutdown, and else says that there is none |
| BlockQueues.BlockQueue.Push | source/include/block_queue.hpp:56-66 | appends at the end, and does nothing once the queue is shut |
| Online.OnlineManager.SetStatus | source/include/online.hpp:48-56 | sets the status of a user who is online and says whether it was |
| Online.OnlineManager.GetStatus | source/include/online.hpp:58-65 | the status, or offline for an unknown user |
| Board.ScanIsExact | source/include/room.hpp:284-309 | counting at most four stones each way reaches five iff five in line go through the cell in that direction |
| Board.Directions | source/include/room.hpp:285-287 | the four directions of the scan are a row, a column, the falling and the rising diagonal |
| Board.ThroughHasDirection | source/include/room.hpp:284-309 | a five in a row, a column or a diagonal goes through a cell iff one does in one of the four directions |
| Board.NewFiveGoesThroughNewStone | source/include/room.hpp:284-309 | on a board without a five, a new stone makes a five anywhere iff one goes through that stone |
| Board.NoFiveForTheOther | source/include/room.hpp:217-258 | a stone of one colour never makes a five of the other |
| Rooms.WinIsExact | source/include/room.hpp:217-258 | an accepted move wins iff the new board holds five stones of the mover in a row, in a column or along one of the two diagonals, anywhere, and never wins for the opponent |
| Rooms.DrawMeansFullBoardWithoutFive | source/include/room.hpp:245-250 | a move is a draw iff it is accepted and leaves a full board without a five of either colour |
| Rooms.AnswerForetold | source/include/room.hpp:217-258 | the answer of a move in terms of the room before it: refused, a win iff the stone makes a five, a draw iff it is the 225th and makes none, else the next turn |
| Rooms.GiveUpIsExact | source/include/room.hpp:260-273 | giving up a game that is on makes the other colour win; anything else is refused and changes nothing |
| Rooms.NewRoomInv | source/include/room.hpp:88-98 | a new room of two players satisfies the room invariant |
| Rooms.PlacePieceKeepsInv | source/include/room.hpp:217-258 | place_piece keeps it: cells 0, 1 or 2, as many stones as moves, colours alternating, no five while playing |
| Rooms.PlayingRoomHasEmptyCell | source/include/room.hpp:217-258 | a room being played has a cell on which the player to move is accepted |
| Rooms.StepKeepsInv | source/include/room.hpp:217-281 | moves, give-ups, ends and marks keep the invariant, count accepted moves, never change a stone and never reopen a room |
| Rooms.WholeGame | source/include/room.hpp:217-281 | over every run at most 225 moves are accepted, black has half of them rounded up and white half rounded down, stones stay, and a room still playing holds no five |
| Rooms.GameRoom.CheckWin | source/include/room.hpp:284-309 | the scan around the last stone is true iff five stones in a row, in a column or along one of the two diagonals include it |
| Rooms.GameRoom.Place | source/include/room.hpp:217-258 | the board, turn, count, status and result after the move, and the answer, in every branch |
| Rooms.GameRoom.GiveUp | source/include/room.hpp:260-273 | finishes the game for a player of a room being played and for nobody else |
| Rooms.GameRoom.EndWith | source/include/room.hpp:276-281 | sets the result of a room, as set_game_over does |
| Rooms.GameRoom.BoardText | source/include/util.hpp:99-107 | the loops produce the text of the board |
| BoardText.DecodeEncode | source/include/util.hpp:99-115 | decoding undoes encoding, on the server and in the browser, whatever the page showed before |
| BoardText.EncodeDecode | source/include/util.hpp:99-115 | encoding undoes decoding on every text of 225 digits 0, 1 and 2 |
| BoardText.EncodeIsInjective | source/include/util.hpp:99-107 | two boards with the same text are the same |
| BoardText.TextShowsCells | source/include/util.hpp:99-107 | the text has 225 characters, row by row, 0 for an empty cell, 1 for black and 2 for white |
| BoardText.StrToBoard | source/include/util.hpp:109-115 | the loops fill the array with the decoded board |
| RoomIds.IdTellsNumber | source/include/room.hpp:400-411 | a generated identifier determines its sequence number modulo 10000 |
| RoomIds.IdsDiffer | source/include/room.hpp:400-411 | identifiers from sequence numbers less than 10000 apart differ whatever the clock reads |
| RoomIds.IdsAgreeIff | source/include/room.hpp:400-411 | two identifiers are the same iff the clocks agree modulo 10^10 and the sequence numbers modulo 10000 |
| RoomIds.IdsRepeat | source/include/room.hpp:400-411 | sequence numbers 10000 apart give the same identifier at the same clock reading |
| RoomIndex.CreateKeepsBijectionIff | source/include/room.hpp:344-360 | creating a room keeps the two maps inverse iff the new identifier is not in use |
| RoomCollision.IdentifiersDoCollide | source/include/room.hpp:344-411 | there is a run from the empty manager, with different users in every creation and no live room 10000 creations old, after which creating a room for two users without one breaks the index |
| RoomIndex.DestroyRemovesItsPlayers | source/include/room.hpp:378-392 | destroying a room removes exactly the index entries of its two players |
| RoomIndex.BijectionMeans | source/include/room.hpp:362-376 | a user maps to a room iff the room exists and the user plays in it |
| RoomIndex.OneRoomPerUser | source/include/room.hpp:344-376 | no user plays in two rooms |
| RoomIndex.TwoUsersPerRoom | source/include/room.hpp:344-392 | the index has twice as many entries as there are rooms |
| RoomIndex.NextIdIsFresh | source/include/room.hpp:400-411 | the next identifier is fresh while no stored room is 10000 creations old |
| RoomIndex.RunKeepsTableInv | source/include/room.hpp:344-392 | all of this holds after every run of the room manager |
| RoomIndex.RoomManager.CreateRoom | source/include/room.hpp:344-360 | refuses when a player already has a room, else stores the new room under a generated identifier for both players |
| RoomIndex.RoomManager.EraseEntries | source/include/room.hpp:384-390 | the erase-while-iterating loop removes exactly the entries of the room, in whatever order it walks |
| RoomIndex.RoomManager.DestroyRoom | source/include/room.hpp:378-392 | removes the room and its entries, and does nothing for an unknown room |
| RoomIndex.RoomManager.GetRoomByUser | source/include/room.hpp:369-376 | the room the user is indexed in, or none |
| ScoreTable.UserTable.UpdateScoreMatch | source/src/user_table.cpp:151-275 | true iff no step fails, the commit included, and both users have a row; then both rows are changed, and otherwise none is |
| ScoreTable.BothOrNeither | source/src/user_table.cpp:151-275 | the table changes iff no step fails and both have a row, and then exactly the winner (+25, a win, a game) and the loser (-15 but not below 0, a game) change |
| ScoreTable.UpdateKeepsImbalance | source/src/user_table.cpp:151-275 | games played minus twice the wins stays the same in the whole table, and wins stay within games |
| ScoreTable.SumAfterUpdate | source/src/user_table.cpp:185-246 | changing one row changes the sum over the table by exactly the difference of that row |
| GameProofs.EmptyGameInv | source/src/game.cpp:9-31 | a new controller satisfies the invariant |
| GameProofs.GameStepKeepsInv | source/src/game.cpp:50-478 | every operation and every timer firing keeps it: stored rooms are being played without a result, the room index is in order, timers exist only for stored rooms, the disconnect timer exactly while somebody is flagged, the turn timer whenever nobody is |
| GameProofs.EndGameKeepsInv | source/src/game.cpp:280-363 | ending a room that may be in the middle of an operation restores the invariant |
| GameProofs.CleanupDoesNothing | source/src/game.cpp:50-60 | cleanup_finished_room never destroys anything |
| GameTheorems.LiveOrEndedOnce | source/src/game.cpp:66-172 | every room ever created is either stored or has been ended, never both, and never ended twice |
| GameTheorems.EndingCleansUp | source/src/game.cpp:280-363 | a room leaves the table only by being ended, together with both index entries and both timers |
| GameTheorems.OtherRoomsUntouched | source/src/game.cpp:66-478 | an operation on one room leaves every other room and its timers alone |
| GameTheorems.GeneratedIdIsFresh | source/src/game.cpp:66-72 | the identifier that a game start generates meets the condition for starting, whatever the clock reads |
| GameTheorems.StepKeepsTags | source/include/room.hpp:400-411 | stored rooms keep the identifiers generated from their creation numbers |
| GameOutcomes.WinnerAgreement | source/src/game.cpp:138-363 | whenever an operation ends a room, winner and loser are its two players with the right loser, scored once, and both are told the winner's colour and the reason: five_in_row, giveup or timeout; or it is the draw of a full board without five, scored for nobody, and both are told draw and board_full |
| GameOutcomes.FiveInRowDecides | source/src/game.cpp:106-155 | a winning move ends the game for the mover, whose five is on the board; a draw ends it with nobody scored; other moves end nothing |
| GameOutcomes.SurrenderDecides | source/src/game.cpp:157-172 | giving up, and rejecting a reconnection, decide the game against the one who does it |
| GameOutcomes.TurnTimeoutDecides | source/src/game.cpp:450-462 | a turn timer decides the game against the player to move, and does nothing while somebody is flagged |
| GameOutcomes.LostTimeoutDecides | source/src/game.cpp:464-495 | a disconnect timer decides the game against the flagged player, and does nothing without a flag |
| GameOutcomes.FarewellNamesTheWinner | source/src/game.cpp:294-349 | both players are told the winner's colour, the reason and their score change; the fallback texts are unreachable |
| GameOutcomes.StepKeepsImbalance | source/src/game.cpp:280-292 | every step keeps games played minus twice the wins |
| GameOutcomes.LedgerOverRuns | source/src/game.cpp:280-292 | over every run, with any database failures, that number is constant, wins stay within games, and there was one score update for each room ended with a winner |
| GameOutcomes.SomeTimerIsArmed | source/src/game.cpp:386-434 | every live room has an armed timer, the disconnect timer iff it is flagged |
| GameOutcomes.ExpiryCosts | source/src/game.cpp:450-478 | every expiry of an armed timer lowers the measure of its room |
| GameOutcomes.TwoExpiriesAtMost | source/src/game.cpp:450-478 | with silent clients at most two timer expiries destroy any room |
| GameOutcomes.NoTimerNoRoom | source/src/game.cpp:386-434 | when no timer is armed no room is left |
| GameReturns.StartRefusedIff | source/src/game.cpp:66-75 | a game is refused iff one of the two players already has a room, and then nothing changes |
| GameReturns.StartSeatsBoth | source/src/game.cpp:66-104 | else black and white get their seats, black begins, players online are in a room, and only the turn timer is armed |
| GameReturns.PlayersAreFreeAfterwards | source/src/game.cpp:352-362 | after the end of a game both players are idle and may start again, also against each other |
| GameReturns.ReturnUndoesLoss | source/src/game.cpp:174-223 | a disconnect followed by game.reconnect restores rooms, flag and both timers, and says exactly three things |
| GameReturns.AcceptUndoesLoss | source/src/game.cpp:174-261 | so does reconnect.accept, which also puts the player into the room |
| GameReturns.FlagLasts | source/src/game.cpp:174-261 | over every run a room that lives on stays flagged for the same player until that player comes back, whatever the other player does |
| GameReturns.SecondAbsenceIsIgnored | source/src/game.cpp:174-182 | while one player is flagged, the disconnect of the other changes nothing |
| GameReturns.TurnTimerAfterMove | source/src/game.cpp:106-155 | in a room that lives on, the turn timer is armed iff it was before or the move was acceptable, also while a player is away |
| GameAnswers.MoveAnswers | source/src/game.cpp:106-155 | a move is refused iff it is not the player's turn or the cell is not a free one on the board, and then only its player is told, with code 4002, and nothing changes; one after which the game goes on is shown to black and to white with both colours |
| GameAnswers.WinAnswers | source/src/game.cpp:138-151 | a winning move is shown to black and to white with nobody next, and then winner and loser are told the colour that won, five_in_row, +25 and -15 |
| GameAnswers.WithoutARoom | source/src/game.cpp:106-278 | who plays in no room is answered 4001 to a move or giving up and 4004 to coming back, and nothing else happens |
| GameAnswers.AcceptAnswers | source/src/game.cpp:225-261 | reconnect.accept tells the player the room and the player's own colour, and before that the opponent, if the player was flagged |
| GameAnswers.LossAnswers | source/src/game.cpp:174-196 | a disconnect flags the room, swaps its timers and tells the opponent iff nobody is flagged, and otherwise changes nothing |
| GameAnswers.CleanupIff | source/src/game.cpp:50-60 | a room is cleaned up iff it is finished and both its players are offline |
| GameOutcomes.EveryStartNamesTheReceiver | source/src/game.cpp:76-93 | in every run every game.start message names its receiver as its opponent |
| GameOutcomes.StartNamesTheReceiver | source/src/game.cpp:76-93 | unlike the snapshot of the same room, which names the real opponent |
| Controller.GameController.HandleGameStart | source/src/game.cpp:66-104 | room, statuses, both start messages and the turn timer; nothing when no room could be created |
| Controller.GameController.HandleMove | source/src/game.cpp:106-155 | the whole effect of a move on rooms, timers, messages, scores, in every branch |
| Controller.GameController.HandleGiveUp | source/src/game.cpp:157-172 | the whole effect of giving up |
| Controller.GameController.HandleDisconnect | source/src/game.cpp:174-196 | flags the player and swaps the timers, unless somebody is flagged already |
| Controller.GameController.HandleReconnect | source/src/game.cpp:198-223 | clears the flag of the player who is back, swaps the timers, sends the snapshot |
| Controller.GameController.HandleReconnectAccept | source/src/game.cpp:225-261 | the same, with the status set and the acceptance confirmed |
| Controller.GameController.HandleReconnectReject | source/src/game.cpp:263-278 | ends the game for the opponent |
| Controller.GameController.OnGameOver | source/src/game.cpp:280-363 | timers stopped, result set, scored once if there is a winner, both told, both idle, room destroyed |
| Controller.GameController.OnTurnTimeout | source/src/game.cpp:450-462 | the whole effect of a turn timer, also for rooms that are gone |
| Controller.GameController.OnDisconnectTimeout | source/src/game.cpp:464-478 | the whole effect of a disconnect timer, also for rooms that are gone |
| Controller.GameController.CleanupFinishedRoom | source/src/game.cpp:50-60 | destroys a finished room when both players are offline |
| Controller.GameController.Describe | source/src/game.cpp:294-326 | the texts of result and reason, in every case of the switch |
| Replica.ReplicaAgrees | client/js/game.js:240-268 | as long as the room lives, a page that agreed once and has handled all messages sent to its user since, in order, shows the room's board and turn, after every run |
| Replica.StepInSync | client/js/game.js:240-268 | one operation and its messages keep page and room in agreement |
| Replica.SnapshotStartsAgreement | source/src/game.cpp:506-525 | the snapshot that answers game.reconnect brings any page to the room's board, and to agreement iff the page knows its player's colour |
| Replica.StartStartsAgreement | client/js/game.js:230-238 | so does game.start on a fresh page |
| Replica.OtherRoomsAreSilent | source/src/game.cpp:374-384 | players of one room get no message from operations on other rooms |
| Replica.LastStone | source/src/game.cpp:138-154 | a move ends the game iff it is acceptable and makes a five or is the 225th, and then it is shown on the pages iff it makes a five |
| Replica.PageStopsWithTheGame | client/js/game.js:247-256 | a page is inactive once it has handled the messages of the operation that ends its game, whatever it showed before |
| Replica.PageStopsWithoutAGame | client/js/game.js:279-296 | so is the page of a user who asks for a game that is gone |
| DrawnGame.DrawsHappen | source/src/game.cpp:152-154 | after every start 224 moves can be played after which a legal move ends the game in a draw, and no page that agreed with the room shows that stone |
| Replica.GoneStaysGone | source/src/game.cpp:352-362 | a room that was ended never comes back |
| Client.HandleInParts | client/js/game.js:229-297 | handling two batches of messages is handling them one after the other |
| Client.GamePage.RestoreBoard | client/js/game.js:178-189 | the loops overwrite the page's board with the decoded text, and leave it alone when the length is wrong |
| Client.GamePage.Receive | client/js/game.js:229-297 | what each message does to board, colour, turn and activity of the page |
| SessionTheorems.NoGhosts | source/src/websocket_handler.cpp:94-154 | in every reachable state, after a flush each user past its deadline is connected or offline, nobody who is offline waits for a match, and handles and users are inverse; once all deadlines have passed exactly the connected users are online |
| SessionProofs.SessionStepKeepsInv | source/src/websocket_handler.cpp:40-394 | every handler and every turn of the match loop keeps it: handles and connections are inverse, every connected user is online, every online user is connected or in grace, everybody waiting for a match is online, and the game's invariant holds |
| SessionProofs.EmptySessionsInv | source/src/websocket_handler.cpp:9-33 | a server that has just been started satisfies it |
| SessionProofs.AuthKeepsInverseIff | source/src/websocket_handler.cpp:273-300 | authenticating a handle keeps handles and users inverse iff the handle did not belong to another user |
| SessionProofs.FlushStepKeepsInv | source/src/websocket_handler.cpp:94-118 | a flush removes exactly the expired entries, keeps connections, and leaves every expired user connected or offline |
| SessionTheorems.OnlyAbsenceFlags | source/src/websocket_handler.cpp:56-211 | a room becomes flagged for a user only by a flush past the deadline without a connection, or by the user's hall auth while in grace |
| SessionAnswers.FlaggedIff | source/src/websocket_handler.cpp:56-211 | in any step an unflagged room becomes flagged iff one of its players is past the deadline without a connection when a flush comes, or comes back through the hall within the grace |
| SessionAnswers.HallAuthAnswers | source/src/websocket_handler.cpp:61-211 | a player in grace who authenticates from the hall is flagged, the timers swap, the grace ends, exactly the opponent is told, and the player is offered to reconnect |
| SessionAnswers.PlainAuthAnswers | source/src/websocket_handler.cpp:170-236 | any other authentication changes no room, timer or grace and sends nothing, and offers to reconnect exactly to a flagged player; an invalid token changes nothing |
| SessionAnswers.CloseAnswers | source/src/websocket_handler.cpp:120-156 | the last connection of a player starts a grace of three seconds and changes nothing else; that of anybody else makes the user leave at once, offline and out of the queue |
| SessionAnswers.StaleCloseAnswers | source/src/websocket_handler.cpp:132-140 | a handle that was replaced by a newer one only loses its user |
| SessionAnswers.MatchStartAnswers | source/src/websocket_handler.cpp:170-332 | match.start is refused without a user, for a user who is not idle and for one who is queued, each with its reply; anybody else is queued in the tier of the score |
| SessionAnswers.MatchCancelAnswers | source/src/websocket_handler.cpp:334-347 | a cancel is confirmed iff the user was queued, who then is idle; else it fails and changes nothing |
| SessionAnswers.ReturnAnswers | source/src/websocket_handler.cpp:238-394 | game.reconnect is refused without a user and with a token that is not the user's; else the grace ends and the user gets the snapshot of its room or error 4004 |
| SessionTheorems.GraceHidesTheAbsence | source/src/websocket_handler.cpp:72-118 | within the grace period no run without a hall auth of the user flags the user's room |
| SessionTheorems.PageChangeIsInvisible | source/src/websocket_handler.cpp:132-152 | closing a handle and coming back with game.reconnect leaves rooms, timers, statuses and scores unchanged; only the snapshot is sent |
| SessionMatches.PartnerLeftBehind | source/src/websocket_handler.cpp:283-289 | from every state with a player, an idle user and nobody queued there is a run of six events after which the two are matched, no game can start, and the idle user is marked as being in a room, has none, and is turned away by every match.start |
| SessionMatches.MatchSeatsBothIff | source/src/game.cpp:66-104 | a matched pair gets seats iff neither has a game, and otherwise nothing changes |
| SessionHandler.WebSocketHandler.HandleClose | source/src/websocket_handler.cpp:120-156 | a stale close changes only the handle map; a last connection goes into grace in a live room, else the disconnect is executed |
| SessionHandler.WebSocketHandler.HandleAuth | source/src/websocket_handler.cpp:170-236 | an invalid token is refused and changes nothing; else connection replaced, a pending disconnect committed for the hall page, and the replies |
| SessionHandler.WebSocketHandler.HandleMatchStart | source/src/websocket_handler.cpp:170-332 | an authenticated handle goes by its user, another one by its token, which authenticates it; then the user is queued iff idle, with the replies of every case |
| SessionHandler.WebSocketHandler.HandleMatchCancel | source/src/websocket_handler.cpp:238-347 | the entry of the user of the handle is erased, with the replies of every case |
| SessionHandler.WebSocketHandler.HandleReturn | source/src/websocket_handler.cpp:238-394 | an unauthenticated handle, and a token of nobody or of somebody else, are refused and change nothing; else the pending disconnect is cancelled and the game told of the return |
| SessionHandler.WebSocketHandler.FlushPendingDisconnects | source/src/websocket_handler.cpp:94-118 | the two loops remove the expired entries and disconnect exactly those without a connection, in the order in which the map lists them |
| SessionHandler.WebSocketHandler.CollectExpired | source/src/websocket_handler.cpp:100-104 | the list holds every expired user once and nobody else |
| SessionHandler.WebSocketHandler.ForgetHandles | source/src/websocket_handler.cpp:276-282 | the erase-while-iterating loop removes exactly the handles of the user |
| SessionHandler.WebSocketHandler.ExecuteUserDisconnect | source/src/websocket_handler.cpp:40-54 | game told, connection removed, user offline, request withdrawn from the matcher, cleanup |

## Left out

- Matchmaker.Matcher.Enqueue: runs alone here but for the user's going offline; every other interleaving is in the model by single steps.
- Matchmaker.Matcher.MatchLoopBody: `start` and `stop`, the sleep and the last pass after a stop are not part of the model; queued requests are discarded there.
- MatchMicroProofs.SafeUnderEveryInterleaving: says nothing of lost or cancelled requests; when these go wrong under interleaving is the subject of `LiveRequestIsLostIff` and `CancelIsTooLateIff`.
- BlockQueues.BlockQueue.TimedPop: time is not modelled; the naps that end before the deadline are given by what the other threads do in them.
- Online.OnlineManager.SetStatus: the mutex is not modelled in the class; in the interleaved matchmaker each call is one step.
- Counters and identifiers are unbounded; wrap-around of 64-bit request, room and sequence counters is not modelled.
- The status of a user who plays and is queued at the same time: `on_game_over` makes both players idle without looking, so the matcher's invariant is proved for components that leave queued users alone.
- ScoreTable.UserTable.UpdateScoreMatch: a rollback always succeeds, and arithmetic is that of the integers with the clamp at zero; the database's unsigned columns, SQL text and bindings are not modelled.
- Rooms.GameRoom.MarkDisconnected: the time of the disconnect is not kept; the remaining seconds that messages report are not modelled.
- Timers have no handles and no durations: a timer is armed or not, and may fire at any time; that a player really had the full time is not claimed.
- `cleanup_all_timers`, which only runs at shutdown, and the cases of a missing component or a null timer service.
- Sockets, JSON, message texts of errors, the HTTP side, tokens, passwords, logging, configuration, the connection pool: plumbing and foreign libraries.
- Failing sends: a message appended to the log counts as delivered in order to the page of its user.
- The drawing, the dialogs and the score display of the page, which do not feed back into its board or turn.
