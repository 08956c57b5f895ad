# Table-tennis referee: the match state machine in Dafny

This project models the scoring core of a table-tennis referee server and
proves properties of it. The server keeps one match. Four commands change it:
configure a match, score a point, undo the last point, and open a new set by
hand. Everyone watching gets the new snapshot after each command.

- `types.dfy` (module `Types`) holds the entities: `Player`, `MatchConfig`,
  `HistoriquePoint` and `MatchState`, with status `setup | playing | paused |
  finished`. Scores are pairs of natural numbers. Identifiers and times are
  opaque values.
- `game_rules.dfy` (module `GameRules`) holds the scoring rules as total
  functions:
  - set won at 11 points with a 2-point lead;
  - match won when a side has 3 sets (best of five);
  - 2 serves each, or 1 each from 10-10;
  - the server hand-over and the first server of each set;
  - the side-change decision, the side flip and the fifth-set banner.

  Beside these rules stands a reference definition of the service order,
  `ScheduledServer`/`ScheduledServes`, which gives the server as a function
  of the score alone. `ServiceRotation` proves that the rotation rule follows
  this order.
- `match_server.dfy` (module `MatchServer`) gives each command as a function
  from the old snapshot to the new one. The class `MatchController` holds
  `currentMatch: Option<MatchState>`, with one method per command. Each
  method updates the held match step by step, as the event handler does, and
  its contract ties the result to the command's function.
- `match_invariants.dfy` (module `MatchInvariants`) states what the commands
  preserve:
  - `WellFormed`: the shape of a best-of-five match and of its point history;
  - `OnSchedule`: the service order;
  - `SidesAgree`: the ends of the table with the one-shot fifth-set flag.

  It proves that configure and score-point keep all three, across any
  number of points (`ReplayConsistent`). The fifth set changes ends on
  exactly one point (`FifthSetSwapsOnce`). Undo takes back a point as far as
  the code does.
- `match_findings.dfy` (module `MatchFindings`) covers three defects in undo
  and new-set. See "## Findings".
- `state_compatibility.dfy` (module `StateCompatibility`) models the client's
  loader for persisted snapshots. The snapshot is a class that the loader
  completes in place. A pure function, `Migrated`, specifies the loader, and
  lemmas prove its result complete and idempotent.

The controller class keeps the behaviour of the code. This includes three
behaviours a reader might not expect:
- undo recomputes the serve count from the restored score;
- undoing the point that ended the match leaves the match finished;
- a manual new set takes its server from the parity of the set number before
  it is incremented.

The corrected definitions in `MatchFindings` stand beside the controller.
The controller does not use them.

## Model

| member | source | states |
|---|---|---|
| GameRules.IsSetWon | server/src/utils/gameRules.ts:4-7 | a set is won exactly when the side with at least 11 points leads by at least 2 |
| GameRules.SetsWon | server/src/utils/gameRules.ts:10-11 | the number of pairs a side is strictly ahead in never exceeds the number of sets |
| GameRules.IsMatchFinished | server/src/utils/gameRules.ts:9-13 | a finished match has at least 3 sets; an unfinished one has at most 2 sets won by each side |
| GameRules.SetsWonPartition | server/src/utils/gameRules.ts:10-11 | with no tied pair, the sets won by A and by B add up to the number of sets |
| GameRules.BestOfFive | server/src/utils/gameRules.ts:9-13 | five won sets always finish the match |
| GameRules.MatchFinishedPersists | server/src/utils/gameRules.ts:9-13 | appending a set to a finished history keeps it finished |
| GameRules.GetServicesPerPlayer | server/src/utils/gameRules.ts:15-20 | the result is 1 or 2, and it is 1 exactly when both scores are at least 10 |
| GameRules.HandOverIgnoresScore | server/src/utils/gameRules.ts:22-29 | for a given count of remaining serves, the hand-over decision is the same whatever the two scores are |
| GameRules.GetNextServer | server/src/utils/gameRules.ts:31-33 | the next server is always the other player |
| GameRules.GetFirstServerNextSet | server/src/utils/gameRules.ts:35-40 | odd sets open with the match's first server, even sets with the other player |
| GameRules.FirstServersAlternate | server/src/utils/gameRules.ts:35-40 | consecutive sets are opened by different players |
| GameRules.UpdateServiceState | server/src/utils/gameRules.ts:42-63 | when the decremented count is 0 or less, service passes to the other player with the count for the post-point score; otherwise the same server keeps the decremented count; a count in 1..2 stays in 1..2 |
| GameRules.ServiceRotation | server/src/utils/gameRules.ts:42-63 | from a score not yet won, with server and count on the service order, one point leaves them on the service order (blocks of two, one each from 10-10) |
| GameRules.ShouldChangeSides | server/src/utils/gameRules.ts:65-81 | true when the set number went up; otherwise true only in set 5 with the flag down, when the leading score goes from below 5 to exactly 5; never with the flag up and the same set |
| GameRules.ChangeSides | server/src/utils/gameRules.ts:83-88 | both players move to the other end, so opposite players stay opposite |
| GameRules.ChangeSidesTwice | server/src/utils/gameRules.ts:83-88 | changing sides twice restores the ends |
| GameRules.GetSideChangeMessage | server/src/utils/gameRules.ts:90-104 | the next-point warning exactly in set 5 with the flag down and a leading score of 4; the countdown for other scores; the done message in set 5 with the flag up; the empty string exactly outside set 5 |
| MatchServer.CreateNewMatch | server/src/index.ts:33-51 | set 1, score 0-0, no sets and no history, the configured first server with 2 serves, playing, the configured ends, flag down |
| MatchServer.ScorePoint | server/src/index.ts:65-124 | no effect unless playing; otherwise one history entry with the pre-point score, post-point score, set, winner, pre-point server and kind normal; mid-set, the winner's score goes up by one with the new service state; a won set joins the set history and either finishes the match (set number and score kept) or opens the next set at 0-0 with its first server, 2 serves and, in set 5, the flag down; outside set 5, no mid-set change of ends; in set 5, the ends change and the flag goes up exactly on the point that first takes the leader from 4 to 5 with the flag down; a set won without finishing the match changes both ends, and the flag is lowered when set 5 opens and kept otherwise; the match-ending point keeps the ends and flag and leaves the server and count the service rules give |
| MatchServer.UndoPoint | server/src/index.ts:129-147 | no effect on an empty history; otherwise history shrinks by one and score and server come from the last entry; the count is recomputed from that score; set number, set history and status are rolled back only when the entry's set differs; ends and flag stay |
| MatchServer.NewSet | server/src/index.ts:151-165 | next set number, 0-0, 2 serves, playing; server by the parity of the old set number; set history, history, ends and flag untouched |
| MatchServer.MatchController.constructor | server/src/index.ts:21 | the server starts without a match |
| MatchServer.MatchController.OnMatchConfig | server/src/index.ts:60-63 | the current match becomes a new match, replacing any other |
| MatchServer.MatchController.OnPointScored | server/src/index.ts:65-127 | no match stays no match; a match not playing is untouched; otherwise the held match becomes ScorePoint of it |
| MatchServer.MatchController.OnUndoPoint | server/src/index.ts:129-149 | no match or an empty history changes nothing; otherwise the held match becomes UndoPoint of it |
| MatchServer.MatchController.OnNewSet | server/src/index.ts:151-167 | no match stays no match; otherwise the held match becomes NewSet of it, whatever its status |
| MatchInvariants.NewMatchConsistent | server/src/index.ts:33-51 | a configured match is well formed, on the service order, and its ends and flag agree |
| MatchInvariants.ScorePointKeepsHistory | server/src/index.ts:73-91 | after a point, history entries are still ordered by set, each one point apart, and linked to the current set number |
| MatchInvariants.ScorePointKeepsWellFormed | server/src/index.ts:102-124 | a point keeps the set count equal to the set number minus one while playing, and the set number at most 5; a finished match has its deciding set last, and that set is both its live score and the score after its last recorded point |
| MatchInvariants.ScorePointKeepsSchedule | server/src/index.ts:84-114 | a point keeps the server, the count and every recorded server on the service order, across the end of a set too |
| MatchInvariants.ScorePointKeepsSides | server/src/index.ts:94-122 | a point keeps the ends at one change per completed set plus the fifth-set change; the flag is down before set 5 and, in set 5, up exactly when the lead has reached 5 |
| MatchInvariants.FifthSetSwapsOnce | server/src/index.ts:95-100 | in set 5 the ends change on a point exactly when it takes the leading score from 4 to 5, and the flag is then up exactly when the lead is 5 or more |
| MatchInvariants.UndoKeepsWellFormed | server/src/index.ts:129-147 | undo during play keeps the match well formed, also across a set boundary |
| MatchInvariants.UndoTakesBackPoint | server/src/index.ts:129-147 | undo after a point that did not end the match restores score, server, history, set number, set history and status; the count becomes the one for the restored score |
| MatchInvariants.UndoMatchPointStaysFinished | server/src/index.ts:102-138 | undo after the match-ending point restores score and server but the match stays finished with the final set in its set history |
| MatchInvariants.ValidConfigSidesOpposite | client/src/pages/Setup.tsx:116-172 | a configuration the setup form can send starts the players on opposite ends |
| MatchInvariants.SidesStayOpposite | server/src/index.ts:94-123 | players on opposite ends stay opposite through score, undo and new set |
| MatchInvariants.ReplayConsistent | server/src/index.ts:65-127 | any sequence of points keeps a consistent match consistent |
| MatchInvariants.PlayedMatchConsistent | server/src/index.ts:60-127 | a match configured and then scored only by points is consistent and never goes past set 5 |
| MatchFindings.UndoForgetsServeCount | server/src/index.ts:140-146 | after two points by A from 0-0 and an undo, A has 2 serves left instead of 1 and serves a third point running |
| MatchFindings.UndoServeCountOffByOne | server/src/index.ts:144 | below 10-10, undoing a point played on the second serve leaves one serve too many |
| MatchFindings.UndoKeepsMatchFinished | server/src/index.ts:134-138 | undo in a finished match, within the final set, keeps it finished with the same set number and set history, while the live score goes back to one that had not won the final set, so the match is no longer well formed |
| MatchFindings.UndoPastFinalSetMiscounts | server/src/index.ts:134-138 | the undo that leaves the final set of a finished match reopens it with as many sets as the set number, so the match is no longer well formed |
| MatchFindings.IntendedUndo | server/src/index.ts:129-147 | corrected undo: the count follows the service order at the restored score, and undoing in a finished match reopens it |
| MatchFindings.IntendedUndoTakesBackPoint | server/src/index.ts:129-147 | the corrected undo restores everything but ends and flag after any point, the match-ending one included |
| MatchFindings.IntendedUndoKeepsWellFormed | server/src/index.ts:129-147 | the corrected undo keeps a match well formed, finished or not |
| MatchFindings.IntendedUndoKeepsSchedule | server/src/index.ts:129-147 | the corrected undo keeps the service on schedule |
| MatchFindings.NewSetServerOffSchedule | server/src/index.ts:158-161 | the manual new set is never opened by the first server the rules give that set |
| MatchFindings.IntendedNewSet | server/src/index.ts:151-165 | corrected new set: opened by the rules' first server of the new set number |
| MatchFindings.IntendedNewSetOnSchedule | server/src/index.ts:151-165 | the corrected new set keeps the service on schedule |
| StateCompatibility.Migrated | client/src/utils/stateCompatibility.ts:5-32 | refuses a snapshot exactly when config or score is missing; keeps existing ends, flag and first initial end; fills missing ends from the initial ends (default left/right), a missing flag with false, and a missing first initial end with left and right, overwriting the second |
| StateCompatibility.MigratedComplete | client/src/utils/stateCompatibility.ts:14-30 | an accepted snapshot comes out with ends, flag and first initial end present |
| StateCompatibility.MigrateIdempotent | client/src/utils/stateCompatibility.ts:14-32 | loading an already loaded snapshot changes nothing |
| StateCompatibility.MigrateMatchState | client/src/utils/stateCompatibility.ts:3-37 | null for a missing or non-object input, or when config or score is missing; otherwise the same object, completed as Migrated says, with every other field and the other config fields unchanged |

## Left out

- Transport: the socket and web server setup, broadcasts, the snapshot sent to a newly connected client, connect/disconnect logging and the port. They carry snapshots and do not compute them.
- Clocks and identifiers: `Date.now()` and `new Date()` become the `id`, `timestamp` and `startTime` parameters.
- `createInitialStats` and the `statistiques` field: the server creates them and never updates them.
- The `setup` and `paused` statuses exist in the type, but no command ever enters them.
- `MatchState` is a value here. The handlers' shallow copies share the set-history array with an old copy that nothing reads afterwards, so value semantics loses nothing.
- Scores and set numbers are natural numbers. The handlers never make them negative or fractional, so JavaScript's `%` on negative set numbers is not modelled.
- `StateCompatibility.MigrateMatchState`, on JavaScript's loose typing: every non-object input stands as `null`, because both take the same path.
- `StateCompatibility.MigrateMatchState` assumes `config` is an object when present. A primitive `config` makes the property assignment throw, and the `catch` path that returns null is not modelled.
- `StateCompatibility.MigrateMatchState` treats a snapshot field as present or absent. An empty string for an initial end (falsy in JavaScript) and a `null` fifth-set flag (kept, since only `undefined` is replaced) are not represented.
- `StateCompatibility.MigrateMatchState` assumes every snapshot field the loader never reads is present.
- `clearIncompatibleState`, the client socket hook and local storage, and every page and component of the client. They are display and persistence only. From the setup form only its precondition on a configuration is kept (`ValidConfig`).
- Undo, as written, does not keep the service on schedule (see "## Findings"). It also leaves `coteActuel` and `changementCoteEffectue` as they are, so the ends can fall out of step with the restored score and set. `MatchInvariants.UndoKeepsWellFormed` is therefore stated for a playing match only, and only for well-formedness.
- A manual new set does not add a set to the set history, so its result is not well formed in the sense of `WellFormed`. Nothing is proved about it beyond its contract and the server-parity finding.

## Findings

| source | as written | input that shows it | evidently intended | confidence | as-written member | corrected member |
|---|---|---|---|---|---|---|
| server/src/index.ts:144 | undo sets the remaining serves from the restored score with `getServicesPerPlayer`, which gives 2 below 10-10 | A serves first from 0-0 and wins two points, then the second point is undone: A has 2 serves left at 1-0 instead of 1, and serves three points running | undo restores the serve count the point started with (the count of the service order at that score) | medium, not executed | MatchFindings.UndoForgetsServeCount | MatchFindings.IntendedUndoTakesBackPoint |
| server/src/index.ts:134-138 | the match is reopened and a set popped only when the entry's set number differs from the current one, but the match-ending point never advances the set number; the server handler accepts the undo from any socket client, but the shipped referee page disables its undo button unless the match is playing (client/src/pages/Arbitre.tsx:191), so only another client can send these inputs | a 3-0 match whose third set is won 11-0: after the last point, undo the 11 points of set 3 (the match stays finished), then undo once more; the match plays set 2 again with sets 1 and 2 already counted as won, and finishes as soon as A wins set 2 again; if B wins it, set 3 opens with three sets already in the set history | undoing the match-ending point reopens the match and takes the final set out of the set history | medium, not executed | MatchFindings.UndoPastFinalSetMiscounts | MatchFindings.IntendedUndoKeepsWellFormed |
| server/src/index.ts:158-161 | the manual new set takes its server from `getFirstServerNextSet` of the set number before the increment; the server handler accepts the command from any socket client, but the shipped referee page takes `newSet` from its hook (client/src/pages/Arbitre.tsx:16) and binds it to no control, so only another client can send it | first server A; while set 1 is still the current set (set number 1), a client sends the new-set command: set 2 opens with A, where the scoring path gives set 2 to B | the server of the new set number, as when a set ends by scoring | medium, not executed | MatchFindings.NewSetServerOffSchedule | MatchFindings.IntendedNewSetOnSchedule |

The controller keeps the code's behaviour in all three cases. The corrected
definitions stand beside it, each with the intended property proved.
