# Reshaper: a verified model of the Tenhou game reshaper

The `Reshaper` class turns one game log, read from Tenhou's flat XML
event stream, into a nested structure. The output is a `GAME` element
whose children are `HAND` elements, plus the `BYE` and `DORA` events
copied through. Each `HAND`:

- carries the `INIT` setup attributes (`oya`, `hai0`..`hai3`, `ten`);
- gets a result when an `AGARI` (win) or `RYUUKYOKU` (abortive or
  exhaustive draw) ends it;
- on a draw, gets the four score deltas taken from the `sc` attribute;
- holds, in stream order, one sub-event for each draw (`I`), discard
  (`O`, flagged *tsumogiri* when the discarded tile is the one that seat
  just drew) and riichi declaration (`RIICHI`).

Tile indices 1..136 are mapped to database tile ids: man 1-9, pin 11-19,
sou 21-29 and honours 30-36. The three red fives go to 0, 9 and 18. Meld
codes are decoded from their low bits. Unknown tags, unknown melds and a
riichi that does not start with step 1 are written to an error log.

## Structure

- `tiles.dfy` (`Tiles`): `convert_index_to_tile`. It comes with a
  reference definition by suit and number, and lemmas about red fives,
  injectivity per tile kind and monotonicity.
- `melds.dfy` (`Melds`): the meld-type bit tests of `process_call`.
- `deltas.dfy` (`Deltas`): Python `split(',')` and `join`, and
  `get_deltas`. The split/join round trip is proved.
- `events.dfy` (`Events`): an input event (tag plus attribute map). It
  also holds Python's `get`, slicing and `int()` on digit strings, and
  the tag dispatch of `process` (`Classify`).
- `hand_tree.dfy` (`HandTree`): the output tree and the walk as functions.
  `Step` handles the event under the cursor and returns the next cursor.
  `Run` repeats `Step` to the end. `StepOk` and `RunsClean` say, up to
  the cases listed under "Left out", when the source raises no exception.
- `hand_tree_facts.dfy` (`HandTreeFacts`): properties of the walk:
  - *tsumogiri* tracks the latest draw;
  - every emitted hand is closed;
  - what each hand ending and each error path changes.
- `scenarios.dfy` (`Scenarios`): whole walks over a riichi sequence and a
  one-hand game.
- `reshaper.dfy` (`Reshape`, `ReshapeGame`): the `Reshaper` class itself.
  It keeps the fields `game` (the input events), `sep`, `discards`,
  `lastDrawn`, `currentHand` and the error log, and has one method per
  source method. `Process` runs a `while` loop with an explicit cursor
  and is proved to compute `HandTree.Run`. lxml's `append` moves an
  element from its old parent, so `Process` also removes the `BYE` and
  `DORA` events it copies from `game`. What remains is `HandTree.Kept`
  of the old list, and a second `process` call walks that shorter list.

An exception in Python is a precondition here. The preconditions cover
a subset of the inputs the source handles without raising, up to the
cases listed under "Left out". Two of those cases go the other way: an
N right after a riichi discard, and a `DRAWS` lookup that fails. There
the source raises but the model carries on.

Where the code departs from what its output evidently means to hold,
the model follows the code:

- `process_call` appends nothing to the hand on a recognised meld. The
  call is decoded and then dropped.
- `handle_win` sets only the result. Winning hands get no score deltas.
- An `INIT` while a hand is open replaces the open hand without error.
- A red five maps to `idx // 36 * 9`, which is 0, 9 or 18. Ids 9 and 18
  are also the ids of 9-man (raw 33..36) and 8-pin (raw 65..68)
  (`Tiles.RedFiveCollisions`). The mapping is kept as written.
- *Tsumogiri* compares the tile text of the draw and discard tags, not
  the tile numbers.
- A riichi step other than `'1'` is logged and the walk goes on with the
  event right after the REACH.

## Model

| member | source | states |
|---|---|---|
| Tiles.ConvertIndexToTile | reshaper.py:159-175 | each suit's non-red indices land in that suit's id range (1-9, 11-19, 21-29); honours land in 30-36 |
| Tiles.RedFivesAre | reshaper.py:166 | among 1..136, the red-five test holds exactly for 17, 53 and 89 |
| Tiles.RedFiveIds | reshaper.py:166-168 | a red five maps to 9 times its suit: 0, 9, 18 |
| Tiles.NonRedTile | reshaper.py:165-173 | every other index maps to 10*suit + number (suited) or 30 + honour number; this is an independent reference definition |
| Tiles.SameIdIffSameKind | reshaper.py:165-173 | two non-red indices share an id iff they are copies of the same tile (same (idx-1)//4) |
| Tiles.Monotonic | reshaper.py:163-173 | ids follow the index order man, pin, sou, honours for non-red tiles |
| Tiles.DocumentedExamples | reshaper.py:164 | 1-4 give 1-man, 5-8 give 2-man, 37 gives 1-pin (11), 109 gives East (30) |
| Tiles.RedFiveCollisions | reshaper.py:168 | red 5-pin shares id 9 with 9-man, red 5-sou shares id 18 with 8-pin; only red 5-man gets id 0 |
| Melds.ClassifyMeld | reshaper.py:100-115 | the meld type from the bits, checked in the source's order; each outcome, including "unknown", holds iff its bit pattern holds |
| Melds.PatternsDisjoint | reshaper.py:100-111 | no meld code passes two of the four masked tests, so the order in which they are tried does not change the type |
| Melds.OnlyLowByteMatters | reshaper.py:100-109 | adding multiples of 256 to the meld code never changes its type |
| Deltas.Split | reshaper.py:183 | `split(',')` gives at least one field and no field holds a comma |
| Deltas.SplitJoin | reshaper.py:183-184 | splitting the join of comma-free fields gives back those fields |
| Deltas.GetDeltas | reshaper.py:177-184 | the result splits into exactly fields 1, 3, 5 and 7 of `sc` |
| Deltas.DeltasOfRecord | reshaper.py:183-184 | for an 8-field `sc` record, the result is the join of its odd fields |
| Deltas.Example | reshaper.py:183-184 | `250,-10,260,30,240,-20,250,0` gives `-10,30,-20,0` |
| Events.Get | reshaper.py:138 | `attrib.get` is Some exactly when the key is present, with its value |
| Events.Slice | reshaper.py:120 | Python slicing clamps to the string and yields the characters from `lo` |
| Events.SeatOf | reshaper.py:119 | `tuple.index` returns the first position holding the letter |
| Events.Classify | reshaper.py:38-67 | the if-chain of `process`: each kind iff its tag test, with exact tags before the first-letter tests and UN a seat identity only while no hand is open |
| Events.ExactTagsBeforePrefixes | reshaper.py:40-49 | DORA, GO and TAIKYOKU are never taken as a discard or a draw |
| HandTree.NewHand | reshaper.py:77-79 | the new HAND has exactly the six setup keys with INIT's values, no result, no scores, no events |
| HandTree.WinOutcome | reshaper.py:89-91 | Tsumo iff `who` equals `fromWho` (both absent counts as equal), Ron otherwise |
| HandTree.DrawOutcome | reshaper.py:82 | a draw result whose kind is `type`, or `exhaustive` when that is absent or empty |
| HandTree.CloseOnWin | reshaper.py:88-92 | a win sets only the result; setup, scores and events are kept |
| HandTree.CloseOnDraw | reshaper.py:81-83 | a draw sets the result and the deltas of `sc`; setup and events are kept |
| HandTree.DrawEvent | reshaper.py:118-123 | the I element names the drawing seat and the converted tile id of the tag's tile text |
| HandTree.DiscardEvent | reshaper.py:125-132 | the seat is the position of the tag's letter in DEFG; the tile is the converted id of the tile text; tsumogiri iff that seat's last drawn text equals the tile text |
| HandTree.CallLog | reshaper.py:94-115 | at most one log entry, and none iff the meld is recognised; the entry is the unknown-meld error carrying the meld code and the log id |
| HandTree.Next | reshaper.py:134-156 | the cursor moves one event, except after a REACH with step 1, where it moves two or three |
| HandTree.RiichiStep | reshaper.py:134-156 | step other than '1': one error, cursor unchanged. Step '1': RIICHI then the next discard are appended, and the cursor skips the discard, plus a REACH or N after it |
| HandTree.Step | reshaper.py:36-67 | the cursor moves forward; a hand opens only at INIT and never closes; output items and log only grow |
| HandTree.StepCursor | reshaper.py:34-64 | the cursor after a step is Next's: one event on, or past the riichi sequence |
| HandTree.Run | reshaper.py:34-67 | output items and the error log only grow over the whole walk |
| HandTree.Kept | reshaper.py:42-49 | the input game after the walk holds no BYE and no DORA, and is no longer than before |
| HandTree.KeptIdempotent | reshaper.py:42-49 | walking the kept events again moves nothing more |
| HandTree.KeptAdvance | reshaper.py:42-49 | one step either drops the moved event at the cursor or leaves the input game as it is |
| HandTree.StepMovesOnlyItself | reshaper.py:42-156 | a BYE or DORA is consumed alone, and a riichi sequence consumes none |
| HandTreeFacts.UnIsNoTileText | reshaper.py:45 | a UN after the first hand reaches `draw_to_xml` with the tile text "N", which `int()` rejects |
| HandTreeFacts.PlainStepReplays | reshaper.py:59-60 | outside riichi, the last-drawn table after a step is the old table updated by that event's draw, if any |
| HandTreeFacts.RiichiSkipsNoDraw | reshaper.py:143-154 | the events a riichi step consumes are no draws, so the table is unchanged |
| HandTreeFacts.RiichiTracksLastDrawn | reshaper.py:143-154 | a riichi sequence keeps the table equal to a replay of every draw up to the new cursor |
| HandTreeFacts.StepTracksLastDrawn | reshaper.py:118-121 | one step keeps the table equal to a replay of every draw up to the cursor |
| HandTreeFacts.RunTracksLastDrawn | reshaper.py:34-67 | after the walk, the table is the replay of all draws in the stream |
| HandTreeFacts.TsumogiriIffLatestDraw | reshaper.py:130 | a discard is flagged tsumogiri iff its tile text is that seat's most recent draw in the stream |
| HandTreeFacts.RiichiDiscardTsumogiri | reshaper.py:147 | the same for the discard inside a riichi sequence |
| HandTreeFacts.DrawAndDiscardSlots | reshaper.py:118-132 | a draw changes only its own seat's slot; a discard changes no slot |
| HandTreeFacts.StepKeepsHandsClosed | reshaper.py:50-56 | a step appends a HAND only once it has a result |
| HandTreeFacts.RunKeepsHandsClosed | reshaper.py:34-67 | every HAND in the output carries a result |
| HandTreeFacts.WinAppendsHand | reshaper.py:50-53 | AGARI appends exactly one hand: the open one with Tsumo/Ron set, the scores unchanged; the log, the GAME attributes and the last-drawn table stay as they were |
| HandTreeFacts.AbortiveDrawAppendsHand | reshaper.py:54-56 | RYUUKYOKU appends exactly one hand with its draw kind and the odd `sc` fields as scores; the log, the GAME attributes and the last-drawn table stay as they were |
| HandTreeFacts.InitOpensHand | reshaper.py:38-39 | INIT opens NewHand of its attributes and clears the table; output and log are kept |
| HandTreeFacts.IgnorableChangesNothing | reshaper.py:40-41 | SHUFFLE, GO and TAIKYOKU change nothing |
| HandTreeFacts.ByeAppendsItem | reshaper.py:42-44 | BYE adds one output item and changes nothing else |
| HandTreeFacts.DoraAppendsItem | reshaper.py:48-49 | DORA adds one output item and changes nothing else |
| HandTreeFacts.SeatIdentitySetsAttrs | reshaper.py:45-47 | UN before the first hand adds its keys to the GAME attributes, its values replace existing ones, other attributes are kept |
| HandTreeFacts.DrawAppendsEvent | reshaper.py:59-60 | a draw appends its I element to the open hand; output and log are kept |
| HandTreeFacts.DiscardAppendsEvent | reshaper.py:57-58 | a discard appends its O element to the open hand and changes nothing else |
| HandTreeFacts.UnknownTagOnlyLogs | reshaper.py:65-67 | an unknown tag adds one log entry and changes nothing else |
| HandTreeFacts.BadRiichiStepOnlyLogs | reshaper.py:138-140 | a REACH whose step is not '1' adds one log entry and changes nothing else |
| HandTreeFacts.CallAppendsNothing | reshaper.py:61-62 | an N only adds CallLog to the log, one entry iff the meld is unknown; hand, output, GAME attributes and table are kept |
| Scenarios.RiichiSequence | reshaper.py:134-156 | REACH(1), F12, REACH(2) gives RIICHI(2) then a 3-man discard by seat 2, and consumes all three events |
| Scenarios.SingleHandTsumo | reshaper.py:34-67 | INIT, T5, D5, AGARI(who=fromWho=0) gives one Tsumo hand: a 2-man draw, then a tsumogiri 2-man discard |
| Reshape.Reshaper.constructor | reshaper.py:15-22 | all tables are four empty strings, there is no hand and the log is empty |
| Reshape.Reshaper.LogError | reshaper.py:186-189 | the message is appended to the log |
| Reshape.Reshaper.InitHandVars | reshaper.py:71-79 | the three tables are cleared slot by slot and the open hand becomes NewHand of the INIT attributes |
| Reshape.Reshaper.HandleDraw | reshaper.py:81-83 | the open hand becomes CloseOnDraw of itself |
| Reshape.Reshaper.HandleWin | reshaper.py:88-92 | the open hand becomes CloseOnWin of itself |
| Reshape.Reshaper.ProcessCall | reshaper.py:94-116 | the log grows by CallLog: one entry iff the meld is unknown |
| Reshape.Reshaper.DrawToXml | reshaper.py:118-123 | the seat's last-drawn slot becomes the tile text and the draw sub-event is returned |
| Reshape.Reshaper.DiscardToXml | reshaper.py:125-132 | returns the discard of the seat whose letter leads the tag, its tile id, tsumogiri iff the slot matches; nothing changes |
| Reshape.Reshaper.HandleRiichi | reshaper.py:134-156 | the hand, log and returned cursor are those of RiichiStep |
| Reshape.Reshaper.HandleEvent | reshaper.py:36-67 | one loop iteration yields exactly Step's state and cursor; a BYE or DORA leaves the input game; `sep` and `discards` are cleared by INIT and kept otherwise |
| Reshape.Reshaper.Dispatch | reshaper.py:38-67 | the if-chain on one event yields exactly Step's state and cursor; `sep` and `discards` are cleared by INIT and kept otherwise |
| Reshape.Reshaper.Detach | reshaper.py:42-49 | the appended child is removed from the input game, the others stay in order |
| Reshape.Reshaper.Process | reshaper.py:24-69 | the returned game, the table, the hand and the log are those of Run over the input game before the call; the input game becomes Kept of it; `sep` and `discards` are either kept or cleared |
| ReshapeGame.ReshapeGame | reshaper.py:15-69 | a fresh Reshaper's `process` returns Run from the initial state and leaves Kept of the input; the GAME has an `id`, which is the log id when no UN carries `id` |
| ReshapeGame.RunKeepsId | reshaper.py:32-47 | an `id` attribute remains; its value stays the one set at the start unless a UN before the first hand carries `id` |
| ReshapeGame.UnReplacesId | reshaper.py:45-47 | a UN carrying `id` before the first hand replaces the log id |

## Left out

- XML parsing and serialisation (lxml): events are a tag plus an
  attribute map, and the output is a datatype tree. `etree.XML` on a
  log id containing a quote is not modelled.
- Writing to stderr: `log_error` appends a `LogEntry` value to the
  object's log.
- The numbers in `OUTCOMES` and `DRAWS` (`constants.py` is not part of
  this model). Results are the abstract `Outcome` values. The `KeyError`
  that `DRAWS` raises for an unknown draw type is not modelled.
- Python exceptions are preconditions (`StepOk`, `RiichiOk`,
  `RunsClean`), not modelled error paths:
  - an empty tag;
  - an INIT missing a setup key;
  - a win, draw, discard or draw tile with no open hand;
  - `sc` missing or with fewer than 8 fields;
  - a `who`, `m` or tile text that `int()` rejects;
  - a UN after the first hand;
  - a riichi whose discard or the event after it is past the end, or
    whose next event is not a discard.
- Events.IntAttr: only plain ASCII digit strings are accepted. Python
  `int()` also takes a sign, surrounding whitespace and underscores;
  those inputs are excluded by the preconditions.
- Reshape.Reshaper.HandleRiichi: an N right after the riichi discard is
  consumed without being decoded. The source calls `process_call` with
  two arguments there, which raises `TypeError`.
- Object identity: an appended HAND is a snapshot. The BYE and DORA
  elements leaving the input game are modelled (`HandTree.Kept`), but two
  other effects of lxml are not:
  - the hand appended by a second AGARI (double ron) is a new child,
    where lxml would move the single element;
  - sub-events arriving after a hand is appended do not change the
    appended copy.
- The `sep` and `discards` tables are only reset; the source never reads
  them. The `cursor` field is never used and is omitted.
- Deltas.Example: the example `sc` record is given as its field list,
  joined with `Join`, not as a string literal.
