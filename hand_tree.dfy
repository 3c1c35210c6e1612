/**
 * The reshaped game and the walk over the flat event list that builds it,
 * written as functions: Step handles the event under the cursor and says
 * where the cursor goes next, Run repeats Step to the end of the list.
 * The class Reshape.Reshaper is proved to compute exactly Run.
 */
module HandTree {
  import opened Wrappers
  import opened Events
  import Tiles
  import Melds
  import Deltas

  /** The sub-events of a hand: I, O and RIICHI elements. */
  datatype SubEvent =
    | Draw(who: nat, tile: int)
    | Discard(who: nat, tile: int, tsumogiri: bool)
    | Riichi(who: nat)

  /** The result attribute of a hand; the numbers behind OUTCOMES and DRAWS are not part of this model. */
  datatype Outcome = Tsumo | Ron | Ryuukyoku(kind: string)

  /**
   * A HAND element: the attributes copied from INIT, the result and score
   * deltas set when it ends, and its sub-events in stream order.
   */
  datatype Hand = Hand(setup: map<string, string>, result: Option<Outcome>, scores: Option<string>, events: seq<SubEvent>)

  /** The children of the output GAME element. */
  datatype Item =
    | ByeItem(byeAttrs: map<string, string>)
    | DoraItem(doraAttrs: map<string, string>)
    | HandItem(hand: Hand)

  /** The messages of log_error. */
  datatype LogEntry =
    | UnknownTagError(tag: string, logId: string)
    | UnknownMeldError(meld: nat, logId: string)
    | RiichiStepError(logId: string)

  /** The output GAME element: its attributes and children. */
  datatype GameOut = GameOut(attrs: map<string, string>, items: seq<Item>)

  /**
   * Everything the walk reads and writes: the per-seat last drawn tile text,
   * the open hand, the output game and the error log.
   */
  datatype State = State(lastDrawn: seq<string>, hand: Option<Hand>, attrs: map<string, string>, items: seq<Item>, log: seq<LogEntry>)

  const SetupKeyList: seq<string> := ["oya", "hai0", "hai1", "hai2", "hai3", "ten"]
  const SetupKeys: set<string> := {"oya", "hai0", "hai1", "hai2", "hai3", "ten"}
  const NoDraws: seq<string> := ["", "", "", ""]

  /** The state before the first event of a fresh Reshaper. */
  function Initial(logId: string): State {
    State(NoDraws, None, map["id" := logId], [], [])
  }

  /** The HAND created by init_hand_vars. */
  function NewHand(attrs: map<string, string>): (h: Hand)
    requires SetupKeys <= attrs.Keys
    ensures h.setup.Keys == SetupKeys
    ensures forall k :: k in SetupKeys ==> h.setup[k] == attrs[k]
    ensures h.result == None && h.scores == None && h.events == []
  {
    Hand(map k | k in SetupKeys :: attrs[k], None, None, [])
  }

  /** handle_win: Tsumo when who equals fromWho (both absent counts as equal), otherwise Ron. */
  function WinOutcome(e: Event): (r: Outcome)
    ensures r == Tsumo <==> Get(e.attrs, "who") == Get(e.attrs, "fromWho")
    ensures r != Tsumo ==> r == Ron
  {
    if Get(e.attrs, "who") == Get(e.attrs, "fromWho") then Tsumo else Ron
  }

  /** handle_draw: the draw type, or 'exhaustive' when it is absent or empty. */
  function DrawOutcome(e: Event): (r: Outcome)
    ensures r.Ryuukyoku?
    ensures "type" in e.attrs && e.attrs["type"] != "" ==> r.kind == e.attrs["type"]
    ensures ("type" !in e.attrs || e.attrs["type"] == "") ==> r.kind == "exhaustive"
  {
    match Get(e.attrs, "type")
    case Some(t) => if t != "" then Ryuukyoku(t) else Ryuukyoku("exhaustive")
    case None => Ryuukyoku("exhaustive")
  }

  predicate HasDeltas(e: Event) {
    "sc" in e.attrs && |Deltas.Split(e.attrs["sc"])| >= 8
  }

  /** The hand as handle_win leaves it: the result is set, the scores are not. */
  function CloseOnWin(h: Hand, e: Event): (r: Hand)
    ensures r.result == Some(WinOutcome(e))
    ensures r.setup == h.setup && r.scores == h.scores && r.events == h.events
  {
    h.(result := Some(WinOutcome(e)))
  }

  /** The hand as handle_draw leaves it: result and score deltas set. */
  function CloseOnDraw(h: Hand, e: Event): (r: Hand)
    requires HasDeltas(e)
    ensures r.result == Some(DrawOutcome(e)) && r.scores == Some(Deltas.GetDeltas(e.attrs["sc"]))
    ensures r.setup == h.setup && r.events == h.events
  {
    h.(result := Some(DrawOutcome(e)), scores := Some(Deltas.GetDeltas(e.attrs["sc"])))
  }

  function AddEvents(h: Hand, evs: seq<SubEvent>): Hand {
    h.(events := h.events + evs)
  }

  predicate TileTextOk(tag: string) {
    IsDigits(TileText(tag))
  }

  function TileOf(tag: string): int
    requires TileTextOk(tag)
  {
    Tiles.ConvertIndexToTile(DecimalValue(TileText(tag)))
  }

  /** The I element of draw_to_xml. */
  function DrawEvent(e: Event, seat: nat): (r: SubEvent)
    requires TileTextOk(e.tag)
    ensures r.Draw? && r.who == seat && r.tile == TileOf(e.tag)
  {
    Draw(seat, TileOf(e.tag))
  }

  /** The O element of discard_to_xml: tsumogiri when the tile text is the seat's last drawn text. */
  function DiscardEvent(e: Event, lastDrawn: seq<string>): (r: SubEvent)
    requires IsDiscardTag(e.tag) && TileTextOk(e.tag) && |lastDrawn| == 4
    ensures r.Discard? && r.who < 4 && DiscardLetters[r.who] == e.tag[0]
    ensures r.tile == TileOf(e.tag)
    ensures r.tsumogiri <==> lastDrawn[r.who] == TileText(e.tag)
  {
    var p := SeatOf(DiscardLetters, e.tag[0]);
    Discard(p, TileOf(e.tag), lastDrawn[p] == TileText(e.tag))
  }

  /** What process_call adds to the log: one entry for an unknown meld, otherwise nothing. */
  function CallLog(e: Event, logId: string): (r: seq<LogEntry>)
    requires IsIntAttr(e, "who") && IsIntAttr(e, "m")
    ensures |r| <= 1
    ensures r == [] <==> Melds.ClassifyMeld(IntAttr(e, "m")).Some?
    ensures r != [] ==> r == [UnknownMeldError(IntAttr(e, "m"), logId)]
  {
    var m := IntAttr(e, "m");
    if Melds.ClassifyMeld(m).None? then [UnknownMeldError(m, logId)] else []
  }

  /**
   * handle_riichi with the REACH at index i can run: a step other than '1'
   * only logs; step '1' needs who, an open hand, a discard right after the
   * REACH and one more event after that discard.
   */
  predicate RiichiOk(game: seq<Event>, i: nat, handOpen: bool)
    requires i < |game|
  {
    var e := game[i];
    Get(e.attrs, "step") != Some("1") ||
      (IsIntAttr(e, "who") && handOpen && i + 2 < |game| &&
       IsDiscardTag(game[i + 1].tag) && TileTextOk(game[i + 1].tag))
  }

  /** The event under the cursor is handled without a Python exception. */
  predicate StepOk(game: seq<Event>, ptr: nat, handOpen: bool)
    requires ptr < |game|
  {
    var e := game[ptr];
    |e.tag| > 0 &&
    match Classify(e.tag, handOpen)
    case HandStart => SetupKeys <= e.attrs.Keys
    case Win => handOpen
    case AbortiveDraw => handOpen && HasDeltas(e)
    case DiscardBy(_) => handOpen && TileTextOk(e.tag)
    case DrawBy(_) => handOpen && TileTextOk(e.tag)
    case Call => IsIntAttr(e, "who") && IsIntAttr(e, "m")
    case ReadyDeclare => RiichiOk(game, ptr, handOpen)
    case _ => true
  }

  /** Whether the event under the cursor starts a riichi sequence (a REACH with step '1'). */
  predicate StartsRiichi(game: seq<Event>, ptr: nat, handOpen: bool)
    requires ptr < |game| && |game[ptr].tag| > 0
  {
    Classify(game[ptr].tag, handOpen) == ReadyDeclare && Get(game[ptr].attrs, "step") == Some("1")
  }

  /**
   * Where the cursor goes after the event at ptr: one past it, or past the
   * riichi discard, or also past a REACH or N that follows that discard.
   */
  function Next(game: seq<Event>, ptr: nat, handOpen: bool): (n: nat)
    requires ptr < |game| && StepOk(game, ptr, handOpen)
    ensures ptr < n <= |game|
    ensures n == ptr + 1 <==> !StartsRiichi(game, ptr, handOpen)
    ensures n <= ptr + 3
  {
    if StartsRiichi(game, ptr, handOpen) then
      if game[ptr + 2].tag == "REACH" || game[ptr + 2].tag == "N" then ptr + 3 else ptr + 2
    else ptr + 1
  }

  /** The walk from ptr to the end of the list raises no Python exception. */
  predicate RunsClean(game: seq<Event>, ptr: nat, handOpen: bool)
    decreases |game| - ptr
  {
    ptr >= |game| ||
      (StepOk(game, ptr, handOpen) &&
       RunsClean(game, Next(game, ptr, handOpen), handOpen || game[ptr].tag == "INIT"))
  }

  /**
   * handle_riichi, with ptr the index just past the REACH. A step other
   * than '1' logs one error and leaves the cursor; otherwise RIICHI and the
   * discard that follows are appended and the cursor skips the discard, and
   * also the next event when it is a REACH or an N.
   */
  function RiichiStep(game: seq<Event>, logId: string, st: State, ptr: nat): (res: (State, nat))
    requires 0 < ptr <= |game| && |st.lastDrawn| == 4
    requires RiichiOk(game, ptr - 1, st.hand.Some?)
    ensures res.0.lastDrawn == st.lastDrawn && res.0.attrs == st.attrs && res.0.items == st.items
    ensures res.0.hand.Some? == st.hand.Some?
    ensures Get(game[ptr - 1].attrs, "step") != Some("1") ==>
      res == (st.(log := st.log + [RiichiStepError(logId)]), ptr)
    ensures Get(game[ptr - 1].attrs, "step") == Some("1") ==>
      && res.0.log == st.log
      && res.0.hand == Some(AddEvents(st.hand.value,
           [Riichi(IntAttr(game[ptr - 1], "who")), DiscardEvent(game[ptr], st.lastDrawn)]))
      && res.1 == (if game[ptr + 1].tag in {"REACH", "N"} then ptr + 2 else ptr + 1)
  {
    var e := game[ptr - 1];
    if Get(e.attrs, "step") != Some("1") then
      (st.(log := st.log + [RiichiStepError(logId)]), ptr)
    else
      var who := IntAttr(e, "who");
      var h := AddEvents(st.hand.value, [Riichi(who), DiscardEvent(game[ptr], st.lastDrawn)]);
      var second := game[ptr + 1];
      (st.(hand := Some(h)), if second.tag == "REACH" || second.tag == "N" then ptr + 2 else ptr + 1)
  }

  /** One iteration of the loop in process: the event at ptr, and where the cursor goes. */
  function Step(game: seq<Event>, logId: string, st: State, ptr: nat): (res: (State, nat))
    requires ptr < |game| && |st.lastDrawn| == 4
    requires StepOk(game, ptr, st.hand.Some?)
    ensures ptr < res.1
    ensures |res.0.lastDrawn| == 4
    ensures res.0.hand.Some? == (st.hand.Some? || game[ptr].tag == "INIT")
    ensures st.items <= res.0.items && st.log <= res.0.log
  {
    var e := game[ptr];
    var k := Classify(e.tag, st.hand.Some?);
    assert k == ReadyDeclare <==> StartsRiichi(game, ptr, st.hand.Some?) || (e.tag == "REACH" && Get(e.attrs, "step") != Some("1"));
    assert k == HandStart <==> e.tag == "INIT";
    match k
    case HandStart => (st.(lastDrawn := NoDraws, hand := Some(NewHand(e.attrs))), ptr + 1)
    case Ignorable => (st, ptr + 1)
    case Disconnect => (st.(items := st.items + [ByeItem(e.attrs)]), ptr + 1)
    case SeatIdentity => (st.(attrs := st.attrs + e.attrs), ptr + 1)
    case DoraReveal => (st.(items := st.items + [DoraItem(e.attrs)]), ptr + 1)
    case Win =>
      var h := CloseOnWin(st.hand.value, e);
      (st.(hand := Some(h), items := st.items + [HandItem(h)]), ptr + 1)
    case AbortiveDraw =>
      var h := CloseOnDraw(st.hand.value, e);
      (st.(hand := Some(h), items := st.items + [HandItem(h)]), ptr + 1)
    case DiscardBy(p) =>
      (st.(hand := Some(AddEvents(st.hand.value, [DiscardEvent(e, st.lastDrawn)]))), ptr + 1)
    case DrawBy(p) =>
      (st.(lastDrawn := st.lastDrawn[p := TileText(e.tag)],
           hand := Some(AddEvents(st.hand.value, [DrawEvent(e, p)]))), ptr + 1)
    case Call => (st.(log := st.log + CallLog(e, logId)), ptr + 1)
    case ReadyDeclare => RiichiStep(game, logId, st, ptr + 1)
    case Unrecognized => (st.(log := st.log + [UnknownTagError(e.tag, logId)]), ptr + 1)
  }

  /** The cursor after a step is the one Next computes from the event alone. */
  lemma StepCursor(game: seq<Event>, logId: string, st: State, ptr: nat)
    requires ptr < |game| && |st.lastDrawn| == 4
    requires StepOk(game, ptr, st.hand.Some?)
    ensures Step(game, logId, st, ptr).1 == Next(game, ptr, st.hand.Some?)
  {
    var k := Classify(game[ptr].tag, st.hand.Some?);
    if k == ReadyDeclare {
      assert Step(game, logId, st, ptr) == RiichiStep(game, logId, st, ptr + 1);
    } else {
      assert !StartsRiichi(game, ptr, st.hand.Some?);
    }
  }

  /** One step of a clean walk leaves a clean walk, and the rest of the walk from there is the same walk. */
  lemma RunUnfolds(game: seq<Event>, logId: string, st: State, ptr: nat)
    requires ptr < |game| && |st.lastDrawn| == 4
    requires RunsClean(game, ptr, st.hand.Some?)
    ensures var res := Step(game, logId, st, ptr);
      && RunsClean(game, res.1, res.0.hand.Some?)
      && Run(game, logId, st, ptr) == Run(game, logId, res.0, res.1)
  {
    StepCursor(game, logId, st, ptr);
  }

  /** The whole loop of process from the cursor ptr on. */
  function Run(game: seq<Event>, logId: string, st: State, ptr: nat): (r: State)
    requires |st.lastDrawn| == 4
    requires RunsClean(game, ptr, st.hand.Some?)
    decreases |game| - ptr
    ensures |r.lastDrawn| == 4
    ensures st.items <= r.items && st.log <= r.log
  {
    if ptr >= |game| then st
    else
      var res := Step(game, logId, st, ptr);
      StepCursor(game, logId, st, ptr);
      Run(game, logId, res.0, res.1)
  }

  // ---------------------------------------------------------------------
  // The input game after the walk

  /**
   * The events that process moves out of the input game: lxml's append
   * detaches an element from its old parent, and BYE and DORA are the
   * input elements that process appends to the output.
   */
  predicate Moved(e: Event) {
    e.tag == "BYE" || e.tag == "DORA"
  }

  /** The events of s that stay in the input game once s has been walked. */
  function Kept(s: seq<Event>): (r: seq<Event>)
    ensures |r| <= |s|
    ensures forall i :: 0 <= i < |r| ==> !Moved(r[i])
  {
    if |s| == 0 then [] else Kept(s[..|s| - 1]) + (if Moved(s[|s| - 1]) then [] else [s[|s| - 1]])
  }

  lemma KeptSnoc(s: seq<Event>, e: Event)
    ensures Kept(s + [e]) == Kept(s) + (if Moved(e) then [] else [e])
  {
    assert (s + [e])[..|s|] == s;
  }

  /** A list with nothing to move is kept whole. */
  lemma {:induction false} KeptNothingMoved(s: seq<Event>)
    requires forall i :: 0 <= i < |s| ==> !Moved(s[i])
    ensures Kept(s) == s
  {
    if |s| > 0 {
      KeptNothingMoved(s[..|s| - 1]);
      assert s[..|s| - 1] + [s[|s| - 1]] == s;
    }
  }

  /** A second walk over what the first one kept moves nothing more. */
  lemma KeptIdempotent(s: seq<Event>)
    ensures Kept(Kept(s)) == Kept(s)
  {
    KeptNothingMoved(Kept(s));
  }

  /** Walking past events that are not moved leaves the input game as it is. */
  lemma {:induction false} KeptSkip(s: seq<Event>, i: nat, j: nat)
    requires i <= j <= |s|
    requires forall k :: i <= k < j ==> !Moved(s[k])
    ensures Kept(s[..j]) + s[j..] == Kept(s[..i]) + s[i..]
    decreases j - i
  {
    if i < j {
      KeptSkip(s, i, j - 1);
      var e := s[j - 1];
      assert !Moved(e);
      assert s[..j] == s[..j - 1] + [e];
      KeptSnoc(s[..j - 1], e);
      assert Kept(s[..j]) == Kept(s[..j - 1]) + [e];
      assert s[j - 1..] == [e] + s[j..];
    }
  }

  /**
   * One step of the walk, from ptr to next, either detaches the moved event
   * at ptr or leaves the input game as it is.
   */
  lemma KeptAdvance(s: seq<Event>, ptr: nat, next: nat)
    requires ptr < next <= |s|
    requires Moved(s[ptr]) ==> next == ptr + 1
    requires forall k :: ptr < k < next ==> !Moved(s[k])
    ensures Moved(s[ptr]) ==> Kept(s[..next]) + s[next..] == Kept(s[..ptr]) + s[ptr + 1..]
    ensures !Moved(s[ptr]) ==> Kept(s[..next]) + s[next..] == Kept(s[..ptr]) + s[ptr..]
  {
    if Moved(s[ptr]) {
      assert s[..ptr + 1] == s[..ptr] + [s[ptr]];
      KeptSnoc(s[..ptr], s[ptr]);
    } else {
      KeptSkip(s, ptr, next);
    }
  }

  /** The tile text of DORA, "ORA", is no number. */
  lemma DoraHasNoTileText()
    ensures !TileTextOk("DORA")
  {
    var t := TileText("DORA");
    assert t[0] == 'O';
  }

  /** A discard whose tile text parses is neither a BYE nor a DORA. */
  lemma DiscardIsNotMoved(e: Event)
    requires IsDiscardTag(e.tag) && TileTextOk(e.tag)
    ensures !Moved(e)
  {
    DoraHasNoTileText();
  }

  /** What a riichi sequence consumes: the REACH, a discard whose tile text parses, and maybe a REACH or an N. */
  lemma RiichiConsumes(game: seq<Event>, ptr: nat, handOpen: bool)
    requires ptr < |game| && StepOk(game, ptr, handOpen) && StartsRiichi(game, ptr, handOpen)
    ensures ptr + 2 < |game| && game[ptr].tag == "REACH"
    ensures IsDiscardTag(game[ptr + 1].tag) && TileTextOk(game[ptr + 1].tag)
    ensures Next(game, ptr, handOpen) == ptr + 2 || game[ptr + 2].tag in {"REACH", "N"}
  {
  }

  /**
   * The input game during the walk over s: the kept events before the
   * cursor, then the rest of s. Detaching the moved event at the cursor, or
   * nothing, gives the input game at the next cursor.
   */
  lemma DetachKeeps(s: seq<Event>, ptr: nat, next: nat, g: seq<Event>, g': seq<Event>)
    requires ptr < next <= |s|
    requires Moved(s[ptr]) ==> next == ptr + 1
    requires forall k :: ptr < k < next ==> !Moved(s[k])
    requires g == Kept(s[..ptr]) + s[ptr..]
    requires var at := |g| - (|s| - ptr); g' == if Moved(s[ptr]) then g[..at] + g[at + 1..] else g
    ensures g' == Kept(s[..next]) + s[next..]
  {
    KeptAdvance(s, ptr, next);
    if Moved(s[ptr]) {
      var k := Kept(s[..ptr]);
      assert |g| - (|s| - ptr) == |k|;
      assert g[..|k|] == k && g[|k| + 1..] == s[ptr + 1..];
    }
  }

  /** Only a plain step can meet a moved event: a riichi sequence consumes no BYE and no DORA. */
  lemma StepMovesOnlyItself(game: seq<Event>, ptr: nat, handOpen: bool)
    requires ptr < |game| && StepOk(game, ptr, handOpen)
    ensures Moved(game[ptr]) ==> Next(game, ptr, handOpen) == ptr + 1
    ensures forall k :: ptr < k < Next(game, ptr, handOpen) ==> !Moved(game[k])
  {
    var n := Next(game, ptr, handOpen);
    if StartsRiichi(game, ptr, handOpen) {
      RiichiConsumes(game, ptr, handOpen);
      DiscardIsNotMoved(game[ptr + 1]);
      assert n == ptr + 2 || !Moved(game[ptr + 2]);
    }
  }
}
