/**
 * Properties of the walk: what each kind of event does to the state, the
 * riichi lookahead, what the last-drawn table means, and that appended
 * hands are closed.
 */
module HandTreeFacts {
  import opened Wrappers
  import opened Events
  import opened HandTree
  import Deltas
  import Melds

  // ---------------------------------------------------------------------
  // The last-drawn table as a function of the events seen so far

  /** A tag that is read as a draw whenever a hand is open. */
  predicate IsDrawTag(tag: string) {
    |tag| > 0 && tag[0] in DrawLetters && tag !in ExactTags && tag != "UN"
  }

  /** The effect of one event on the table: INIT clears it, a draw records its tile text. */
  function ReplayDraw(ld: seq<string>, e: Event): (r: seq<string>)
    requires |ld| == 4
    ensures |r| == 4
  {
    if e.tag == "INIT" then NoDraws
    else if IsDrawTag(e.tag) then ld[SeatOf(DrawLetters, e.tag[0]) := TileText(e.tag)]
    else ld
  }

  /**
   * The table after the first k events, starting from init: for each seat,
   * the tile text of its latest draw since the latest INIT.
   */
  function LastDrawnAfter(game: seq<Event>, k: nat, init: seq<string>): (r: seq<string>)
    requires k <= |game| && |init| == 4
    ensures |r| == 4
  {
    if k == 0 then init else ReplayDraw(LastDrawnAfter(game, k - 1, init), game[k - 1])
  }

  /** A draw whose tile text parses is never the tag UN. */
  lemma UnIsNoTileText()
    ensures !TileTextOk("UN")
  {
    var t := TileText("UN");
    assert |t| == 1 && t[0] == 'N';
  }

  /** Outside a riichi sequence, a step changes the table as ReplayDraw does. */
  lemma PlainStepReplays(game: seq<Event>, logId: string, st: State, ptr: nat)
    requires ptr < |game| && |st.lastDrawn| == 4
    requires StepOk(game, ptr, st.hand.Some?)
    requires !StartsRiichi(game, ptr, st.hand.Some?)
    ensures Step(game, logId, st, ptr).0.lastDrawn == ReplayDraw(st.lastDrawn, game[ptr])
  {
    UnIsNoTileText();
  }

  /** A REACH, a discard, another REACH and an N leave the table as it is. */
  lemma RiichiEventsReplayNothing(e: Event, ld: seq<string>)
    requires |ld| == 4 && |e.tag| > 0
    requires e.tag == "REACH" || e.tag == "N" || e.tag[0] in DiscardLetters
    ensures ReplayDraw(ld, e) == ld
  {
  }

  /** The events a riichi sequence skips over are neither INIT nor draws. */
  lemma RiichiSkipsNoDraw(game: seq<Event>, logId: string, st: State, ptr: nat)
    requires ptr < |game| && |st.lastDrawn| == 4
    requires StepOk(game, ptr, st.hand.Some?)
    requires StartsRiichi(game, ptr, st.hand.Some?)
    ensures Step(game, logId, st, ptr).0.lastDrawn == st.lastDrawn
    ensures forall ld :: |ld| == 4 ==> ReplayDraw(ld, game[ptr]) == ld && ReplayDraw(ld, game[ptr + 1]) == ld
    ensures Step(game, logId, st, ptr).1 == ptr + 3 ==> forall ld :: |ld| == 4 ==> ReplayDraw(ld, game[ptr + 2]) == ld
  {
    assert game[ptr].tag == "REACH";
    assert game[ptr + 1].tag[0] in DiscardLetters;
    forall ld | |ld| == 4
      ensures ReplayDraw(ld, game[ptr]) == ld && ReplayDraw(ld, game[ptr + 1]) == ld
    {
      RiichiEventsReplayNothing(game[ptr], ld);
      RiichiEventsReplayNothing(game[ptr + 1], ld);
    }
    if Step(game, logId, st, ptr).1 == ptr + 3 {
      assert game[ptr + 2].tag in {"REACH", "N"};
      forall ld | |ld| == 4
        ensures ReplayDraw(ld, game[ptr + 2]) == ld
      {
        RiichiEventsReplayNothing(game[ptr + 2], ld);
      }
    }
  }

  /** A riichi sequence keeps the walk's table equal to the replayed table at the cursor. */
  lemma RiichiTracksLastDrawn(game: seq<Event>, logId: string, st: State, ptr: nat, init: seq<string>)
    requires ptr < |game| && |st.lastDrawn| == 4 && |init| == 4
    requires StepOk(game, ptr, st.hand.Some?)
    requires StartsRiichi(game, ptr, st.hand.Some?)
    requires st.lastDrawn == LastDrawnAfter(game, ptr, init)
    ensures var res := Step(game, logId, st, ptr);
      res.0.lastDrawn == LastDrawnAfter(game, res.1, init)
  {
    var res := Step(game, logId, st, ptr);
    StepCursor(game, logId, st, ptr);
    RiichiSkipsNoDraw(game, logId, st, ptr);
    assert LastDrawnAfter(game, ptr + 1, init) == ReplayDraw(st.lastDrawn, game[ptr]);
    assert LastDrawnAfter(game, ptr + 2, init) == ReplayDraw(LastDrawnAfter(game, ptr + 1, init), game[ptr + 1]);
    if res.1 == ptr + 3 {
      assert LastDrawnAfter(game, ptr + 3, init) == ReplayDraw(LastDrawnAfter(game, ptr + 2, init), game[ptr + 2]);
    }
  }

  /** Each step keeps the walk's table equal to the replayed table at the cursor. */
  lemma StepTracksLastDrawn(game: seq<Event>, logId: string, st: State, ptr: nat, init: seq<string>)
    requires ptr < |game| && |st.lastDrawn| == 4 && |init| == 4
    requires StepOk(game, ptr, st.hand.Some?)
    requires st.lastDrawn == LastDrawnAfter(game, ptr, init)
    ensures var res := Step(game, logId, st, ptr);
      res.0.lastDrawn == LastDrawnAfter(game, res.1, init)
  {
    if StartsRiichi(game, ptr, st.hand.Some?) {
      RiichiTracksLastDrawn(game, logId, st, ptr, init);
    } else {
      PlainStepReplays(game, logId, st, ptr);
      StepCursor(game, logId, st, ptr);
      assert LastDrawnAfter(game, ptr + 1, init) == ReplayDraw(st.lastDrawn, game[ptr]);
    }
  }

  /** Over the whole walk the table is the replayed table of all events. */
  lemma {:induction false} RunTracksLastDrawn(game: seq<Event>, logId: string, st: State, ptr: nat, init: seq<string>)
    requires ptr <= |game| && |st.lastDrawn| == 4 && |init| == 4
    requires RunsClean(game, ptr, st.hand.Some?)
    requires st.lastDrawn == LastDrawnAfter(game, ptr, init)
    ensures Run(game, logId, st, ptr).lastDrawn == LastDrawnAfter(game, |game|, init)
    decreases |game| - ptr
  {
    if ptr < |game| {
      var res := Step(game, logId, st, ptr);
      StepTracksLastDrawn(game, logId, st, ptr, init);
      RunTracksLastDrawn(game, logId, res.0, res.1, init);
    }
  }

  /**
   * A discard handled by the walk is tsumogiri exactly when its tile text is
   * the text of the seat's latest draw since the latest INIT.
   */
  lemma TsumogiriIffLatestDraw(game: seq<Event>, logId: string, st: State, ptr: nat, init: seq<string>)
    requires ptr < |game| && |st.lastDrawn| == 4 && |init| == 4
    requires StepOk(game, ptr, st.hand.Some?)
    requires st.lastDrawn == LastDrawnAfter(game, ptr, init)
    requires Classify(game[ptr].tag, st.hand.Some?).DiscardBy?
    ensures var h := Step(game, logId, st, ptr).0.hand;
      && h.Some? && |h.value.events| > 0
      && var ev := h.value.events[|h.value.events| - 1];
      && ev.Discard? && DiscardLetters[ev.who] == game[ptr].tag[0]
      && (ev.tsumogiri <==> TileText(game[ptr].tag) == LastDrawnAfter(game, ptr, init)[ev.who])
  {
  }

  /** The same holds for the discard that a riichi declaration consumes. */
  lemma RiichiDiscardTsumogiri(game: seq<Event>, logId: string, st: State, ptr: nat, init: seq<string>)
    requires ptr < |game| && |st.lastDrawn| == 4 && |init| == 4
    requires StepOk(game, ptr, st.hand.Some?)
    requires st.lastDrawn == LastDrawnAfter(game, ptr, init)
    requires StartsRiichi(game, ptr, st.hand.Some?)
    ensures var h := Step(game, logId, st, ptr).0.hand;
      && h.Some? && |h.value.events| >= 2
      && var ev := h.value.events[|h.value.events| - 1];
      && ev.Discard? && DiscardLetters[ev.who] == game[ptr + 1].tag[0]
      && (ev.tsumogiri <==> TileText(game[ptr + 1].tag) == LastDrawnAfter(game, ptr + 1, init)[ev.who])
  {
    assert LastDrawnAfter(game, ptr + 1, init) == ReplayDraw(st.lastDrawn, game[ptr]);
  }

  // ---------------------------------------------------------------------
  // Draws and discards and the table

  /** A draw changes only its own seat's slot, to the tile text; a discard changes no slot. */
  lemma DrawAndDiscardSlots(game: seq<Event>, logId: string, st: State, ptr: nat)
    requires ptr < |game| && |st.lastDrawn| == 4
    requires StepOk(game, ptr, st.hand.Some?)
    ensures var k := Classify(game[ptr].tag, st.hand.Some?);
      var ld := Step(game, logId, st, ptr).0.lastDrawn;
      && (k.DrawBy? ==> ld[k.seat] == TileText(game[ptr].tag) &&
                         forall q :: 0 <= q < 4 && q != k.seat ==> ld[q] == st.lastDrawn[q])
      && (k.DiscardBy? ==> ld == st.lastDrawn)
  {
  }

  // ---------------------------------------------------------------------
  // Hands are closed when they are appended

  predicate AllClosed(items: seq<Item>) {
    forall i :: 0 <= i < |items| && items[i].HandItem? ==> items[i].hand.result.Some?
  }

  lemma StepKeepsHandsClosed(game: seq<Event>, logId: string, st: State, ptr: nat)
    requires ptr < |game| && |st.lastDrawn| == 4
    requires StepOk(game, ptr, st.hand.Some?)
    requires AllClosed(st.items)
    ensures AllClosed(Step(game, logId, st, ptr).0.items)
  {
  }

  /** Every HAND in the output carries a result. */
  lemma {:induction false} RunKeepsHandsClosed(game: seq<Event>, logId: string, st: State, ptr: nat)
    requires |st.lastDrawn| == 4
    requires RunsClean(game, ptr, st.hand.Some?)
    requires AllClosed(st.items)
    ensures AllClosed(Run(game, logId, st, ptr).items)
    decreases |game| - ptr
  {
    if ptr < |game| {
      var res := Step(game, logId, st, ptr);
      StepKeepsHandsClosed(game, logId, st, ptr);
      RunKeepsHandsClosed(game, logId, res.0, res.1);
    }
  }

  // ---------------------------------------------------------------------
  // The hand endings

  /** AGARI closes the open hand as Tsumo or Ron, leaves its scores as they were, and appends it. */
  lemma WinAppendsHand(game: seq<Event>, logId: string, st: State, ptr: nat)
    requires ptr < |game| && |st.lastDrawn| == 4
    requires StepOk(game, ptr, st.hand.Some?)
    requires game[ptr].tag == "AGARI"
    ensures var res := Step(game, logId, st, ptr);
      var e := game[ptr];
      && res.1 == ptr + 1
      && |res.0.items| == |st.items| + 1 && res.0.items[..|st.items|] == st.items
      && var h := res.0.items[|st.items|].hand;
      && res.0.items[|st.items|].HandItem? && res.0.hand == Some(h)
      && (h.result == Some(Tsumo) <==> Get(e.attrs, "who") == Get(e.attrs, "fromWho"))
      && (h.result != Some(Tsumo) ==> h.result == Some(Ron))
      && h.scores == st.hand.value.scores && h.events == st.hand.value.events && h.setup == st.hand.value.setup
      && res.0.log == st.log && res.0.attrs == st.attrs && res.0.lastDrawn == st.lastDrawn
  {
  }

  /**
   * RYUUKYOKU closes the open hand with its draw type (default
   * 'exhaustive') and the four score deltas, and appends it.
   */
  lemma AbortiveDrawAppendsHand(game: seq<Event>, logId: string, st: State, ptr: nat)
    requires ptr < |game| && |st.lastDrawn| == 4
    requires StepOk(game, ptr, st.hand.Some?)
    requires game[ptr].tag == "RYUUKYOKU"
    ensures var res := Step(game, logId, st, ptr);
      var e := game[ptr];
      && res.1 == ptr + 1
      && |res.0.items| == |st.items| + 1 && res.0.items[..|st.items|] == st.items
      && var h := res.0.items[|st.items|].hand;
      && res.0.items[|st.items|].HandItem? && res.0.hand == Some(h)
      && h.result == Some(Ryuukyoku(if "type" in e.attrs && e.attrs["type"] != "" then e.attrs["type"] else "exhaustive"))
      && h.scores.Some?
      && var f := Deltas.Split(e.attrs["sc"]);
      && Deltas.Split(h.scores.value) == [f[1], f[3], f[5], f[7]]
      && h.events == st.hand.value.events && h.setup == st.hand.value.setup
      && res.0.log == st.log && res.0.attrs == st.attrs && res.0.lastDrawn == st.lastDrawn
  {
  }

  // ---------------------------------------------------------------------
  // The other events

  /** INIT opens a new hand with the setup attributes and clears the table; the output and log are kept. */
  lemma InitOpensHand(game: seq<Event>, logId: string, st: State, ptr: nat)
    requires ptr < |game| && |st.lastDrawn| == 4
    requires StepOk(game, ptr, st.hand.Some?)
    requires game[ptr].tag == "INIT"
    ensures var res := Step(game, logId, st, ptr);
      && res.1 == ptr + 1
      && res.0.hand == Some(NewHand(game[ptr].attrs)) && res.0.lastDrawn == NoDraws
      && res.0.attrs == st.attrs && res.0.items == st.items && res.0.log == st.log
  {
  }

  /** SHUFFLE, GO and TAIKYOKU change nothing. */
  lemma IgnorableChangesNothing(game: seq<Event>, logId: string, st: State, ptr: nat)
    requires ptr < |game| && |st.lastDrawn| == 4
    requires StepOk(game, ptr, st.hand.Some?)
    requires game[ptr].tag in {"SHUFFLE", "GO", "TAIKYOKU"}
    ensures Step(game, logId, st, ptr) == (st, ptr + 1)
  {
  }

  /** BYE is copied to the output as one item; nothing else changes. */
  lemma ByeAppendsItem(game: seq<Event>, logId: string, st: State, ptr: nat)
    requires ptr < |game| && |st.lastDrawn| == 4
    requires StepOk(game, ptr, st.hand.Some?)
    requires game[ptr].tag == "BYE"
    ensures Step(game, logId, st, ptr) == (st.(items := st.items + [ByeItem(game[ptr].attrs)]), ptr + 1)
  {
  }

  /** DORA is copied to the output as one item; nothing else changes. */
  lemma DoraAppendsItem(game: seq<Event>, logId: string, st: State, ptr: nat)
    requires ptr < |game| && |st.lastDrawn| == 4
    requires StepOk(game, ptr, st.hand.Some?)
    requires game[ptr].tag == "DORA"
    ensures Step(game, logId, st, ptr) == (st.(items := st.items + [DoraItem(game[ptr].attrs)]), ptr + 1)
  {
  }

  /**
   * UN before the first hand copies its attributes onto the GAME element,
   * replacing any it already has; nothing else changes.
   */
  lemma SeatIdentitySetsAttrs(game: seq<Event>, logId: string, st: State, ptr: nat)
    requires ptr < |game| && |st.lastDrawn| == 4
    requires StepOk(game, ptr, st.hand.Some?)
    requires game[ptr].tag == "UN" && st.hand.None?
    ensures var res := Step(game, logId, st, ptr);
      && res == (st.(attrs := res.0.attrs), ptr + 1)
      && res.0.attrs.Keys == st.attrs.Keys + game[ptr].attrs.Keys
      && (forall k :: k in game[ptr].attrs ==> res.0.attrs[k] == game[ptr].attrs[k])
      && (forall k :: k in st.attrs && k !in game[ptr].attrs ==> res.0.attrs[k] == st.attrs[k])
  {
  }

  /** A draw appends its I element to the open hand; the output and log are kept. */
  lemma DrawAppendsEvent(game: seq<Event>, logId: string, st: State, ptr: nat)
    requires ptr < |game| && |st.lastDrawn| == 4
    requires StepOk(game, ptr, st.hand.Some?)
    requires Classify(game[ptr].tag, st.hand.Some?).DrawBy?
    ensures var res := Step(game, logId, st, ptr);
      var seat := Classify(game[ptr].tag, st.hand.Some?).seat;
      && res.1 == ptr + 1
      && res.0.hand == Some(st.hand.value.(events := st.hand.value.events + [Draw(seat, TileOf(game[ptr].tag))]))
      && res.0.attrs == st.attrs && res.0.items == st.items && res.0.log == st.log
  {
  }

  /** A discard outside a riichi sequence appends its O element to the open hand; nothing else changes. */
  lemma DiscardAppendsEvent(game: seq<Event>, logId: string, st: State, ptr: nat)
    requires ptr < |game| && |st.lastDrawn| == 4
    requires StepOk(game, ptr, st.hand.Some?)
    requires Classify(game[ptr].tag, st.hand.Some?).DiscardBy?
    ensures Step(game, logId, st, ptr) ==
      (st.(hand := Some(st.hand.value.(events := st.hand.value.events + [DiscardEvent(game[ptr], st.lastDrawn)]))), ptr + 1)
  {
  }

  // ---------------------------------------------------------------------
  // Errors

  /** An unknown tag adds exactly one error to the log and changes nothing else. */
  lemma UnknownTagOnlyLogs(game: seq<Event>, logId: string, st: State, ptr: nat)
    requires ptr < |game| && |st.lastDrawn| == 4
    requires StepOk(game, ptr, st.hand.Some?)
    requires Classify(game[ptr].tag, st.hand.Some?) == Unrecognized
    ensures Step(game, logId, st, ptr) == (st.(log := st.log + [UnknownTagError(game[ptr].tag, logId)]), ptr + 1)
  {
  }

  /** A REACH whose step is not '1' adds one error and appends nothing; the cursor moves one event. */
  lemma BadRiichiStepOnlyLogs(game: seq<Event>, logId: string, st: State, ptr: nat)
    requires ptr < |game| && |st.lastDrawn| == 4
    requires StepOk(game, ptr, st.hand.Some?)
    requires game[ptr].tag == "REACH" && Get(game[ptr].attrs, "step") != Some("1")
    ensures Step(game, logId, st, ptr) == (st.(log := st.log + [RiichiStepError(logId)]), ptr + 1)
  {
  }

  /** An N event only adds CallLog to the log: one unknown-meld error exactly when the meld is not recognised. */
  lemma CallAppendsNothing(game: seq<Event>, logId: string, st: State, ptr: nat)
    requires ptr < |game| && |st.lastDrawn| == 4
    requires StepOk(game, ptr, st.hand.Some?)
    requires game[ptr].tag == "N"
    ensures Step(game, logId, st, ptr) == (st.(log := st.log + CallLog(game[ptr], logId)), ptr + 1)
    ensures |CallLog(game[ptr], logId)| == 1 <==> Melds.ClassifyMeld(IntAttr(game[ptr], "m")).None?
  {
  }
}
