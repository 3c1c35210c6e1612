/**
 * The Reshaper class: the per-seat last drawn tiles, the open hand and the
 * loop over the game's events with an explicit cursor. Each method states
 * the new state; Process is proved to compute HandTree.Run.
 */
module Reshape {
  import opened Wrappers
  import opened Events
  import opened HandTree
  import Tiles
  import Melds
  import Deltas

  class Reshaper {
    var sep: seq<string>
    var discards: seq<string>
    var lastDrawn: seq<string>
    var currentHand: Option<Hand>
    /** The messages of log_error, in order. */
    var log: seq<LogEntry>
    const logId: string
    /**
     * The children of the input GAME element as they stand: appending a BYE
     * or DORA to the output moves it out of here.
     */
    var game: seq<Event>

    ghost predicate Valid()
      reads this`sep, this`discards, this`lastDrawn
    {
      |sep| == 4 && |discards| == 4 && |lastDrawn| == 4
    }

    /** The walk's view of this object, with the given output game. */
    ghost function Snapshot(out: GameOut): State
      reads this`lastDrawn, this`currentHand, this`log
    {
      State(lastDrawn, currentHand, out.attrs, out.items, log)
    }

    constructor (game: seq<Event>, logId: string)
      ensures Valid() && this.game == game && this.logId == logId
      ensures sep == NoDraws && discards == NoDraws && lastDrawn == NoDraws
      ensures currentHand == None && log == []
      ensures Snapshot(GameOut(map["id" := logId], [])) == Initial(logId)
    {
      this.game := game;
      this.logId := logId;
      sep := ["", "", "", ""];
      discards := ["", "", "", ""];
      lastDrawn := ["", "", "", ""];
      currentHand := None;
      log := [];
    }

    method LogError(entry: LogEntry)
      modifies this`log
      ensures log == old(log) + [entry]
    {
      log := log + [entry];
    }

    /** init_hand_vars: clears the four slots of each table and opens a HAND with the INIT attributes. */
    method InitHandVars(child: Event)
      requires Valid() && SetupKeys <= child.attrs.Keys
      modifies this`sep, this`discards, this`lastDrawn, this`currentHand
      ensures Valid()
      ensures sep == NoDraws && discards == NoDraws && lastDrawn == NoDraws
      ensures currentHand == Some(NewHand(child.attrs))
    {
      for i := 0 to 4
        invariant |sep| == 4 && |discards| == 4 && |lastDrawn| == 4
        invariant forall j :: 0 <= j < i ==> sep[j] == "" && discards[j] == "" && lastDrawn[j] == ""
      {
        sep := sep[i := ""];
        discards := discards[i := ""];
        lastDrawn := lastDrawn[i := ""];
      }
      var setup: map<string, string> := map[];
      for i := 0 to |SetupKeyList|
        invariant setup.Keys == set j | 0 <= j < i :: SetupKeyList[j]
        invariant forall k :: k in setup ==> setup[k] == child.attrs[k]
      {
        setup := setup[SetupKeyList[i] := child.attrs[SetupKeyList[i]]];
      }
      assert SetupKeyList[0] == "oya" && SetupKeyList[1] == "hai0" && SetupKeyList[2] == "hai1";
      assert SetupKeyList[3] == "hai2" && SetupKeyList[4] == "hai3" && SetupKeyList[5] == "ten";
      assert setup.Keys == SetupKeys;
      assert setup == map k | k in SetupKeys :: child.attrs[k];
      currentHand := Some(Hand(setup, None, None, []));
    }

    /** handle_draw */
    method HandleDraw(child: Event)
      requires currentHand.Some? && HasDeltas(child)
      modifies this`currentHand
      ensures currentHand == Some(CloseOnDraw(old(currentHand).value, child))
    {
      var h := currentHand.value;
      h := h.(result := Some(DrawOutcome(child)));
      h := h.(scores := Some(Deltas.GetDeltas(child.attrs["sc"])));
      currentHand := Some(h);
    }

    /** handle_win */
    method HandleWin(child: Event)
      requires currentHand.Some?
      modifies this`currentHand
      ensures currentHand == Some(CloseOnWin(old(currentHand).value, child))
    {
      currentHand := Some(currentHand.value.(result := Some(WinOutcome(child))));
    }

    /** process_call: decodes the meld; an unknown one is logged, nothing is appended either way. */
    method ProcessCall(child: Event)
      requires IsIntAttr(child, "who") && IsIntAttr(child, "m")
      modifies this`log
      ensures log == old(log) + CallLog(child, logId)
    {
      var who := IntAttr(child, "who");
      var meld := IntAttr(child, "m");
      var meldType: Option<nat> := None;
      match Melds.ClassifyMeld(meld)
      case Some(t) =>
        meldType := Some(Melds.Code(t));
      case None =>
        LogError(UnknownMeldError(meld, logId));
        return;
    }

    /** draw_to_xml: records the tile text as the seat's last draw and builds the I element. */
    method DrawToXml(child: Event) returns (ev: SubEvent)
      requires Valid() && |child.tag| > 0 && child.tag[0] in DrawLetters && TileTextOk(child.tag)
      modifies this`lastDrawn
      ensures Valid()
      ensures var p := SeatOf(DrawLetters, child.tag[0]);
        lastDrawn == old(lastDrawn)[p := TileText(child.tag)] && ev == DrawEvent(child, p)
    {
      var player := SeatOf(DrawLetters, child.tag[0]);
      var tileStr := TileText(child.tag);
      lastDrawn := lastDrawn[player := tileStr];
      var tile := Tiles.ConvertIndexToTile(DecimalValue(tileStr));
      ev := Draw(player, tile);
    }

    /** discard_to_xml: the O element; tg is set iff the tile text is the seat's last drawn text. */
    method DiscardToXml(child: Event) returns (ev: SubEvent)
      requires Valid() && IsDiscardTag(child.tag) && TileTextOk(child.tag)
      ensures ev == DiscardEvent(child, lastDrawn)
      ensures ev.Discard? && ev.who < 4 && DiscardLetters[ev.who] == child.tag[0]
      ensures ev.tile == TileOf(child.tag)
      ensures ev.tsumogiri <==> lastDrawn[ev.who] == TileText(child.tag)
    {
      var player := SeatOf(DiscardLetters, child.tag[0]);
      var tileStr := TileText(child.tag);
      var tile := Tiles.ConvertIndexToTile(DecimalValue(tileStr));
      var tsumogiri := lastDrawn[player] == tileStr;
      ev := Discard(player, tile, tsumogiri);
    }

    method AppendToHand(ev: SubEvent)
      requires currentHand.Some?
      modifies this`currentHand
      ensures currentHand == Some(AddEvents(old(currentHand).value, [ev]))
    {
      currentHand := Some(AddEvents(currentHand.value, [ev]));
    }

    /**
     * handle_riichi, with ptr already past the REACH event `child` in the
     * list `children` that process walks; returns where the cursor goes next.
     * The events after the cursor are still in the input game in list order,
     * so the siblings `getnext` finds are the next entries of `children`.
     */
    method HandleRiichi(children: seq<Event>, ptr: nat, child: Event) returns (next: nat)
      requires Valid() && 0 < ptr <= |children| && children[ptr - 1] == child
      requires RiichiOk(children, ptr - 1, currentHand.Some?)
      modifies this`currentHand, this`log
      ensures Valid()
      ensures var r := RiichiStep(children, logId, old(Snapshot(GameOut(map[], []))), ptr);
        currentHand == r.0.hand && log == r.0.log && next == r.1
    {
      if Get(child.attrs, "step") != Some("1") {
        LogError(RiichiStepError(logId));
        return ptr;
      }
      var player := IntAttr(child, "who");
      next := ptr + 1;
      var nextChild := children[ptr];
      AppendToHand(Riichi(player));
      var discard := DiscardToXml(nextChild);
      AppendToHand(discard);
      assert old(currentHand).value.events + [Riichi(player)] + [discard]
          == old(currentHand).value.events + [Riichi(player), discard];
      var secondNextChild := children[ptr + 1];
      if secondNextChild.tag == "REACH" {
        return next + 1;
      }
      if secondNextChild.tag == "N" {
        // The source passes two arguments to process_call here, which
        // raises; the model only consumes the N.
        return next + 1;
      }
    }

    /**
     * One iteration of the loop in process over `children`: handles the
     * event at ptr and returns the cursor and the output game after it. The
     * input game ends with the events from ptr on; a BYE or DORA appended to
     * the output leaves it.
     */
    method HandleEvent(children: seq<Event>, ptr: nat, out: GameOut) returns (next: nat, out': GameOut)
      requires Valid() && ptr < |children| && StepOk(children, ptr, currentHand.Some?)
      requires |children| - ptr <= |game|
      modifies this`sep, this`discards, this`lastDrawn, this`currentHand, this`log, this`game
      ensures Valid()
      ensures (Snapshot(out'), next) == Step(children, logId, old(Snapshot(out)), ptr)
      ensures children[ptr].tag == "INIT" ==> sep == NoDraws && discards == NoDraws
      ensures children[ptr].tag != "INIT" ==> sep == old(sep) && discards == old(discards)
      ensures var at := |old(game)| - (|children| - ptr);
        game == if Moved(children[ptr]) then old(game)[..at] + old(game)[at + 1..] else old(game)
    {
      next, out' := Dispatch(children, ptr, out);
      if Moved(children[ptr]) {
        // The other half of lxml's append in the BYE and DORA branches.
        Detach(|game| - (|children| - ptr));
      }
    }

    /**
     * The if-chain of the loop body in process on the event at ptr, with the
     * output game `out`: the new state and output are those of Step.
     */
    method Dispatch(children: seq<Event>, ptr: nat, out: GameOut) returns (next: nat, out': GameOut)
      requires Valid() && ptr < |children| && StepOk(children, ptr, currentHand.Some?)
      modifies this`sep, this`discards, this`lastDrawn, this`currentHand, this`log
      ensures Valid()
      ensures (Snapshot(out'), next) == Step(children, logId, old(Snapshot(out)), ptr)
      ensures children[ptr].tag == "INIT" ==> sep == NoDraws && discards == NoDraws
      ensures children[ptr].tag != "INIT" ==> sep == old(sep) && discards == old(discards)
    {
      var child := children[ptr];
      next := ptr + 1;
      out' := out;
      match Classify(child.tag, currentHand.Some?)
      case HandStart =>
        InitHandVars(child);
      case Ignorable =>
      case Disconnect =>
        out' := out'.(items := out'.items + [ByeItem(child.attrs)]);
      case SeatIdentity =>
        out' := out'.(attrs := out'.attrs + child.attrs);
      case DoraReveal =>
        out' := out'.(items := out'.items + [DoraItem(child.attrs)]);
      case Win =>
        HandleWin(child);
        out' := out'.(items := out'.items + [HandItem(currentHand.value)]);
      case AbortiveDraw =>
        HandleDraw(child);
        out' := out'.(items := out'.items + [HandItem(currentHand.value)]);
      case DiscardBy(_) =>
        var ev := DiscardToXml(child);
        AppendToHand(ev);
      case DrawBy(_) =>
        var ev := DrawToXml(child);
        AppendToHand(ev);
      case Call =>
        ProcessCall(child);
      case ReadyDeclare =>
        next := HandleRiichi(children, next, child);
      case Unrecognized =>
        LogError(UnknownTagError(child.tag, logId));
    }

    /** The input child at position at moves to the output: lxml's append takes it from its old parent. */
    method Detach(at: nat)
      requires at < |game|
      modifies this`game
      ensures game == old(game)[..at] + old(game)[at + 1..]
    {
      game := game[..at] + game[at + 1..];
    }

    /**
     * process: takes the input game's children once and walks them with the
     * cursor ptr. Returns the reshaped game; the BYE and DORA events have
     * left the input game.
     */
    method Process() returns (out: GameOut)
      requires Valid()
      requires RunsClean(game, 0, currentHand.Some?)
      modifies this`sep, this`discards, this`lastDrawn, this`currentHand, this`log, this`game
      ensures Valid()
      ensures var r := Run(old(game), logId, old(Snapshot(GameOut(map["id" := logId], []))), 0);
        out == GameOut(r.attrs, r.items) && lastDrawn == r.lastDrawn && currentHand == r.hand && log == r.log
      ensures game == Kept(old(game))
      ensures (sep == old(sep) && discards == old(discards)) || (sep == NoDraws && discards == NoDraws)
    {
      var children := game;
      var ptr := 0;
      out := GameOut(map["id" := logId], []);
      ghost var result := Run(children, logId, Snapshot(out), 0);
      while ptr < |children|
        invariant Valid() && ptr <= |children|
        invariant RunsClean(children, ptr, currentHand.Some?)
        invariant Run(children, logId, Snapshot(out), ptr) == result
        invariant game == Kept(children[..ptr]) + children[ptr..]
        invariant (sep == old(sep) && discards == old(discards)) || (sep == NoDraws && discards == NoDraws)
        decreases |children| - ptr
      {
        RunUnfolds(children, logId, Snapshot(out), ptr);
        StepCursor(children, logId, Snapshot(out), ptr);
        StepMovesOnlyItself(children, ptr, currentHand.Some?);
        ghost var before := game;
        var next;
        next, out := HandleEvent(children, ptr, out);
        DetachKeeps(children, ptr, next, before, game);
        ptr := next;
      }
      assert children[..ptr] == children;
    }
  }
}

/** Reshaping one game with a fresh Reshaper, as the caller of the class does. */
module ReshapeGame {
  import opened Events
  import opened HandTree
  import opened Reshape

  /** `Reshaper(game, log_id).process()`: the reshaped game and the errors it logged. */
  method ReshapeGame(game: seq<Event>, logId: string) returns (out: GameOut, errors: seq<LogEntry>, rest: seq<Event>)
    requires RunsClean(game, 0, false)
    ensures var r := Run(game, logId, Initial(logId), 0);
      out == GameOut(r.attrs, r.items) && errors == r.log
    ensures rest == Kept(game)
    ensures "id" in out.attrs
    ensures NoIdOverride(game, 0) ==> out.attrs["id"] == logId
  {
    var reshaper := new Reshaper(game, logId);
    out := reshaper.Process();
    errors := reshaper.log;
    rest := reshaper.game;
    RunKeepsId(game, logId, Initial(logId), 0);
  }

  /** No UN among the events from ptr on carries an `id` attribute. */
  predicate NoIdOverride(game: seq<Event>, ptr: nat) {
    forall i :: ptr <= i < |game| ==> !(game[i].tag == "UN" && "id" in game[i].attrs)
  }

  /**
   * The GAME element keeps an id attribute, since seat identities only add
   * or replace attributes; its value is the one set at the start unless a
   * UN carrying `id` replaces it.
   */
  lemma {:induction false} RunKeepsId(game: seq<Event>, logId: string, st: State, ptr: nat)
    requires |st.lastDrawn| == 4 && RunsClean(game, ptr, st.hand.Some?)
    requires "id" in st.attrs
    ensures "id" in Run(game, logId, st, ptr).attrs
    ensures NoIdOverride(game, ptr) ==> Run(game, logId, st, ptr).attrs["id"] == st.attrs["id"]
    decreases |game| - ptr
  {
    if ptr < |game| {
      var res := Step(game, logId, st, ptr);
      assert "id" in res.0.attrs;
      assert NoIdOverride(game, ptr) ==> res.0.attrs["id"] == st.attrs["id"];
      RunKeepsId(game, logId, res.0, res.1);
    }
  }

  /** A UN before the first hand that carries `id` replaces the log id. */
  lemma UnReplacesId(logId: string, id: string)
    ensures RunsClean([Event("UN", map["id" := id])], 0, false)
    ensures var attrs := Run([Event("UN", map["id" := id])], logId, Initial(logId), 0).attrs;
      "id" in attrs && attrs["id"] == id
  {
    var g := [Event("UN", map["id" := id])];
    var res := Step(g, logId, Initial(logId), 0);
    assert res.0.attrs == map["id" := logId] + map["id" := id];
    assert Run(g, logId, Initial(logId), 0) == Run(g, logId, res.0, 1) == res.0;
  }
}
