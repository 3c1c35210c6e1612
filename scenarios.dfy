/** Whole walks over short event lists: a riichi sequence and a one-hand game. */
module Scenarios {
  import opened Wrappers
  import opened Events
  import opened HandTree
  import Tiles

  /** REACH(step 1, seat 2), seat 2's discard of raw tile 12, REACH(step 2). */
  function RiichiGame(): seq<Event> {
    [Event("REACH", map["who" := "2", "step" := "1"]), Event("F12", map[]),
     Event("REACH", map["who" := "2", "step" := "2"])]
  }

  lemma RiichiGameRunsClean()
    ensures StepOk(RiichiGame(), 0, true) && Next(RiichiGame(), 0, true) == 3
    ensures RunsClean(RiichiGame(), 0, true)
  {
    var g := RiichiGame();
    assert IsDigits("2");
    assert TileText("F12") == "12";
    assert IsDigits("12");
    assert StepOk(g, 0, true);
  }

  lemma RiichiGameStep(st: State, logId: string)
    requires st.hand.Some? && |st.lastDrawn| == 4
    ensures StepOk(RiichiGame(), 0, true)
    ensures Step(RiichiGame(), logId, st, 0) ==
      (st.(hand := Some(AddEvents(st.hand.value, [Riichi(2), Discard(2, 3, st.lastDrawn[2] == "12")]))), 3)
  {
    var g := RiichiGame();
    RiichiGameRunsClean();
    assert TileText("F12") == "12";
    assert DecimalValue("12") == 12;
    assert Tiles.ConvertIndexToTile(12) == 3;
    assert SeatOf(DiscardLetters, 'F') == 2;
    assert DecimalValue("2") == 2;
  }

  /**
   * REACH(step 1, seat 2), seat 2's discard of raw tile 12, REACH(step 2):
   * one RIICHI for seat 2, then that discard (3-man), and the cursor ends
   * past the second REACH.
   */
  lemma RiichiSequence(st: State, logId: string)
    requires st.hand.Some? && |st.lastDrawn| == 4
    ensures RunsClean(RiichiGame(), 0, true)
    ensures Step(RiichiGame(), logId, st, 0).1 == 3
    ensures Run(RiichiGame(), logId, st, 0) == st.(hand := Some(AddEvents(st.hand.value,
           [Riichi(2), Discard(2, 3, st.lastDrawn[2] == "12")])))
  {
    RiichiGameRunsClean();
    RiichiGameStep(st, logId);
    var res := Step(RiichiGame(), logId, st, 0);
    assert Run(RiichiGame(), logId, st, 0) == Run(RiichiGame(), logId, res.0, 3) == res.0;
  }

  /** A one-hand game: INIT, a draw, its tsumogiri discard, a tsumo win. */
  function TsumoGame(setup: map<string, string>): seq<Event> {
    [Event("INIT", setup), Event("T5", map[]), Event("D5", map[]),
     Event("AGARI", map["who" := "0", "fromWho" := "0"])]
  }

  lemma TsumoGameSteps(setup: map<string, string>)
    requires SetupKeys <= setup.Keys
    ensures var g := TsumoGame(setup);
      && StepOk(g, 0, false) && Next(g, 0, false) == 1
      && StepOk(g, 1, true) && Next(g, 1, true) == 2
      && StepOk(g, 2, true) && Next(g, 2, true) == 3
      && StepOk(g, 3, true) && Next(g, 3, true) == 4
  {
    assert TileText("T5") == "5" && TileText("D5") == "5";
  }

  lemma TsumoGameRunsClean(setup: map<string, string>)
    requires SetupKeys <= setup.Keys
    ensures RunsClean(TsumoGame(setup), 0, false)
  {
    var g := TsumoGame(setup);
    TsumoGameSteps(setup);
    assert RunsClean(g, 4, true);
    assert RunsClean(g, 3, true);
    assert RunsClean(g, 2, true);
    assert RunsClean(g, 1, true);
  }

  /** The hand after INIT and the draw of raw tile 5 by seat 0. */
  lemma TsumoGameDraw(setup: map<string, string>, logId: string)
    requires SetupKeys <= setup.Keys
    ensures var g := TsumoGame(setup);
      StepOk(g, 0, false) && StepOk(g, 1, true) &&
      var s1 := Step(g, logId, Initial(logId), 0).0;
      && s1 == Initial(logId).(hand := Some(NewHand(setup)))
      && Step(g, logId, s1, 1).0 == s1.(lastDrawn := ["5", "", "", ""], hand := Some(NewHand(setup).(events := [Draw(0, 2)])))
  {
    TsumoGameSteps(setup);
    assert TileText("T5") == "5";
    assert DecimalValue("5") == 5 && Tiles.ConvertIndexToTile(5) == 2;
    assert SeatOf(DrawLetters, 'T') == 0;
    assert NewHand(setup).events + [Draw(0, 2)] == [Draw(0, 2)];
  }

  /** The discard of raw tile 5 by seat 0 right after its draw is tsumogiri. */
  lemma TsumoGameDiscard(setup: map<string, string>, logId: string, st: State)
    requires SetupKeys <= setup.Keys
    requires st.lastDrawn == ["5", "", "", ""] && st.hand == Some(NewHand(setup).(events := [Draw(0, 2)]))
    ensures var g := TsumoGame(setup);
      StepOk(g, 2, true) &&
      Step(g, logId, st, 2).0 == st.(hand := Some(NewHand(setup).(events := [Draw(0, 2), Discard(0, 2, true)])))
  {
    TsumoGameSteps(setup);
    assert TileText("D5") == "5";
    assert DecimalValue("5") == 5 && Tiles.ConvertIndexToTile(5) == 2;
    assert SeatOf(DiscardLetters, 'D') == 0;
    assert [Draw(0, 2)] + [Discard(0, 2, true)] == [Draw(0, 2), Discard(0, 2, true)];
  }

  /** AGARI with who = fromWho appends the hand as Tsumo. */
  lemma TsumoGameWin(setup: map<string, string>, logId: string, st: State)
    requires SetupKeys <= setup.Keys && |st.lastDrawn| == 4 && st.hand.Some?
    ensures var g := TsumoGame(setup);
      StepOk(g, 3, true) &&
      Step(g, logId, st, 3).0.items == st.items + [HandItem(st.hand.value.(result := Some(Tsumo)))]
  {
    TsumoGameSteps(setup);
  }

  /**
   * INIT, seat 0 draws raw tile 5, seat 0 discards raw tile 5, AGARI with
   * who = fromWho = 0: one hand, Tsumo, whose draw and discard are both
   * 2-man and whose discard is tsumogiri.
   */
  lemma SingleHandTsumo(logId: string, setup: map<string, string>)
    requires SetupKeys <= setup.Keys
    ensures RunsClean(TsumoGame(setup), 0, false)
    ensures Run(TsumoGame(setup), logId, Initial(logId), 0).items ==
      [HandItem(NewHand(setup).(result := Some(Tsumo), events := [Draw(0, 2), Discard(0, 2, true)]))]
  {
    var g := TsumoGame(setup);
    TsumoGameSteps(setup);
    TsumoGameRunsClean(setup);
    TsumoGameDraw(setup, logId);
    var s1 := Step(g, logId, Initial(logId), 0).0;
    var s2 := Step(g, logId, s1, 1).0;
    TsumoGameDiscard(setup, logId, s2);
    var s3 := Step(g, logId, s2, 2).0;
    TsumoGameWin(setup, logId, s3);
    var s4 := Step(g, logId, s3, 3).0;
    assert Run(g, logId, s3, 3) == Run(g, logId, s4, 4) == s4;
    assert Run(g, logId, s2, 2) == Run(g, logId, s3, 3);
    assert Run(g, logId, s1, 1) == Run(g, logId, s2, 2);
    assert Run(g, logId, Initial(logId), 0) == Run(g, logId, s1, 1);
  }
}
