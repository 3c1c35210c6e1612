/**
 * Raw game events and their classification. An event is one child of the
 * game element: its tag and its attributes. Classification follows the
 * order of the tests in Reshaper.process: exact tags first, then the
 * first-letter prefixes of discards and draws, then N and REACH.
 */
module Events {
  import opened Wrappers

  datatype Event = Event(tag: string, attrs: map<string, string>)

  /** `element.get(key)`: the attribute, or None when it is absent. */
  function Get(attrs: map<string, string>, key: string): (r: Option<string>)
    ensures r.Some? <==> key in attrs
    ensures r.Some? ==> r.value == attrs[key]
  {
    if key in attrs then Some(attrs[key]) else None
  }

  /** Python's slice `s[lo:hi]`, which clamps both bounds to the length. */
  function Slice(s: string, lo: nat, hi: nat): (r: string)
    requires lo <= hi
    ensures |s| <= lo ==> r == []
    ensures lo < |s| ==> |r| == (if hi < |s| then hi else |s|) - lo
    ensures forall i :: 0 <= i < |r| ==> r[i] == s[lo + i]
  {
    if |s| <= lo then [] else if hi < |s| then s[lo..hi] else s[lo..]
  }

  predicate IsDigits(s: string) {
    |s| > 0 && forall i :: 0 <= i < |s| ==> '0' <= s[i] <= '9'
  }

  /** `int(s)` on a string of decimal digits. */
  function DecimalValue(s: string): nat
    requires forall i :: 0 <= i < |s| ==> '0' <= s[i] <= '9'
  {
    if |s| == 0 then 0 else 10 * DecimalValue(s[..|s| - 1]) + (s[|s| - 1] as int - '0' as int)
  }

  /** The attribute is present and `int()` of it succeeds. */
  predicate IsIntAttr(e: Event, key: string) {
    key in e.attrs && IsDigits(e.attrs[key])
  }

  function IntAttr(e: Event, key: string): nat
    requires IsIntAttr(e, key)
  {
    DecimalValue(e.attrs[key])
  }

  /** First letters of the draw tags of seats 0..3. */
  const DrawLetters: string := "TUVW"
  /** First letters of the discard tags of seats 0..3. */
  const DiscardLetters: string := "DEFG"

  /** `letters.index(c)`: the seat whose letter is c. */
  function SeatOf(letters: string, c: char): (p: nat)
    requires c in letters
    ensures p < |letters| && letters[p] == c
    ensures forall q :: 0 <= q < p ==> letters[q] != c
  {
    if letters[0] == c then 0 else 1 + SeatOf(letters[1..], c)
  }

  /** The digits that follow the seat letter: `tag[1:4]`. */
  function TileText(tag: string): string {
    Slice(tag, 1, 4)
  }

  predicate IsDiscardTag(tag: string) {
    |tag| > 0 && tag[0] in DiscardLetters
  }

  /** The tags that process tests for by equality before any prefix test. */
  const ExactTags: set<string> := {"INIT", "SHUFFLE", "GO", "TAIKYOKU", "BYE", "DORA", "AGARI", "RYUUKYOKU"}

  datatype Kind =
    | HandStart                  // INIT
    | Ignorable                  // SHUFFLE, GO, TAIKYOKU
    | Disconnect                 // BYE
    | SeatIdentity               // UN before the first hand
    | DoraReveal                 // DORA
    | Win                        // AGARI
    | AbortiveDraw               // RYUUKYOKU
    | DiscardBy(seat: nat)       // D, E, F, G followed by the tile index
    | DrawBy(seat: nat)          // T, U, V, W followed by the tile index
    | Call                       // N
    | ReadyDeclare               // REACH
    | Unrecognized

  /** The dispatch of Reshaper.process on the tag of one event. */
  function Classify(tag: string, handOpen: bool): (k: Kind)
    requires |tag| > 0
    ensures k == HandStart <==> tag == "INIT"
    ensures k == Ignorable <==> tag in {"SHUFFLE", "GO", "TAIKYOKU"}
    ensures k == SeatIdentity <==> tag == "UN" && !handOpen
    ensures k == Disconnect <==> tag == "BYE"
    ensures k == DoraReveal <==> tag == "DORA"
    ensures k == Win <==> tag == "AGARI"
    ensures k == AbortiveDraw <==> tag == "RYUUKYOKU"
    ensures k.DiscardBy? <==> tag[0] in DiscardLetters && tag !in ExactTags
    ensures k.DrawBy? <==> tag[0] in DrawLetters && tag !in ExactTags && (tag != "UN" || handOpen)
    ensures k.DiscardBy? ==> k.seat < 4 && DiscardLetters[k.seat] == tag[0]
    ensures k.DrawBy? ==> k.seat < 4 && DrawLetters[k.seat] == tag[0]
    ensures k == Call <==> tag == "N"
    ensures k == ReadyDeclare <==> tag == "REACH"
    ensures k == Unrecognized <==>
      tag !in ExactTags && tag[0] !in DiscardLetters && tag[0] !in DrawLetters && tag != "N" && tag != "REACH"
  {
    if tag == "INIT" then HandStart
    else if tag == "SHUFFLE" || tag == "GO" || tag == "TAIKYOKU" then Ignorable
    else if tag == "BYE" then Disconnect
    else if tag == "UN" && !handOpen then SeatIdentity
    else if tag == "DORA" then DoraReveal
    else if tag == "AGARI" then Win
    else if tag == "RYUUKYOKU" then AbortiveDraw
    else if tag[0] in DiscardLetters then DiscardBy(SeatOf(DiscardLetters, tag[0]))
    else if tag[0] in DrawLetters then DrawBy(SeatOf(DrawLetters, tag[0]))
    else if tag == "N" then Call
    else if tag == "REACH" then ReadyDeclare
    else Unrecognized
  }

  /**
   * DORA, GO and TAIKYOKU begin with a discard or draw letter, yet the exact
   * tests come first, so they are never read as a discard or a draw.
   */
  lemma ExactTagsBeforePrefixes(tag: string, handOpen: bool)
    requires tag in {"DORA", "GO", "TAIKYOKU"}
    ensures Classify(tag, handOpen) == (if tag == "DORA" then DoraReveal else Ignorable)
  {
  }
}
