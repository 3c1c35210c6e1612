/**
 * Translation of a raw tile index (1..136, four physical copies per kind)
 * into the id of the tile in the tiles table: man 1..9, pin 11..19,
 * sou 21..29, honours 30..36, and a special value for each red five.
 * Python's `//` and `%` with a positive divisor agree with Dafny's `/` and `%`.
 */
module Tiles {

  /** The suit band of a raw index: 0 man, 1 pin, 2 sou, 3 honours. */
  function Suit(idx: int): int {
    (idx - 1) / 36
  }

  /** The number 1..9 of a raw index within a numeral suit. */
  function Number(idx: int): int {
    (idx - 1) / 4 % 9 + 1
  }

  /** The honour 0..6 (four winds, three dragons) of a raw index in 109..136. */
  function Honour(idx: int): int {
    (idx - 109) / 4
  }

  /** The source's red-five test: the first copy of a five in a numeral suit. */
  predicate IsRedFive(idx: int) {
    idx < 109 && idx % 4 == 1 && (1 + (idx - 1) / 4) % 9 == 5
  }

  /** convert_index_to_tile */
  function ConvertIndexToTile(idx: int): (r: int)
    ensures 1 <= idx <= 36 && idx != 17 ==> 1 <= r <= 9
    ensures 37 <= idx <= 72 && idx != 53 ==> 11 <= r <= 19
    ensures 73 <= idx <= 108 && idx != 89 ==> 21 <= r <= 29
    ensures 109 <= idx <= 136 ==> 30 <= r <= 36
  {
    var out := 1 + (idx - 1) / 4;
    if IsRedFive(idx) then
      idx / 36 * 9
    else
      var banded := out + (idx - 1) / 36;
      if banded > 30 then banded - 1 else banded
  }

  /** The red-five branch fires for exactly one raw index per numeral suit. */
  lemma RedFivesAre(idx: int)
    requires 1 <= idx <= 136
    ensures IsRedFive(idx) <==> idx == 17 || idx == 53 || idx == 89
  {
    if IsRedFive(idx) {
      var out := 1 + (idx - 1) / 4;
      assert 1 <= out <= 27;
      assert out == 5 || out == 14 || out == 23;
    }
  }

  /** A red five gets nine times its suit band: 0, 9 and 18. */
  lemma RedFiveIds(idx: int)
    requires 1 <= idx <= 136 && IsRedFive(idx)
    ensures ConvertIndexToTile(idx) == 9 * Suit(idx)
    ensures idx == 17 ==> ConvertIndexToTile(idx) == 0
    ensures idx == 53 ==> ConvertIndexToTile(idx) == 9
    ensures idx == 89 ==> ConvertIndexToTile(idx) == 18
  {
    RedFivesAre(idx);
  }

  /**
   * Every other index is read as suit and number: man n is n, pin n is
   * 10 + n, sou n is 20 + n, and honour k is 30 + k.
   */
  lemma NonRedTile(idx: int)
    requires 1 <= idx <= 136 && !IsRedFive(idx)
    ensures Suit(idx) < 3 ==> ConvertIndexToTile(idx) == 10 * Suit(idx) + Number(idx)
    ensures Suit(idx) == 3 ==> ConvertIndexToTile(idx) == 30 + Honour(idx)
  {
    var q := (idx - 1) / 4;
    assert 0 <= q < 34;
    if q < 9 {
      assert Suit(idx) == 0 && Number(idx) == q + 1;
    } else if q < 18 {
      assert Suit(idx) == 1 && Number(idx) == q - 8;
    } else if q < 27 {
      assert Suit(idx) == 2 && Number(idx) == q - 17;
    } else {
      assert Suit(idx) == 3 && Honour(idx) == q - 27;
    }
  }

  /**
   * Two non-red indices get the same id exactly when they are copies of
   * the same kind (the same group of four).
   */
  lemma SameIdIffSameKind(a: int, b: int)
    requires 1 <= a <= 136 && !IsRedFive(a)
    requires 1 <= b <= 136 && !IsRedFive(b)
    ensures ConvertIndexToTile(a) == ConvertIndexToTile(b) <==> (a - 1) / 4 == (b - 1) / 4
  {
    NonRedTile(a);
    NonRedTile(b);
  }

  /** On non-red indices the id never decreases as the raw index grows. */
  lemma Monotonic(a: int, b: int)
    requires 1 <= a <= b <= 136 && !IsRedFive(a) && !IsRedFive(b)
    ensures ConvertIndexToTile(a) <= ConvertIndexToTile(b)
  {
    NonRedTile(a);
    NonRedTile(b);
    assert Suit(a) <= Suit(b);
  }

  /** The examples of the source's comment: 1 and 5 are 1- and 2-man, 37 is 1-pin, 109 is East. */
  lemma DocumentedExamples()
    ensures ConvertIndexToTile(1) == 1 && ConvertIndexToTile(4) == 1
    ensures ConvertIndexToTile(5) == 2 && ConvertIndexToTile(8) == 2
    ensures ConvertIndexToTile(37) == 11
    ensures ConvertIndexToTile(109) == 30
  {
  }

  /**
   * The red 5-pin and red 5-sou ids coincide with the ids of 9-man (33..36)
   * and 8-pin (65..68); only the red 5-man id 0 is used by no other index.
   */
  lemma RedFiveCollisions()
    ensures ConvertIndexToTile(53) == ConvertIndexToTile(33) == 9
    ensures ConvertIndexToTile(89) == ConvertIndexToTile(65) == 18
    ensures forall idx :: 1 <= idx <= 136 && idx != 17 ==> ConvertIndexToTile(idx) != 0
  {
  }
}
