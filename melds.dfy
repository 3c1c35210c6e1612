/**
 * The bit tests of process_call that sort a packed meld value into chi,
 * pon, added kan or kan. Python's `&` on an integer only looks at the bits
 * of the mask, so every test below reads the low byte of the value in
 * two's complement, which is `m % 256` (Dafny's `%` is never negative).
 */
module Melds {
  import opened Wrappers

  /** The kinds of call, in the order of the source's comment list. */
  datatype MeldType = Chi | Pon | Kan | AddedKan

  /** The source's meld_type number: chi 0, pon 1, kan 2, added kan 3. */
  function Code(t: MeldType): (c: nat)
    ensures c < 4
    ensures t == Chi ==> c == 0
    ensures t == Pon ==> c == 1
    ensures t == Kan ==> c == 2
    ensures t == AddedKan ==> c == 3
  {
    match t
    case Chi => 0
    case Pon => 1
    case Kan => 2
    case AddedKan => 3
  }

  function LowByte(m: int): bv8 {
    (m % 256) as bv8
  }

  /** Bit k (k = 0 is the least significant) of the value. */
  predicate Bit(m: int, k: nat)
    requires k < 8
  {
    (LowByte(m) >> k) & 1 == 1
  }

  /**
   * The four tests in the source's order; the first that matches decides.
   * None is the "unknown meld type" case.
   */
  function ClassifyMeld(m: int): (r: Option<MeldType>)
    ensures r == Some(Chi) <==> Bit(m, 2)
    ensures r == Some(Pon) <==> !Bit(m, 2) && Bit(m, 3)
    ensures r == Some(AddedKan) <==> !Bit(m, 2) && !Bit(m, 3) && Bit(m, 4)
    ensures r == Some(Kan) <==> !Bit(m, 2) && !Bit(m, 3) && !Bit(m, 4) && !Bit(m, 5) && !Bit(m, 6) && !Bit(m, 7)
    ensures r == None <==> !Bit(m, 2) && !Bit(m, 3) && !Bit(m, 4) && (Bit(m, 5) || Bit(m, 6) || Bit(m, 7))
  {
    var b := LowByte(m);
    if b & 4 == 4 then Some(Chi)
    else if b & 12 == 8 then Some(Pon)
    else if b & 28 == 16 then Some(AddedKan)
    else if b & 252 == 0 then Some(Kan)
    else None
  }

  /** No value passes two of the four mask tests, so the order in which they are tried does not change the type. */
  lemma PatternsDisjoint(m: int)
    ensures var b := LowByte(m);
      && !(b & 4 == 4 && b & 12 == 8)
      && !(b & 4 == 4 && b & 28 == 16)
      && !(b & 4 == 4 && b & 252 == 0)
      && !(b & 12 == 8 && b & 28 == 16)
      && !(b & 12 == 8 && b & 252 == 0)
      && !(b & 28 == 16 && b & 252 == 0)
  {
  }

  /** Only the low byte matters: values that differ by a multiple of 256 are classified alike. */
  lemma OnlyLowByteMatters(m: int, k: int)
    ensures ClassifyMeld(m + 256 * k) == ClassifyMeld(m)
  {
    assert (m + 256 * k) % 256 == m % 256;
  }
}
