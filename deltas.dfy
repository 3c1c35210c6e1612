/**
 * Score-delta extraction (get_deltas): split the `sc` attribute on commas
 * and keep the fields at positions 1, 3, 5 and 7 (the deltas; positions
 * 0, 2, 4, 6 are the scores before the hand).
 */
module Deltas {

  /** Python's `s.split(',')`: always at least one field, possibly empty ones. */
  function Split(s: string): (fields: seq<string>)
    ensures |fields| >= 1
    ensures forall i :: 0 <= i < |fields| ==> ',' !in fields[i]
  {
    if |s| == 0 then [""]
    else
      var rest := Split(s[1..]);
      if s[0] == ',' then [""] + rest
      else [[s[0]] + rest[0]] + rest[1..]
  }

  /** Python's `','.join(fields)` on a non-empty list. */
  function Join(fields: seq<string>): string
    requires |fields| >= 1
  {
    if |fields| == 1 then fields[0] else fields[0] + "," + Join(fields[1..])
  }

  lemma {:induction false} SplitNoComma(s: string)
    requires ',' !in s
    ensures Split(s) == [s]
  {
    if |s| > 0 {
      SplitNoComma(s[1..]);
      assert [s[0]] + s[1..] == s;
    }
  }

  lemma {:induction false} SplitField(a: string, t: string)
    requires ',' !in a
    ensures Split(a + "," + t) == [a] + Split(t)
  {
    if |a| == 0 {
      assert a + "," + t == [','] + t;
      assert (a + "," + t)[1..] == t;
    } else {
      var s := a + "," + t;
      assert s[1..] == a[1..] + "," + t;
      SplitField(a[1..], t);
      assert [s[0]] + a[1..] == a;
    }
  }

  /** Splitting a join of comma-free fields gives the fields back. */
  lemma {:induction false} SplitJoin(fields: seq<string>)
    requires |fields| >= 1
    requires forall i :: 0 <= i < |fields| ==> ',' !in fields[i]
    ensures Split(Join(fields)) == fields
  {
    if |fields| == 1 {
      SplitNoComma(fields[0]);
    } else {
      SplitJoin(fields[1..]);
      SplitField(fields[0], Join(fields[1..]));
      assert [fields[0]] + fields[1..] == fields;
    }
  }

  /** get_deltas; the source indexes fields 1..7, so it needs at least eight. */
  function GetDeltas(sc: string): (r: string)
    requires |Split(sc)| >= 8
    ensures var f := Split(sc); Split(r) == [f[1], f[3], f[5], f[7]]
  {
    var f := Split(sc);
    SplitJoin([f[1], f[3], f[5], f[7]]);
    Join([f[1], f[3], f[5], f[7]])
  }

  /** On a record of eight comma-free fields, get_deltas joins the four odd-position fields. */
  lemma DeltasOfRecord(sc: string, f: seq<string>)
    requires |f| == 8 && sc == Join(f)
    requires forall i :: 0 <= i < |f| ==> ',' !in f[i]
    ensures |Split(sc)| >= 8 && GetDeltas(sc) == Join([f[1], f[3], f[5], f[7]])
  {
    SplitJoin(f);
  }

  /** An `sc` record with gains, losses and an unchanged score, given field by field: the deltas keep their signs. */
  lemma Example(f: seq<string>)
    requires f == ["250", "-10", "260", "30", "240", "-20", "250", "0"]
    ensures |Split(Join(f))| >= 8 && GetDeltas(Join(f)) == Join(["-10", "30", "-20", "0"])
  {
    DeltasOfRecord(Join(f), f);
  }
}
