/**
 * The body of a create-by-parcels request: the selected ids, in selection
 * order, each written in decimal and joined with ','. A reference splitter and
 * parser serve as its inverse.
 */
module Payload {
  import opened Wrappers
  import opened Selection

  predicate IsDigit(c: char)
  {
    '0' <= c <= '9'
  }

  function DigitChar(d: nat): (c: char)
    requires d < 10
    ensures IsDigit(c)
  {
    ('0' as int + d) as char
  }

  function DigitValue(c: char): (d: nat)
    requires IsDigit(c)
    ensures d < 10
  {
    c as int - '0' as int
  }

  /** The decimal text of `n`, as a number is written when an array of numbers is joined. */
  function Decimal(n: nat): (s: string)
    ensures |s| > 0
    ensures forall c :: c in s ==> IsDigit(c)
  {
    if n < 10 then [DigitChar(n)] else Decimal(n / 10) + [DigitChar(n % 10)]
  }

  /** The number a non-empty run of digits denotes. */
  function ParseDecimal(s: string): nat
    requires forall c :: c in s ==> IsDigit(c)
  {
    if s == [] then 0
    else
      assert forall c :: c in s[..|s| - 1] ==> c in s;
      ParseDecimal(s[..|s| - 1]) * 10 + DigitValue(s[|s| - 1])
  }

  lemma {:induction false} ParseDecimalInverse(n: nat)
    ensures ParseDecimal(Decimal(n)) == n
  {
    var s := Decimal(n);
    if n >= 10 {
      ParseDecimalInverse(n / 10);
      assert s[..|s| - 1] == Decimal(n / 10);
    }
  }

  /** The ids of a selection in selection order (`_.pluck(sel, 'id')`). */
  function Ids(sel: seq<Parcel>): (ids: seq<nat>)
  {
    if sel == [] then [] else [sel[0].id] + Ids(sel[1..])
  }

  lemma {:induction false} IdsAt(sel: seq<Parcel>)
    ensures |Ids(sel)| == |sel|
    ensures forall i :: 0 <= i < |sel| ==> Ids(sel)[i] == sel[i].id
  {
    if sel != [] {
      IdsAt(sel[1..]);
    }
  }

  /** `ids.join(',')`: the decimal texts separated by commas; the empty list gives "". */
  function JoinIds(ids: seq<nat>): string
  {
    if ids == [] then ""
    else if |ids| == 1 then Decimal(ids[0])
    else Decimal(ids[0]) + "," + JoinIds(ids[1..])
  }

  /** `s.split(',')`: the pieces between commas, so never an empty list. */
  function SplitCommas(s: string): (parts: seq<string>)
    ensures |parts| > 0
    ensures forall k :: 0 <= k < |parts| ==> ',' !in parts[k]
  {
    if s == [] then [""]
    else
      var rest := SplitCommas(s[1..]);
      if s[0] == ',' then [""] + rest
      else [[s[0]] + rest[0]] + rest[1..]
  }

  /** Parses every piece as a decimal id; `None` when a piece is empty or not all digits. */
  function ParsePieces(parts: seq<string>): (r: Option<seq<nat>>)
    ensures r.Some? ==> |r.value| == |parts|
  {
    if parts == [] then Some([])
    else if parts[0] == [] || exists c :: c in parts[0] && !IsDigit(c) then None
    else match ParsePieces(parts[1..])
      case None => None
      case Some(rest) => Some([ParseDecimal(parts[0])] + rest)
  }

  /** Reads an id list back from its comma-joined text. */
  function ParseIds(s: string): Option<seq<nat>>
  {
    ParsePieces(SplitCommas(s))
  }

  function DecimalsOf(ids: seq<nat>): seq<string>
  {
    if ids == [] then [] else [Decimal(ids[0])] + DecimalsOf(ids[1..])
  }

  /** A piece free of commas splits off at the first comma. */
  lemma {:induction false} SplitAfterPiece(a: string, b: string)
    requires ',' !in a
    ensures SplitCommas(a + "," + b) == [a] + SplitCommas(b)
  {
    if a != [] {
      assert (a + "," + b)[1..] == a[1..] + "," + b;
      SplitAfterPiece(a[1..], b);
      assert [a[0]] + a[1..] == a;
    }
  }

  /** A text free of commas is a single piece. */
  lemma {:induction false} SplitSinglePiece(a: string)
    requires ',' !in a
    ensures SplitCommas(a) == [a]
  {
    if a != [] {
      SplitSinglePiece(a[1..]);
      assert [a[0]] + a[1..] == a;
    }
  }

  lemma {:induction false} SplitJoinIds(ids: seq<nat>)
    requires ids != []
    ensures SplitCommas(JoinIds(ids)) == DecimalsOf(ids)
  {
    var d := Decimal(ids[0]);
    assert ',' !in d by { assert !IsDigit(','); }
    if |ids| == 1 {
      SplitSinglePiece(d);
    } else {
      SplitAfterPiece(d, JoinIds(ids[1..]));
      SplitJoinIds(ids[1..]);
    }
  }

  lemma {:induction false} ParseDecimals(ids: seq<nat>)
    ensures ParsePieces(DecimalsOf(ids)) == Some(ids)
  {
    if ids != [] {
      var parts := DecimalsOf(ids);
      assert parts[1..] == DecimalsOf(ids[1..]);
      ParseDecimals(ids[1..]);
      ParseDecimalInverse(ids[0]);
      assert [ids[0]] + ids[1..] == ids;
    }
  }

  /** Reading back a non-empty joined id list gives the same ids in the same order. */
  lemma JoinIdsRoundTrip(ids: seq<nat>)
    requires ids != []
    ensures ParseIds(JoinIds(ids)) == Some(ids)
  {
    SplitJoinIds(ids);
    ParseDecimals(ids);
  }

  /** Different non-empty id lists are joined into different texts. */
  lemma JoinIdsInjective(ids1: seq<nat>, ids2: seq<nat>)
    requires ids1 != [] && ids2 != []
    requires JoinIds(ids1) == JoinIds(ids2)
    ensures ids1 == ids2
  {
    JoinIdsRoundTrip(ids1);
    JoinIdsRoundTrip(ids2);
  }
}
