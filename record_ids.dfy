/**
 Audit record ids: every handler names its record `${blockNum}-${event.index}`, block number and
 event index joined by a dash, both modelled as natural numbers rendered in decimal. The parser
 here is the inverse that shows the rendering loses nothing: two ids are equal only when their
 block numbers and indices are. The event index is the event's type index rather than its
 position in the block, so two events of one kind in one block get the same id, and the later
 record overwrites the earlier one.
 */
module RecordIds {

  predicate IsDigit(c: char)
  {
    48 <= c as int <= 57
  }

  predicate AllDigits(s: string)
  {
    forall i :: 0 <= i < |s| ==> IsDigit(s[i])
  }

  function Digit(d: nat): (c: char)
    requires d < 10
    ensures IsDigit(c)
  {
    (48 + d) as char
  }

  /** The value of a decimal digit; a non-digit reads as 0. */
  function DigitValue(c: char): (v: nat)
    ensures v < 10
  {
    if IsDigit(c) then c as int - 48 else 0
  }

  /** Decimal rendering of a natural number, as template-literal interpolation of a bigint. */
  function NatToString(n: nat): string
  {
    if n < 10 then [Digit(n)] else NatToString(n / 10) + [Digit(n % 10)]
  }

  /** The decimal rendering is a non-empty string of digits. */
  lemma {:induction false} NatToStringDigits(n: nat)
    ensures |NatToString(n)| > 0 && AllDigits(NatToString(n))
  {
    if n >= 10 {
      NatToStringDigits(n / 10);
      var s := NatToString(n);
      assert s == NatToString(n / 10) + [Digit(n % 10)];
      forall i | 0 <= i < |s|
        ensures IsDigit(s[i])
      {
        if i < |s| - 1 {
          assert s[i] == NatToString(n / 10)[i];
        }
      }
    }
  }

  function ParseNat(s: string): nat
  {
    if s == [] then 0 else ParseNat(s[..|s| - 1]) * 10 + DigitValue(s[|s| - 1])
  }

  lemma {:induction false} ParseNatToString(n: nat)
    ensures ParseNat(NatToString(n)) == n
  {
    var s := NatToString(n);
    if n < 10 {
      assert s[..|s| - 1] == [];
    } else {
      assert s[..|s| - 1] == NatToString(n / 10);
      ParseNatToString(n / 10);
    }
  }

  /** The record id of an event with index `index` in block `blockNum`. */
  function RecordId(blockNum: nat, index: nat): string
  {
    NatToString(blockNum) + "-" + NatToString(index)
  }

  /** The characters of `s` before its first dash. */
  function BeforeDash(s: string): (p: string)
    ensures |p| <= |s| && p == s[..|p|]
  {
    if s == [] || s[0] == '-' then [] else [s[0]] + BeforeDash(s[1..])
  }

  /** Reads a record id back into block number and index. */
  function ParseRecordId(id: string): (nat, nat)
  {
    var p := BeforeDash(id);
    (ParseNat(p), if |p| < |id| then ParseNat(id[|p| + 1..]) else 0)
  }

  lemma {:induction false} BeforeDashOfJoin(a: string, c: string)
    requires AllDigits(a)
    ensures BeforeDash(a + "-" + c) == a
  {
    if a == [] {
      assert (a + "-" + c)[0] == '-';
    } else {
      assert a[0] != '-' by { assert IsDigit(a[0]); }
      assert (a + "-" + c)[1..] == a[1..] + "-" + c;
      BeforeDashOfJoin(a[1..], c);
    }
  }

  lemma RecordIdRoundTrip(blockNum: nat, index: nat)
    ensures ParseRecordId(RecordId(blockNum, index)) == (blockNum, index)
  {
    var b, i := NatToString(blockNum), NatToString(index);
    var id := RecordId(blockNum, index);
    NatToStringDigits(blockNum);
    BeforeDashOfJoin(b, i);
    assert id[|b| + 1..] == i;
    ParseNatToString(blockNum);
    ParseNatToString(index);
  }

  /** Two record ids are equal only when their block numbers and indices are. */
  lemma RecordIdInjective(b1: nat, i1: nat, b2: nat, i2: nat)
    requires RecordId(b1, i1) == RecordId(b2, i2)
    ensures b1 == b2 && i1 == i2
  {
    RecordIdRoundTrip(b1, i1);
    RecordIdRoundTrip(b2, i2);
  }
}
