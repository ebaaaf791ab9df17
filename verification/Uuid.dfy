/** Version 4 uuids as the program prints them, with the random draws as input. */
module Uuid {

  const HEX := "0123456789abcdef"

  /** Thirty draws of 0 to 15 and, sixteenth in order, one of 8 to 11 for the variant digit. */
  predicate Draws(d: seq<nat>)
  {
    && |d| == 31
    && (forall i | 0 <= i < 31 :: d[i] < 16)
    && 8 <= d[15] < 12
  }

  predicate Hyphen(i: int)
  {
    i == 8 || i == 13 || i == 18 || i == 23
  }

  /** Which draw fills position i. */
  function DrawFor(i: nat): (k: nat)
    requires i < 36 && !Hyphen(i) && i != 14
    ensures k < 31 && (k == 15 <==> i == 19)
  {
    if i < 8 then i else if i < 13 then i - 1 else if i < 18 then i - 3 else if i < 23 then i - 4 else i - 5
  }

  function CharAt(d: seq<nat>, i: nat): (c: char)
    requires Draws(d) && i < 36
  {
    if Hyphen(i) then '-' else if i == 14 then '4' else HEX[d[DrawFor(i)]]
  }

  function UuidOf(d: seq<nat>): (u: string)
    requires Draws(d)
  {
    seq(36, i requires 0 <= i < 36 => CharAt(d, i))
  }

  /** Set positions from..to with consecutive draws, starting at draw k. */
  method SetHex(uuid: array<char>, from: nat, to: nat, d: seq<nat>, k: nat)
    requires uuid.Length == 36 && Draws(d) && from <= to <= 36 && k + to - from <= 31
    modifies uuid
    ensures forall i | 0 <= i < 36 :: uuid[i] == if from <= i < to then HEX[d[k + i - from]] else old(uuid[i])
  {
    for j := from to to
      invariant forall i | 0 <= i < 36 :: uuid[i] == if from <= i < j then HEX[d[k + i - from]] else old(uuid[i])
    {
      uuid[j] := HEX[d[k + j - from]];
    }
  }

  method GenerateUuid(d: seq<nat>) returns (u: string)
    requires Draws(d)
    ensures u == UuidOf(d)
  {
    var uuid := new char[36](_ => ' ');
    uuid[8], uuid[13], uuid[18], uuid[23] := '-', '-', '-', '-';
    SetHex(uuid, 0, 8, d, 0);
    SetHex(uuid, 9, 13, d, 8);
    uuid[14] := '4';
    SetHex(uuid, 15, 18, d, 12);
    uuid[19] := HEX[d[15]];
    SetHex(uuid, 20, 23, d, 16);
    SetHex(uuid, 24, 36, d, 19);
    u := uuid[..];
    forall i | 0 <= i < 36 ensures u[i] == CharAt(d, i) {
    }
  }

  predicate IsHex(c: char)
  {
    '0' <= c <= '9' || 'a' <= c <= 'f'
  }

  /** The shape of section 5.4 of RFC 9562, in lower case. */
  predicate Version4(u: string)
  {
    && |u| == 36
    && (forall i | 0 <= i < 36 :: if Hyphen(i) then u[i] == '-' else IsHex(u[i]))
    && u[14] == '4'
    && (u[19] == '8' || u[19] == '9' || u[19] == 'a' || u[19] == 'b')
  }

  lemma HexDigits(k: nat)
    requires k < 16
    ensures IsHex(HEX[k])
    ensures forall j | 0 <= j < 16 && HEX[j] == HEX[k] :: j == k
    ensures 8 <= k < 12 ==> HEX[k] == '8' || HEX[k] == '9' || HEX[k] == 'a' || HEX[k] == 'b'
  {
  }

  /** Every draw gives a version 4 uuid, which therefore has no '|'. */
  lemma UuidShape(d: seq<nat>)
    requires Draws(d)
    ensures Version4(UuidOf(d)) && '|' !in UuidOf(d)
  {
    var u := UuidOf(d);
    forall i | 0 <= i < 36 && !Hyphen(i) ensures IsHex(u[i]) {
      if i != 14 {
        HexDigits(d[DrawFor(i)]);
      }
    }
    HexDigits(d[15]);
    assert u[19] == HEX[d[15]];
  }

  /** Position of draw k; the inverse of DrawFor. */
  function PositionOf(k: nat): (i: nat)
    requires k < 31
    ensures i < 36 && !Hyphen(i) && i != 14 && DrawFor(i) == k
  {
    if k < 8 then k else if k < 12 then k + 1 else if k < 15 then k + 3 else if k < 19 then k + 4 else k + 5
  }

  function HexValue(c: char): (n: int)
    requires IsHex(c)
  {
    if c <= '9' then c as int - '0' as int else c as int - 'a' as int + 10
  }

  /** Each draw is printed as its hexadecimal digit, at its own position. */
  lemma UuidReadsBack(d: seq<nat>, k: nat)
    requires Draws(d) && k < 31
    ensures var c := UuidOf(d)[PositionOf(k)]; IsHex(c) && HexValue(c) == d[k]
  {
    HexDigits(d[k]);
    assert UuidOf(d)[PositionOf(k)] == HEX[d[k]];
  }

  /** No randomness is lost: different draws print different uuids. */
  lemma UuidInjective(d: seq<nat>, e: seq<nat>)
    requires Draws(d) && Draws(e) && UuidOf(d) == UuidOf(e)
    ensures d == e
  {
    forall k | 0 <= k < 31 ensures d[k] == e[k] {
      var i := PositionOf(k);
      assert UuidOf(d)[i] == HEX[d[k]] && UuidOf(e)[i] == HEX[e[k]];
      HexDigits(d[k]);
    }
  }
}
