/** The discovery beacon "WISP|1|cluster|uuid|port": printer, parser, and the
    port a broker advertises. */
module Beacon {
  import opened Messages
  import Uuid

  // ---- decimal numbers

  predicate IsDigit(c: char)
  {
    '0' <= c <= '9'
  }

  function DigitChar(n: nat): (c: char)
    requires n < 10
  {
    ('0' as int + n) as char
  }

  function DigitValue(c: char): (n: nat)
    requires IsDigit(c)
  {
    c as int - '0' as int
  }

  function ToDecimal(n: nat): (s: string)
    ensures s != [] && forall i | 0 <= i < |s| :: IsDigit(s[i])
  {
    if n < 10 then [DigitChar(n)] else ToDecimal(n / 10) + [DigitChar(n % 10)]
  }

  function Value(s: string): (n: nat)
    requires forall i | 0 <= i < |s| :: IsDigit(s[i])
  {
    if s == [] then 0 else 10 * Value(s[..|s| - 1]) + DigitValue(s[|s| - 1])
  }

  lemma {:induction false} ValueOfDecimal(n: nat)
    ensures Value(ToDecimal(n)) == n
  {
    var s := ToDecimal(n);
    if n >= 10 {
      assert s[..|s| - 1] == ToDecimal(n / 10);
      ValueOfDecimal(n / 10);
    } else {
      assert s[..0] == [];
    }
  }

  // ---- the library's string-to-int conversion

  predicate IsSpace(c: char)
  {
    c == ' ' || '\t' <= c <= '\r'
  }

  function SkipSpace(s: string): (r: string)
  {
    if s != [] && IsSpace(s[0]) then SkipSpace(s[1..]) else s
  }

  /** The digits a number starts with; what follows them is ignored. */
  function LeadingDigits(s: string): (r: string)
    ensures r <= s && forall i | 0 <= i < |r| :: IsDigit(r[i])
  {
    if s != [] && IsDigit(s[0]) then [s[0]] + LeadingDigits(s[1..]) else []
  }

  /** Leading white space, an optional sign, at least one digit, anything after; None where
      the conversion throws: no digits, or outside the 32-bit range. */
  function Stoi(s: string): (r: Option<int>)
  {
    var t := SkipSpace(s);
    var negative := t != [] && t[0] == '-';
    var digits := LeadingDigits(if t != [] && (t[0] == '-' || t[0] == '+') then t[1..] else t);
    var n: int := if negative then -(Value(digits) as int) else Value(digits);
    if digits == [] || n < -0x8000_0000 || n > 0x7fff_ffff then None else Some(n)
  }

  lemma {:induction false} AllDigits(s: string)
    requires forall i | 0 <= i < |s| :: IsDigit(s[i])
    ensures LeadingDigits(s) == s
  {
    if s != [] {
      AllDigits(s[1..]);
    }
  }

  lemma StoiOfDigits(s: string, n: nat)
    requires s != [] && (forall i | 0 <= i < |s| :: IsDigit(s[i])) && Value(s) == n <= 65535
    ensures Stoi(s) == Some(n)
  {
    AllDigits(s);
    PlainStoi(s);
  }

  lemma PlainStoi(s: string)
    requires s != [] && IsDigit(s[0]) && LeadingDigits(s) == s
    ensures Value(s) <= 0x7fff_ffff ==> Stoi(s) == Some(Value(s))
  {
    assert SkipSpace(s) == s;
  }

  lemma {:induction false} SpacesSkipped(spaces: string, rest: string)
    requires (forall i | 0 <= i < |spaces| :: IsSpace(spaces[i])) && (rest == [] || !IsSpace(rest[0]))
    ensures SkipSpace(spaces + rest) == rest
  {
    if spaces == [] {
      assert spaces + rest == rest;
    } else {
      assert (spaces + rest)[1..] == spaces[1..] + rest;
      SpacesSkipped(spaces[1..], rest);
    }
  }

  lemma {:induction false} DigitsTaken(digits: string, rest: string)
    requires (forall i | 0 <= i < |digits| :: IsDigit(digits[i])) && (rest == [] || !IsDigit(rest[0]))
    ensures LeadingDigits(digits + rest) == digits
  {
    if digits == [] {
      assert digits + rest == rest;
    } else {
      assert (digits + rest)[1..] == digits[1..] + rest;
      DigitsTaken(digits[1..], rest);
    }
  }

  /** The number, unless it leaves the 32-bit range. */
  function InRange(n: int): (r: Option<int>)
  {
    if n < -0x8000_0000 || n > 0x7fff_ffff then None else Some(n)
  }

  lemma StoiUnsigned(s: string, t: string, digits: string)
    requires SkipSpace(s) == t && LeadingDigits(t) == digits && (t == [] || (t[0] != '-' && t[0] != '+'))
    ensures Stoi(s) == if digits == [] then None else InRange(Value(digits))
  {
  }

  lemma StoiSigned(s: string, t: string, digits: string)
    requires SkipSpace(s) == t && t != [] && (t[0] == '-' || t[0] == '+') && LeadingDigits(t[1..]) == digits
    ensures Stoi(s)
            == if digits == [] then None else InRange(if t[0] == '-' then -(Value(digits) as int) else Value(digits))
  {
  }

  predicate Digits(s: string)
  {
    forall i | 0 <= i < |s| :: IsDigit(s[i])
  }

  predicate Spaces(s: string)
  {
    forall i | 0 <= i < |s| :: IsSpace(s[i])
  }

  /** White space, then digits and whatever else: the digits are the number; without digits there is none. */
  lemma StoiReads(spaces: string, digits: string, rest: string)
    requires Spaces(spaces) && Digits(digits) && (rest == [] || !IsDigit(rest[0]))
    requires digits == [] && rest != [] ==> !IsSpace(rest[0]) && rest[0] != '+' && rest[0] != '-'
    ensures Stoi(spaces + (digits + rest)) == if digits == [] then None else InRange(Value(digits))
  {
    var t := digits + rest;
    assert digits != [] ==> IsDigit(t[0]);
    SpacesSkipped(spaces, t);
    DigitsTaken(digits, rest);
    StoiUnsigned(spaces + t, t, digits);
  }

  /** The same behind a sign. */
  lemma StoiReadsSigned(spaces: string, sign: char, digits: string, rest: string)
    requires Spaces(spaces) && Digits(digits) && (rest == [] || !IsDigit(rest[0])) && (sign == '-' || sign == '+')
    ensures Stoi(spaces + ([sign] + (digits + rest)))
            == if digits == [] then None else InRange(if sign == '-' then -(Value(digits) as int) else Value(digits))
  {
    var t := [sign] + (digits + rest);
    SpacesSkipped(spaces, t);
    DigitsTaken(digits, rest);
    assert t[1..] == digits + rest;
    StoiSigned(spaces + t, t, digits);
  }

  lemma StoiOfDecimal(n: nat)
    requires n <= 65535
    ensures Stoi(ToDecimal(n)) == Some(n)
  {
    ValueOfDecimal(n);
    StoiOfDigits(ToDecimal(n), n);
  }

  function PortIn(s: string): (r: Option<int>)
    ensures r.Some? ==> 0 < r.value <= 65535
  {
    var n := Stoi(s);
    if n.Some? && 0 < n.value <= 65535 then n else None
  }

  // ---- splitting at '|'

  predicate NoBar(s: string)
  {
    forall i | 0 <= i < |s| :: s[i] != '|'
  }

  /** The fields between the bars; there is always at least one. */
  function Split(s: string): (fields: seq<string>)
    ensures fields != []
  {
    if s == [] then [""]
    else
      var rest := Split(s[1..]);
      if s[0] == '|' then [""] + rest else [[s[0]] + rest[0]] + rest[1..]
  }

  lemma {:induction false} SplitConcat(a: string, b: string)
    ensures Split(a + "|" + b) == Split(a) + Split(b)
  {
    var s := a + "|" + b;
    if a == [] {
      assert s[1..] == b;
    } else {
      assert s[1..] == a[1..] + "|" + b;
      SplitConcat(a[1..], b);
    }
  }

  /** One field exactly when there is no bar, and then it is the whole string. */
  lemma {:induction false} SplitWhole(s: string)
    ensures |Split(s)| == 1 <==> NoBar(s)
    ensures NoBar(s) ==> Split(s) == [s]
  {
    if s != [] {
      SplitWhole(s[1..]);
      assert s == [s[0]] + s[1..];
      assert NoBar(s) <==> s[0] != '|' && NoBar(s[1..]);
    }
  }

  lemma {:induction false} FieldsHaveNoBar(s: string, k: nat)
    requires k < |Split(s)|
    ensures NoBar(Split(s)[k])
  {
    if s != [] {
      if s[0] == '|' {
        if k > 0 {
          FieldsHaveNoBar(s[1..], k - 1);
        }
      } else {
        FieldsHaveNoBar(s[1..], k);
      }
    }
  }

  function Join(fields: seq<string>): (s: string)
    requires fields != []
  {
    if |fields| == 1 then fields[0] else fields[0] + "|" + Join(fields[1..])
  }

  /** Splitting loses nothing: the fields joined by bars are the string again. */
  lemma {:induction false} JoinSplit(s: string)
    ensures Join(Split(s)) == s
  {
    if s != [] {
      JoinSplit(s[1..]);
    }
  }

  // ---- beacons

  datatype Beacon = Beacon(cluster: string, uuid: string, routerPort: int)

  function EncodeBeacon(cluster: string, uuid: string, routerPort: nat): (s: string)
  {
    "WISP" + "|" + "1" + "|" + cluster + "|" + uuid + "|" + ToDecimal(routerPort)
  }

  function DecodeFields(fields: seq<string>): (r: Option<Beacon>)
  {
    if |fields| != 5 || fields[0] != "WISP" || fields[1] != "1" then None
    else
      var port := PortIn(fields[4]);
      if port.Some? then Some(Beacon(fields[2], fields[3], port.value)) else None
  }

  /** The next bar from `start` on, or the end. */
  method FindBar(s: string, start: nat) returns (pos: nat)
    requires start <= |s|
    ensures start <= pos <= |s| && NoBar(s[start..pos])
    ensures pos < |s| ==> s[pos] == '|'
  {
    pos := start;
    while pos < |s| && s[pos] != '|'
      invariant start <= pos <= |s|
      invariant forall i | start <= i < pos :: s[i] != '|'
    {
      pos := pos + 1;
    }
  }

  /** The fields found so far, and the rest still to be split. */
  ghost predicate Splitting(s: string, fields: seq<string>, start: nat)
  {
    start <= |s| && Split(s) == fields + Split(s[start..])
  }

  lemma SplitNext(s: string, start: nat, pos: nat)
    requires start <= pos <= |s| && NoBar(s[start..pos]) && (pos < |s| ==> s[pos] == '|')
    ensures Split(s[start..]) == if pos == |s| then [s[start..]] else [s[start..pos]] + Split(s[pos + 1..])
  {
    SplitWhole(s[start..pos]);
    if pos < |s| {
      assert s[start..] == s[start..pos] + "|" + s[pos + 1..];
      SplitConcat(s[start..pos], s[pos + 1..]);
    } else {
      assert s[start..] == s[start..pos];
    }
  }

  lemma SplitStep(s: string, fields: seq<string>, start: nat, pos: nat)
    requires Splitting(s, fields, start)
    requires start <= pos <= |s| && NoBar(s[start..pos]) && (pos < |s| ==> s[pos] == '|')
    ensures pos == |s| ==> Split(s) == fields + [s[start..]]
    ensures pos < |s| ==> Splitting(s, fields + [s[start..pos]], pos + 1)
  {
    SplitNext(s, start, pos);
    if pos < |s| {
      Associative(fields, [s[start..pos]], Split(s[pos + 1..]));
    }
  }

  lemma Associative(a: seq<string>, b: seq<string>, c: seq<string>)
    ensures a + (b + c) == (a + b) + c
  {
  }

  method DecodeBeacon(s: string) returns (r: Option<Beacon>)
    ensures r == DecodeFields(Split(s))
  {
    var fields: seq<string> := [];
    var start := 0;
    assert s[0..] == s;
    while true
      invariant Splitting(s, fields, start)
      decreases |s| - start
    {
      var pos := FindBar(s, start);
      SplitStep(s, fields, start, pos);
      if pos == |s| {
        fields := fields + [s[start..]];
        break;
      }
      fields := fields + [s[start..pos]];
      start := pos + 1;
    }
    return DecodeFields(fields);
  }

  lemma SplitFour(a: string, b: string, c: string, d: string)
    ensures Split(a + "|" + b + "|" + c + "|" + d) == Split(a) + Split(b) + Split(c) + Split(d)
  {
    SplitConcat(a, b);
    SplitConcat(a + "|" + b, c);
    SplitConcat(a + "|" + b + "|" + c, d);
  }

  lemma SplitBeacon(cluster: string, uuid: string, routerPort: nat)
    ensures Split(EncodeBeacon(cluster, uuid, routerPort)) ==
      ["WISP", "1"] + Split(cluster) + Split(uuid) + [ToDecimal(routerPort)]
  {
    var head := "WISP" + "|" + "1";
    SplitFour(head, cluster, uuid, ToDecimal(routerPort));
    assert Split(head) == ["WISP", "1"] by {
      SplitConcat("WISP", "1");
      SplitWhole("WISP");
      SplitWhole("1");
    }
    SplitWhole(ToDecimal(routerPort));
  }

  /** A printed beacon parses back to the same triple exactly when neither the cluster
      name nor the uuid contains '|' and the port is a usable one. */
  lemma BeaconRoundTrip(cluster: string, uuid: string, routerPort: nat)
    requires routerPort <= 65535
    ensures DecodeFields(Split(EncodeBeacon(cluster, uuid, routerPort))) == Some(Beacon(cluster, uuid, routerPort))
      <==> NoBar(cluster) && NoBar(uuid) && routerPort != 0
  {
    SplitBeacon(cluster, uuid, routerPort);
    SplitWhole(cluster);
    SplitWhole(uuid);
    StoiOfDecimal(routerPort);
    var fields := Split(EncodeBeacon(cluster, uuid, routerPort));
    if NoBar(cluster) && NoBar(uuid) {
      assert fields == ["WISP", "1", cluster, uuid, ToDecimal(routerPort)];
    } else {
      assert |fields| != 5;
    }
  }

  /** Only datagrams that start with the magic word and version 1 are beacons, and printed ones do. */
  lemma BeaconsAreMarked(s: string, cluster: string, uuid: string, port: nat)
    ensures DecodeFields(Split(s)).Some? ==> "WISP|1|" <= s
    ensures "WISP|1|" <= EncodeBeacon(cluster, uuid, port)
  {
    if DecodeFields(Split(s)).Some? {
      var fields := Split(s);
      JoinSplit(s);
      assert Join(fields) == fields[0] + "|" + Join(fields[1..]);
      assert Join(fields[1..]) == fields[1..][0] + "|" + Join(fields[1..][1..]);
    }
  }

  /** Whatever datagram is accepted, printing what was read gives a beacon that reads the same. */
  lemma AcceptedReencodes(s: string)
    requires DecodeFields(Split(s)).Some?
    ensures var b := DecodeFields(Split(s)).value;
      DecodeFields(Split(EncodeBeacon(b.cluster, b.uuid, b.routerPort))) == Some(b)
  {
    FieldsHaveNoBar(s, 2);
    FieldsHaveNoBar(s, 3);
    var b := DecodeFields(Split(s)).value;
    BeaconRoundTrip(b.cluster, b.uuid, b.routerPort);
  }

  // ---- the advertised port

  function LastColon(s: string): (r: Option<nat>)
    ensures r.Some? ==> r.value < |s| && s[r.value] == ':' && ':' !in s[r.value + 1..]
    ensures r.None? ==> ':' !in s
  {
    if s == [] then None
    else if s[|s| - 1] == ':' then Some(|s| - 1)
    else
      var r := LastColon(s[..|s| - 1]);
      assert s == s[..|s| - 1] + [s[|s| - 1]];
      assert r.Some? ==> s[r.value + 1..] == s[..|s| - 1][r.value + 1..] + [s[|s| - 1]];
      r
  }

  const TCP := "tcp://"

  function PortOf(address: string): (r: Option<int>)
    ensures r.Some? ==> 0 < r.value <= 65535 && "tcp://" <= address && ':' in address[6..]
  {
    if !(TCP <= address) then None
    else
      var colon := LastColon(address);
      if colon.None? then None else PortIn(address[colon.value + 1..])
  }

  /** The port of the first bind address that has one, or 0. */
  function FirstPort(addresses: seq<string>): (port: int)
    ensures 0 <= port <= 65535
  {
    if addresses == [] then 0
    else
      var found := PortOf(addresses[0]);
      if found.Some? then found.value else FirstPort(addresses[1..])
  }

  method ParseTcpPort(addresses: seq<string>) returns (port: int)
    ensures port == FirstPort(addresses)
  {
    for i := 0 to |addresses|
      invariant FirstPort(addresses) == FirstPort(addresses[i..])
    {
      var found := PortOf(addresses[i]);
      if found.Some? {
        return found.value;
      }
      assert addresses[i..][1..] == addresses[i + 1..];
    }
    assert addresses[|addresses|..] == [];
    return 0;
  }

  /** Zero means no address has a usable port, and otherwise the port is the one of an
      address with no usable port before it. */
  lemma {:induction false} FirstPortIsFirst(addresses: seq<string>) returns (i: nat)
    ensures i <= |addresses| && forall a | a in addresses[..i] :: PortOf(a).None?
    ensures i == |addresses| ==> FirstPort(addresses) == 0
    ensures i < |addresses| ==> PortOf(addresses[i]) == Some(FirstPort(addresses))
  {
    if addresses == [] || PortOf(addresses[0]).Some? {
      i := 0;
    } else {
      var k := FirstPortIsFirst(addresses[1..]);
      i := k + 1;
      assert addresses[..i] == [addresses[0]] + addresses[1..][..k];
    }
  }

  lemma LastColonAt(s: string, i: nat)
    requires i < |s| && s[i] == ':' && ':' !in s[i + 1..]
    ensures LastColon(s) == Some(i)
  {
  }

  /** An address written tcp://host:port, host without restriction, advertises that port. */
  lemma PortOfAddress(host: string, port: nat)
    requires 0 < port <= 65535
    ensures PortOf(TCP + host + ":" + ToDecimal(port)) == Some(port)
  {
    var address, at := TCP + host + ":" + ToDecimal(port), |TCP + host|;
    assert address[at + 1..] == ToDecimal(port);
    LastColonAt(address, at);
    StoiOfDecimal(port);
  }

  // ---- the receive buffer

  const RECEIVE_BUFFER: nat := 512

  /** What a receiver reads of a datagram; the rest is cut off. */
  function Clipped(data: string): (r: string)
  {
    if |data| > RECEIVE_BUFFER then data[..RECEIVE_BUFFER] else data
  }

  lemma {:induction false} PrefixHasNoMoreFields(s: string, k: nat)
    requires k <= |s|
    ensures |Split(s[..k])| <= |Split(s)|
  {
    if k > 0 {
      assert s[..k][1..] == s[1..][..k - 1];
      PrefixHasNoMoreFields(s[1..], k - 1);
    }
  }

  /** Cutting digits off a number makes it smaller. */
  lemma {:induction false} CutNumberIsSmaller(n: nat, k: nat)
    requires 0 < n && k < |ToDecimal(n)|
    ensures Value(ToDecimal(n)[..k]) < n
  {
    if n >= 10 {
      var s := ToDecimal(n / 10);
      assert ToDecimal(n)[..k] == s[..k];
      if k < |s| {
        CutNumberIsSmaller(n / 10, k);
      } else {
        assert s[..k] == s;
        ValueOfDecimal(n / 10);
      }
    }
  }

  lemma CutPort(port: nat, k: nat)
    requires 0 < port <= 65535 && k < |ToDecimal(port)|
    ensures PortIn(ToDecimal(port)[..k]) != Some(port)
  {
    var s := ToDecimal(port)[..k];
    CutNumberIsSmaller(port, k);
    if s != [] {
      StoiOfDigits(s, Value(s));
    }
  }

  lemma HeadFields(cluster: string, uuid: string)
    requires NoBar(cluster) && NoBar(uuid)
    ensures Split("WISP" + "|" + "1" + "|" + cluster + "|" + uuid) == ["WISP", "1", cluster, uuid]
  {
    SplitFour("WISP", "1", cluster, uuid);
    SplitWhole("WISP");
    SplitWhole("1");
    SplitWhole(cluster);
    SplitWhole(uuid);
  }

  /** A beacon cut short anywhere is rejected or read as another port. */
  lemma CutBeacon(cluster: string, uuid: string, port: nat, k: nat)
    requires NoBar(cluster) && NoBar(uuid) && 0 < port <= 65535 && k < |EncodeBeacon(cluster, uuid, port)|
    ensures DecodeFields(Split(EncodeBeacon(cluster, uuid, port)[..k])) != Some(Beacon(cluster, uuid, port))
  {
    var head := "WISP" + "|" + "1" + "|" + cluster + "|" + uuid;
    var whole, digits := EncodeBeacon(cluster, uuid, port), ToDecimal(port);
    assert whole == head + "|" + digits;
    HeadFields(cluster, uuid);
    if k <= |head| {
      assert whole[..k] == head[..k];
      PrefixHasNoMoreFields(head, k);
    } else {
      var rest := digits[..k - |head| - 1];
      assert whole[..k] == head + "|" + rest;
      SplitConcat(head, rest);
      SplitWhole(rest);
      CutPort(port, |rest|);
    }
  }

  /** A printed beacon is received as the same triple exactly when neither the cluster name nor the
      uuid contains '|', the port is a usable one and the beacon fits the receive buffer. */
  lemma ReceivedBeacon(cluster: string, uuid: string, port: nat)
    requires port <= 65535
    ensures var data := EncodeBeacon(cluster, uuid, port);
      DecodeFields(Split(Clipped(data))) == Some(Beacon(cluster, uuid, port))
      <==> NoBar(cluster) && NoBar(uuid) && port != 0 && |data| <= 512
  {
    var data := EncodeBeacon(cluster, uuid, port);
    BeaconRoundTrip(cluster, uuid, port);
    if NoBar(cluster) && NoBar(uuid) && port != 0 && |data| > 512 {
      CutBeacon(cluster, uuid, port, 512);
    }
    var fields := Split(Clipped(data));
    if DecodeFields(fields).Some? {
      FieldsHaveNoBar(Clipped(data), 2);
      FieldsHaveNoBar(Clipped(data), 3);
    }
  }

  /** The beacon of a started broker, its uuid printed from any draw and its port parsed from its
      bind addresses, is received as its own triple exactly when the cluster name has no '|' and is
      at most 467 characters long, the digits of the port counted with it. */
  lemma StartedBrokerBeacon(cluster: string, draws: seq<nat>, addresses: seq<string>)
    requires Uuid.Draws(draws) && FirstPort(addresses) != 0
    ensures var uuid, port := Uuid.UuidOf(draws), FirstPort(addresses);
      DecodeFields(Split(Clipped(EncodeBeacon(cluster, uuid, port)))) == Some(Beacon(cluster, uuid, port))
      <==> NoBar(cluster) && |cluster| + |ToDecimal(port)| <= 467
  {
    Uuid.UuidShape(draws);
    ReceivedBeacon(cluster, Uuid.UuidOf(draws), FirstPort(addresses));
  }
}
