/** The multipart codec: each part is its size, one byte below 255 and otherwise
    0xFF and four bytes in network order, followed by its bytes. */
module Multipart {
  import opened Messages

  const U32_MAX: nat := 0xffff_ffff

  // ---- sizes in network order

  /** The four bytes of a 32-bit number, most significant first: the number shifted right
      by 24, 16, 8 and 0 bits, each masked to a byte. */
  function Network(n: nat): (r: Bytes)
    requires n <= U32_MAX
    ensures |r| == 4
  {
    var n8 := n / 0x100;
    var n16 := n8 / 0x100;
    var n24 := n16 / 0x100;
    [n24 as byte, (n16 % 0x100) as byte, (n8 % 0x100) as byte, (n % 0x100) as byte]
  }

  function ReadNetwork(b: Bytes): (n: nat)
    requires |b| >= 4
    ensures n <= U32_MAX
  {
    ((b[0] as nat * 0x100 + b[1] as nat) * 0x100 + b[2] as nat) * 0x100 + b[3] as nat
  }

  lemma NetworkRoundTrip(n: nat)
    requires n <= U32_MAX
    ensures ReadNetwork(Network(n)) == n
  {
  }

  /** Network order: the first byte is the most significant one, and so on down. */
  lemma NetworkOrder(n: nat)
    requires n <= U32_MAX
    ensures var r := Network(n);
      && r[0] as nat == n / 0x100_0000
      && n == r[0] as nat * 0x100_0000 + r[1] as nat * 0x1_0000 + r[2] as nat * 0x100 + r[3] as nat
  {
  }

  // ---- what the bytes of a list of parts are

  function Prefix(size: nat): (r: Bytes)
    requires size <= U32_MAX
    ensures |r| == if size < 255 then 1 else 5
  {
    if size < 255 then [size as byte] else [255] + Network(size)
  }

  /** A size is one byte below 255, and the byte 255 followed by four in network order from there on. */
  lemma PrefixLayout(size: nat)
    requires size <= U32_MAX
    ensures size < 255 ==> |Prefix(size)| == 1 && Prefix(size)[0] as nat == size
    ensures size >= 255 ==> |Prefix(size)| == 5 && Prefix(size)[0] == 255 && Prefix(size)[1] as nat == size / 0x100_0000
  {
    NetworkOrder(size);
  }

  predicate Encodable(parts: seq<Bytes>)
  {
    forall i | 0 <= i < |parts| :: |parts[i]| <= U32_MAX
  }

  function Encoding(parts: seq<Bytes>): (r: Bytes)
    requires Encodable(parts)
  {
    if parts == [] then [] else Prefix(|parts[0]|) + parts[0] + Encoding(parts[1..])
  }

  /** One part off the front: its size and where its data starts; None where the decoder throws. */
  datatype Head = Head(start: nat, size: nat)

  function ReadHead(b: Bytes): (r: Option<Head>)
    requires b != []
    ensures r.Some? ==> 0 < r.value.start && r.value.start + r.value.size <= |b|
  {
    var first := b[0] as nat;
    if first == 255 && |b| - 1 < 4 then None
    else
      var h := if first == 255 then Head(5, ReadNetwork(b[1..])) else Head(1, first);
      if |b| - h.start < h.size then None else Some(h)
  }

  function Prepend(parts: seq<Bytes>, r: Option<seq<Bytes>>): (s: Option<seq<Bytes>>)
  {
    if r.Some? then Some(parts + r.value) else None
  }

  /** The first part and what follows it. */
  function Cut(b: Bytes): (r: Option<(Bytes, Bytes)>)
    requires b != []
    ensures r.Some? ==> |r.value.1| < |b|
  {
    var h := ReadHead(b);
    if h.None? then None
    else
      var end := h.value.start + h.value.size;
      Some((b[h.value.start..end], b[end..]))
  }

  function Decoding(b: Bytes): (r: Option<seq<Bytes>>)
    decreases |b|
  {
    if b == [] then Some([])
    else
      var cut := Cut(b);
      if cut.None? then None else Prepend([cut.value.0], Decoding(cut.value.1))
  }

  // ---- the in-place encoder

  function EncodedSize(parts: seq<Bytes>): (n: nat)
  {
    if parts == [] then 0
    else |parts[0]| + (if |parts[0]| < 255 then 1 else 5) + EncodedSize(parts[1..])
  }

  lemma {:induction false} EncodingSize(parts: seq<Bytes>)
    requires Encodable(parts)
    ensures |Encoding(parts)| == EncodedSize(parts)
  {
    if parts != [] {
      EncodingSize(parts[1..]);
    }
  }

  lemma {:induction false} EncodingConcat(a: seq<Bytes>, b: seq<Bytes>)
    requires Encodable(a) && Encodable(b)
    ensures Encodable(a + b) && Encoding(a + b) == Encoding(a) + Encoding(b)
  {
    if a == [] {
      assert a + b == b;
    } else {
      assert (a + b)[1..] == a[1..] + b;
      EncodingConcat(a[1..], b);
    }
  }

  lemma {:induction false} SizeConcat(a: seq<Bytes>, b: seq<Bytes>)
    ensures EncodedSize(a + b) == EncodedSize(a) + EncodedSize(b)
  {
    if a == [] {
      assert a + b == b;
    } else {
      assert (a + b)[1..] == a[1..] + b;
      SizeConcat(a[1..], b);
    }
  }

  /** First pass: check the sizes and add them up; None for a part that is too large. */
  method Measure(parts: seq<Bytes>) returns (size: Option<nat>)
    ensures size == if Encodable(parts) then Some(EncodedSize(parts)) else None
  {
    var total := 0;
    for i := 0 to |parts|
      invariant Encodable(parts[..i]) && total == EncodedSize(parts[..i])
    {
      if |parts[i]| > U32_MAX {
        return None;
      }
      assert parts[..i + 1] == parts[..i] + [parts[i]];
      SizeConcat(parts[..i], [parts[i]]);
      total := total + |parts[i]| + if |parts[i]| < 255 then 1 else 5;
    }
    assert parts[..|parts|] == parts;
    return Some(total);
  }

  /** Copy bytes into the buffer at the given position and return the position after them. */
  method Write(buf: array<byte>, at: nat, data: Bytes) returns (next: nat)
    requires at + |data| <= buf.Length
    modifies buf
    ensures next == at + |data|
    ensures buf[..next] == old(buf[..at]) + data
  {
    for k := 0 to |data|
      invariant buf[..at + k] == old(buf[..at]) + data[..k]
    {
      buf[at + k] := data[k];
      assert data[..k + 1] == data[..k] + [data[k]];
    }
    assert data[..|data|] == data;
    next := at + |data|;
  }

  lemma {:induction false} SizeFits(parts: seq<Bytes>, i: nat)
    requires i < |parts|
    ensures EncodedSize(parts[..i]) + |parts[i]| + (if |parts[i]| < 255 then 1 else 5) <= EncodedSize(parts)
    ensures EncodedSize(parts[..i + 1]) == EncodedSize(parts[..i]) + |parts[i]| + (if |parts[i]| < 255 then 1 else 5)
  {
    assert parts == parts[..i] + parts[i..];
    SizeConcat(parts[..i], parts[i..]);
    assert parts[..i + 1] == parts[..i] + [parts[i]];
    SizeConcat(parts[..i], [parts[i]]);
  }

  lemma EncodingStep(parts: seq<Bytes>, i: nat)
    requires i < |parts| && Encodable(parts)
    ensures Encoding(parts[..i + 1]) == Encoding(parts[..i]) + (Prefix(|parts[i]|) + parts[i])
  {
    assert parts[..i + 1] == parts[..i] + [parts[i]];
    EncodingConcat(parts[..i], [parts[i]]);
    assert Encoding([parts[i]]) == Prefix(|parts[i]|) + parts[i] + Encoding([]);
  }

  /** Encoding fails exactly when some part does not fit 32 bits; otherwise the buffer of
      the computed size is filled to the last byte. */
  method Encode(parts: seq<Bytes>) returns (r: Option<array<byte>>)
    ensures r.Some? <==> Encodable(parts)
    ensures r.Some? ==> fresh(r.value) && r.value[..] == Encoding(parts)
  {
    var size := Measure(parts);
    if size.None? {
      return None;
    }
    var buf := new byte[size.value](_ => 0);
    var at := 0;
    for i := 0 to |parts|
      invariant at == EncodedSize(parts[..i]) <= buf.Length
      invariant buf[..at] == Encoding(parts[..i])
    {
      SizeFits(parts, i);
      EncodingStep(parts, i);
      at := Write(buf, at, Prefix(|parts[i]|));
      at := Write(buf, at, parts[i]);
      assert Encoding(parts[..i]) + Prefix(|parts[i]|) + parts[i]
          == Encoding(parts[..i]) + (Prefix(|parts[i]|) + parts[i]);
    }
    assert parts[..|parts|] == parts;
    assert buf[..at] == buf[..];
    return Some(buf);
  }

  /** The decoder's loop.  On malformed input it stops at `source`, never past the end, and the
      parts written so far are the decoding of what it consumed. */
  method Decode(b: Bytes) returns (ok: bool, parts: seq<Bytes>, source: nat)
    ensures source <= |b| && Decoding(b[..source]) == Some(parts)
    ensures ok ==> source == |b| && Decoding(b) == Some(parts)
    ensures !ok ==> Decoding(b).None?
  {
    source, parts := 0, [];
    StartDecode(b);
    while source < |b|
      invariant Decoded(b, source, parts)
      decreases |b| - source
    {
      var part, next := TakePart(b, source, parts);
      if part.None? {
        return false, parts, source;
      }
      source, parts := next, parts + [part.value];
    }
    DoneDecode(b, parts);
    return true, parts, source;
  }

  /** The next part and where it ends, or None where the decoder throws. */
  method TakePart(b: Bytes, source: nat, ghost parts: seq<Bytes>) returns (part: Option<Bytes>, next: nat)
    requires source < |b| && Decoded(b, source, parts)
    ensures part.None? ==> Decoding(b).None?
    ensures part.Some? ==> source < next && Decoded(b, next, parts + [part.value])
  {
    var h := ReadHead(b[source..]);
    if h.None? {
      StuckDecode(b, source, parts);
      return None, source;
    }
    StepDecode(b, source, parts, h.value);
    var from := source + h.value.start;
    next := from + h.value.size;
    part := Some(b[from..next]);
  }

  lemma DoneDecode(b: Bytes, parts: seq<Bytes>)
    requires Decoded(b, |b|, parts)
    ensures Decoding(b) == Some(parts)
  {
    assert b[..|b|] == b;
  }

  /** Everything before `source` decodes to `parts`, and the rest decides the result. */
  ghost predicate Decoded(b: Bytes, source: nat, parts: seq<Bytes>)
  {
    && source <= |b|
    && Decoding(b[..source]) == Some(parts)
    && Decoding(b) == Prepend(parts, Decoding(b[source..]))
  }

  lemma StartDecode(b: Bytes)
    ensures Decoded(b, 0, [])
  {
    assert b[0..] == b && b[..0] == [];
    assert Decoding(b).Some? ==> [] + Decoding(b).value == Decoding(b).value;
  }

  lemma StuckDecode(b: Bytes, source: nat, parts: seq<Bytes>)
    requires Decoded(b, source, parts) && source < |b| && ReadHead(b[source..]).None?
    ensures Decoding(b).None?
  {
  }

  lemma StepDecode(b: Bytes, source: nat, parts: seq<Bytes>, h: Head)
    requires Decoded(b, source, parts) && source < |b| && ReadHead(b[source..]) == Some(h)
    ensures var from, end := source + h.start, source + h.start + h.size;
      Decoded(b, end, parts + [b[from..end]])
  {
    TakeFront(b, source, parts, h);
    TakeRest(b, source, parts, h);
  }

  lemma CutConcat(a: Bytes, b: Bytes)
    requires a != [] && Cut(a).Some?
    ensures Cut(a + b) == Some((Cut(a).value.0, Cut(a).value.1 + b))
  {
    var h := ReadHead(a).value;
    var end := h.start + h.size;
    if h.start == 5 {
      assert (a + b)[1..][..4] == a[1..][..4];
    }
    assert ReadHead(a + b) == Some(h);
    assert (a + b)[h.start..end] == a[h.start..end] && (a + b)[end..] == a[end..] + b;
  }

  /** Decoding distributes over concatenation after a well-formed input. */
  lemma {:induction false} DecodingConcat(a: Bytes, b: Bytes)
    requires Decoding(a).Some?
    ensures Decoding(a + b) == Prepend(Decoding(a).value, Decoding(b))
    decreases |a|
  {
    if a == [] {
      assert a + b == b;
      assert Decoding(b).Some? ==> [] + Decoding(b).value == Decoding(b).value;
    } else {
      CutConcat(a, b);
      var (part, rest) := Cut(a).value;
      DecodingConcat(rest, b);
      PrependAssociative([part], Decoding(rest).value, Decoding(b));
    }
  }

  lemma PrependAssociative(a: seq<Bytes>, b: seq<Bytes>, r: Option<seq<Bytes>>)
    ensures Prepend(a, Prepend(b, r)) == Prepend(a + b, r)
  {
    assert r.Some? ==> a + (b + r.value) == (a + b) + r.value;
  }

  /** The loop has decoded everything before `source` and takes the next part, up to `end`. */
  lemma TakeFront(b: Bytes, source: nat, parts: seq<Bytes>, h: Head)
    requires source < |b| && Decoding(b[..source]) == Some(parts) && ReadHead(b[source..]) == Some(h)
    ensures var from, end := source + h.start, source + h.start + h.size;
      Decoding(b[..end]) == Some(parts + [b[from..end]])
  {
    var rest, end := b[source..], source + h.start + h.size;
    var one := rest[..h.start + h.size];
    ReadHeadExact(rest, h);
    assert rest[h.start..h.start + h.size] == b[source + h.start..end];
    assert b[..end] == b[..source] + one;
    DecodingConcat(b[..source], one);
  }

  lemma TakeRest(b: Bytes, source: nat, parts: seq<Bytes>, h: Head)
    requires source < |b| && ReadHead(b[source..]) == Some(h)
    ensures var from, end := source + h.start, source + h.start + h.size;
      Prepend(parts, Decoding(b[source..])) == Prepend(parts + [b[from..end]], Decoding(b[end..]))
  {
    var rest, from, end := b[source..], source + h.start, source + h.start + h.size;
    assert rest[h.start..h.start + h.size] == b[from..end] && rest[h.start + h.size..] == b[end..];
    assert Cut(rest) == Some((b[from..end], b[end..]));
    PrependAssociative(parts, [b[from..end]], Decoding(b[end..]));
  }

  lemma ReadHeadExact(b: Bytes, h: Head)
    requires b != [] && ReadHead(b) == Some(h)
    ensures var one := b[..h.start + h.size];
      ReadHead(one) == Some(h) && Decoding(one) == Some([b[h.start..h.start + h.size]])
  {
    var one := b[..h.start + h.size];
    assert one[h.start..h.start + h.size] == b[h.start..h.start + h.size];
    if h.start == 5 {
      assert one[1..][..4] == b[1..][..4];
    }
    assert one[h.start + h.size..] == [];
    var part := b[h.start..h.start + h.size];
    assert [part] + [] == [part];
    assert Decoding(one) == Some([part] + []);
  }

  lemma ReadPrefix(part: Bytes, rest: Bytes)
    requires |part| <= U32_MAX
    ensures var b := Prefix(|part|) + part + rest;
      && ReadHead(b) == Some(Head(|Prefix(|part|)|, |part|))
      && b[|Prefix(|part|)|..][..|part|] == part
      && b[|Prefix(|part|)| + |part|..] == rest
  {
    var b := Prefix(|part|) + part + rest;
    if |part| >= 255 {
      assert b[1..][..4] == Network(|part|);
      NetworkRoundTrip(|part|);
    }
  }

  /** Decoding an encoding gives the parts back, for every list of parts below 2^32 bytes each. */
  lemma {:induction false} RoundTrip(parts: seq<Bytes>)
    requires Encodable(parts)
    ensures Decoding(Encoding(parts)) == Some(parts)
  {
    if parts != [] {
      var b, k := Encoding(parts), |Prefix(|parts[0]|)|;
      ReadPrefix(parts[0], Encoding(parts[1..]));
      RoundTrip(parts[1..]);
      assert b[k..k + |parts[0]|] == b[k..][..|parts[0]|];
      assert parts == [parts[0]] + parts[1..];
    }
  }

  /** The size prefix the encoder would choose is no longer than the one read. */
  lemma PrefixNotLonger(b: Bytes)
    requires b != [] && ReadHead(b).Some?
    ensures var h := ReadHead(b).value;
      && h.size <= U32_MAX
      && |Prefix(h.size)| <= h.start
      && (|Prefix(h.size)| == h.start ==> Prefix(h.size) == b[..h.start])
  {
    if b[0] == 255 {
      NetworkOfRead(b[1..]);
      assert b[..5] == [b[0]] + b[1..][..4];
    }
  }

  /** What the decoder accepts is never shorter than its encoding, and as long only if it is that encoding. */
  lemma {:induction false} ReencodingNotLonger(b: Bytes)
    requires Decoding(b).Some?
    ensures Encodable(Decoding(b).value)
    ensures |Encoding(Decoding(b).value)| <= |b|
    ensures |Encoding(Decoding(b).value)| == |b| <==> Encoding(Decoding(b).value) == b
    decreases |b|
  {
    if b != [] {
      var (part, rest) := Cut(b).value;
      ReencodingNotLonger(rest);
      CutPrefix(b);
      var parts := Decoding(rest).value;
      assert ([part] + parts)[1..] == parts;
      assert Encoding([part] + parts) == Prefix(|part|) + part + Encoding(parts);
    }
  }

  lemma CutPrefix(b: Bytes)
    requires b != [] && Cut(b).Some?
    ensures var (part, rest) := Cut(b).value;
      && |part| <= U32_MAX && |Prefix(|part|)| + |part| + |rest| <= |b|
      && (|Prefix(|part|)| + |part| + |rest| == |b| <==> Prefix(|part|) + part + rest == b)
  {
    PrefixNotLonger(b);
    var h := ReadHead(b).value;
    assert b == b[..h.start] + b[h.start..h.start + h.size] + b[h.start + h.size..];
  }

  lemma ShiftByte(q: nat, r: nat)
    requires r < 0x100
    ensures (q * 0x100 + r) / 0x100 == q && (q * 0x100 + r) % 0x100 == r
  {
  }

  lemma NetworkOfRead(b: Bytes)
    requires |b| >= 4
    ensures Network(ReadNetwork(b)) == b[..4]
  {
    var top := b[0] as nat * 0x100 + b[1] as nat;
    var mid := top * 0x100 + b[2] as nat;
    ShiftByte(mid, b[3] as nat);
    ShiftByte(top, b[2] as nat);
    ShiftByte(b[0] as nat, b[1] as nat);
  }

  // ---- joining multiparts

  class MultipartT {
    var parts: seq<Bytes>

    constructor (parts: seq<Bytes>)
      ensures this.parts == parts
    {
      this.parts := parts;
    }

    /** Concatenate `other` to the front, emptying it. */
    method Prepend(other: MultipartT)
      requires other != this
      modifies this, other
      ensures parts == old(other.parts) + old(parts) && other.parts == []
    {
      while other.parts != []
        invariant other.parts + parts == old(other.parts) + old(parts)
        decreases |other.parts|
      {
        var last := other.parts[|other.parts| - 1];
        assert other.parts == other.parts[..|other.parts| - 1] + [last];
        other.parts := other.parts[..|other.parts| - 1];
        parts := [last] + parts;
      }
    }

    /** Concatenate `other` to the back, emptying it. */
    method Append(other: MultipartT)
      requires other != this
      modifies this, other
      ensures parts == old(parts) + old(other.parts) && other.parts == []
    {
      while other.parts != []
        invariant parts + other.parts == old(parts) + old(other.parts)
        decreases |other.parts|
      {
        var first := other.parts[0];
        assert other.parts == [first] + other.parts[1..];
        other.parts := other.parts[1..];
        parts := parts + [first];
      }
    }
  }
}
