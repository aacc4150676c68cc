/** The NDNts BLE fragmentation scheme (crates/ndn-boltffi/src/codec.rs).
  *
  * A packet longer than a frame is cut into fragments with a one-byte header; the reassembler
  * finds the end of the packet from the TLV header of what it has buffered.
  */
module NdntsCodec {
  import opened Basics

  // -------------------------------------------------------------- TLV parser

  /** The number with these octets, most significant first. */
  function BigEndian(octets: Bytes): nat {
    if octets == [] then 0 else BigEndian(octets[..|octets| - 1]) * 256 + octets[|octets| - 1] as nat
  }

  /** The length of a variable-size number whose first octet is `first`. */
  function NumberSize(first: byte): nat {
    if first <= 252 then 1 else if first == 253 then 3 else if first == 254 then 5 else 9
  }

  /** A decoded number and how many octets it took. */
  function ParseVarnumber(buf: Bytes): Option<(nat, nat)> {
    if buf == [] then None
    else if buf[0] <= 252 then Some((buf[0] as nat, 1))
    else if buf[0] == 253 && |buf| >= 3 then Some((BigEndian(buf[1..3]), 3))
    else if buf[0] == 254 && |buf| >= 5 then Some((BigEndian(buf[1..5]), 5))
    else if buf[0] == 255 && |buf| >= 9 then Some((BigEndian(buf[1..9]), 9))
    else None
  }

  /** Where the first packet in `buf` ends, if it is complete; `usize` arithmetic wraps. */
  function TlvPacketEnd(buf: Bytes): Option<nat> {
    match ParseVarnumber(buf)
    case None => None
    case Some((_, typeLen)) =>
      if typeLen > |buf| then None else
      match ParseVarnumber(buf[typeLen..])
      case None => None
      case Some((length, lengthLen)) =>
        var total := (typeLen + lengthLen + length) % U64;
        if |buf| >= total then Some(total) else None
  }

  /** The full size an element announces, without wrapping, once its header is readable. */
  function Announced(buf: Bytes): Option<nat> {
    match ParseVarnumber(buf)
    case None => None
    case Some((_, typeLen)) =>
      if typeLen > |buf| then None else
      match ParseVarnumber(buf[typeLen..])
      case None => None
      case Some((length, lengthLen)) => Some(typeLen + lengthLen + length)
  }

  /** Exactly one TLV element. */
  predicate IsElement(packet: Bytes) {
    Announced(packet) == Some(|packet|)
  }

  lemma ParseSize(buf: Bytes)
    ensures ParseVarnumber(buf).Some? <==> buf != [] && |buf| >= NumberSize(buf[0])
    ensures ParseVarnumber(buf).Some? ==> ParseVarnumber(buf).value.1 == NumberSize(buf[0])
  {
  }

  lemma TakeThenSlice(buf: Bytes, n: nat, k: nat)
    requires 1 <= k <= n <= |buf|
    ensures buf[..n][1..k] == buf[1..k]
  {
  }

  /** A number is read from its own octets only. */
  lemma ParsePrefix(buf: Bytes, n: nat)
    requires n <= |buf|
    ensures ParseVarnumber(buf[..n]).Some? ==> ParseVarnumber(buf[..n]) == ParseVarnumber(buf)
  {
    ParseSize(buf);
    ParseSize(buf[..n]);
    if ParseVarnumber(buf[..n]).Some? {
      TakeThenSlice(buf, n, NumberSize(buf[0]));
    }
  }

  lemma AnnouncedPrefix(buf: Bytes, n: nat)
    requires n <= |buf|
    ensures Announced(buf[..n]).Some? ==> Announced(buf[..n]) == Announced(buf)
  {
    ParsePrefix(buf, n);
    if ParseVarnumber(buf[..n]).Some? {
      var typeLen := ParseVarnumber(buf).value.1;
      if typeLen <= n {
        ParsePrefix(buf[typeLen..], n - typeLen);
        assert buf[..n][typeLen..] == buf[typeLen..][..n - typeLen];
      }
    }
  }

  lemma EndAnnounced(buf: Bytes)
    ensures TlvPacketEnd(buf).Some? <==> Announced(buf).Some? && Announced(buf).value % U64 <= |buf|
    ensures TlvPacketEnd(buf).Some? ==> TlvPacketEnd(buf).value == Announced(buf).value % U64
  {
  }

  lemma HeaderFits(buf: Bytes)
    requires Announced(buf).Some?
    ensures 2 <= Announced(buf).value
    ensures forall n :: Announced(buf).value <= n <= |buf| ==> Announced(buf[..n]) == Announced(buf)
  {
    ParseSize(buf);
    ParseSize(buf[ParseVarnumber(buf).value.1..]);
    forall n | Announced(buf).value <= n <= |buf| ensures Announced(buf[..n]) == Announced(buf) {
      HeaderWithin(buf, n);
    }
  }

  lemma HeaderWithin(buf: Bytes, n: nat)
    requires Announced(buf).Some? && Announced(buf).value <= n <= |buf|
    ensures Announced(buf[..n]) == Announced(buf)
  {
    var typeLen := ParseVarnumber(buf).value.1;
    NumberWithin(buf, n);
    NumberWithin(buf[typeLen..], n - typeLen);
    assert buf[..n][typeLen..] == buf[typeLen..][..n - typeLen];
  }

  lemma NumberWithin(buf: Bytes, n: nat)
    requires ParseVarnumber(buf).Some? && ParseVarnumber(buf).value.1 <= n <= |buf|
    ensures ParseVarnumber(buf[..n]) == ParseVarnumber(buf)
  {
    ParseSize(buf);
    ParseSize(buf[..n]);
    ParsePrefix(buf, n);
  }

  /** No strict prefix of a TLV element looks complete. */
  lemma StrictPrefixIncomplete(packet: Bytes, n: nat)
    requires IsElement(packet) && |packet| < U64 && n < |packet|
    ensures TlvPacketEnd(packet[..n]).None?
  {
    AnnouncedPrefix(packet, n);
    EndAnnounced(packet[..n]);
  }

  lemma ElementComplete(packet: Bytes)
    requires IsElement(packet) && |packet| < U64
    ensures TlvPacketEnd(packet) == Some(|packet|)
  {
    EndAnnounced(packet);
  }

  /** What the parser cuts off is exactly one TLV element, unless the announced size wrapped. */
  lemma EndIsElementExactly(buf: Bytes)
    requires |buf| < U64 && TlvPacketEnd(buf).Some?
    ensures IsElement(buf[..TlvPacketEnd(buf).value]) <==> Announced(buf).value < U64
  {
    EndAnnounced(buf);
    var end := TlvPacketEnd(buf).value;
    AnnouncedPrefix(buf, end);
    if Announced(buf).value < U64 {
      HeaderFits(buf);
    }
  }

  // ------------------------------------------- the encoding the parser inverts

  function Octets(n: nat, count: nat): (octets: Bytes)
    ensures |octets| == count
  {
    if count == 0 then [] else Octets(n / 256, count - 1) + [(n % 256) as byte]
  }

  function Pow256(count: nat): nat {
    if count == 0 then 1 else 256 * Pow256(count - 1)
  }

  lemma {:induction false} OctetsBigEndian(n: nat, count: nat)
    requires n < Pow256(count)
    ensures BigEndian(Octets(n, count)) == n
  {
    if count > 0 {
      OctetsBigEndian(n / 256, count - 1);
      assert Octets(n, count)[..count - 1] == Octets(n / 256, count - 1);
    }
  }

  /** The shortest form of a TLV number (NDN Packet Format Specification, "Variable Size Encoding for
    * Type and Length"). */
  function EncodeVarnumber(n: nat): (wire: Bytes)
    requires n < U64
    ensures wire != []
  {
    if n <= 252 then [n as byte]
    else if n < 0x1_0000 then [253] + Octets(n, 2)
    else if n < 0x1_0000_0000 then [254] + Octets(n, 4)
    else [255] + Octets(n, 8)
  }

  function EncodeElement(kind: nat, value: Bytes): Bytes
    requires kind < U64 && |value| < U64
  {
    EncodeVarnumber(kind) + EncodeVarnumber(|value|) + value
  }

  /** Every form of a number is read, the shortest or not. */
  lemma LongFormIsRead(n: nat, marker: byte, count: nat, rest: Bytes)
    requires n < Pow256(count) && (marker, count) in {(253, 2), (254, 4), (255, 8)}
    ensures ParseVarnumber([marker] + Octets(n, count) + rest) == Some((n, count + 1))
  {
    var wire := [marker] + Octets(n, count) + rest;
    OctetsBigEndian(n, count);
    assert wire[1..count + 1] == Octets(n, count);
  }

  lemma Powers()
    ensures Pow256(2) == 0x1_0000 && Pow256(4) == 0x1_0000_0000 && Pow256(8) == U64
  {
    assert Pow256(4) == 256 * Pow256(3) && Pow256(3) == 256 * Pow256(2) && Pow256(2) == 0x1_0000;
    assert Pow256(8) == 256 * Pow256(7) && Pow256(7) == 256 * Pow256(6);
    assert Pow256(6) == 256 * Pow256(5) && Pow256(5) == 256 * Pow256(4);
  }

  lemma VarnumberRoundTrip(n: nat, rest: Bytes)
    requires n < U64
    ensures ParseVarnumber(EncodeVarnumber(n) + rest) == Some((n, |EncodeVarnumber(n)|))
  {
    Powers();
    if 252 < n < 0x1_0000 {
      LongFormIsRead(n, 253, 2, rest);
    } else if 0x1_0000 <= n < 0x1_0000_0000 {
      LongFormIsRead(n, 254, 4, rest);
    } else if 0x1_0000_0000 <= n {
      LongFormIsRead(n, 255, 8, rest);
    }
  }

  lemma EncodedHeader(kind: nat, value: Bytes, rest: Bytes)
    requires kind < U64 && |value| < U64
    ensures Announced(EncodeVarnumber(kind) + (EncodeVarnumber(|value|) + rest))
      == Some(|EncodeVarnumber(kind)| + |EncodeVarnumber(|value|)| + |value|)
  {
    var t, l := EncodeVarnumber(kind), EncodeVarnumber(|value|);
    VarnumberRoundTrip(kind, l + rest);
    VarnumberRoundTrip(|value|, rest);
    assert (t + (l + rest))[|t|..] == l + rest;
  }

  /** A header whose size wraps is taken for a complete packet as soon as it is there, and what is cut off is a
    * piece of the header: for every type and every length within a header's size of 2^64. */
  lemma WrappedSizeCutsTheHeader(kind: nat, length: nat)
    requires kind < U64 && length < U64
    requires |EncodeVarnumber(kind)| + |EncodeVarnumber(length)| + length >= U64
    ensures var header := EncodeVarnumber(kind) + EncodeVarnumber(length);
      && TlvPacketEnd(header) == Some(|header| + length - U64)
      && |header| + length - U64 < |header| && !IsElement(header[..|header| + length - U64])
  {
    var t, l := EncodeVarnumber(kind), EncodeVarnumber(length);
    VarnumberRoundTrip(kind, l);
    VarnumberRoundTrip(length, []);
    assert l + [] == l && (t + l)[|t|..] == l;
    EndAnnounced(t + l);
    EndIsElementExactly(t + l);
  }

  /** Every element of the packet format is recognised, whatever follows it. */
  lemma EncodedElement(kind: nat, value: Bytes, rest: Bytes)
    requires kind < U64 && |value| < U64
    ensures IsElement(EncodeElement(kind, value))
    ensures Announced(EncodeElement(kind, value) + rest) == Some(|EncodeElement(kind, value)|)
  {
    var t, l := EncodeVarnumber(kind), EncodeVarnumber(|value|);
    EncodedHeader(kind, value, value);
    EncodedHeader(kind, value, value + rest);
    ConcatAssociative(t, l, value);
    ConcatAssociative(t + l, value, rest);
    ConcatAssociative(t, l, value + rest);
  }

  // -------------------------------------------------------------- fragmenter

  /** How much of the packet one fragment carries. */
  function FragmentSize(maxPayload: nat): nat {
    Max(Max(maxPayload - 1, 0), 1)
  }

  function Payloads(frames: seq<Bytes>): seq<Bytes>
    requires forall i :: 0 <= i < |frames| ==> frames[i] != []
  {
    seq(|frames|, i requires 0 <= i < |frames| => frames[i][1..])
  }

  /** Fragments of one packet: the headers count modulo 128 and mark the first, every payload but the last
    * is full and none is empty. */
  ghost predicate Fragmented(maxPayload: nat, frames: seq<Bytes>) {
    && (forall i :: 0 <= i < |frames| ==> 2 <= |frames[i]| <= FragmentSize(maxPayload) + 1)
    && (forall i :: 0 <= i < |frames| - 1 ==> |frames[i]| == FragmentSize(maxPayload) + 1)
    && (forall i :: 0 <= i < |frames| ==> frames[i][0] == (if i == 0 then 0x80 else (i % 128) as byte))
  }

  /** The frames that carry `packet`: the packet itself when it fits, else fragments whose payloads
    * concatenate to it. */
  ghost predicate Framed(packet: Bytes, maxPayload: nat, frames: seq<Bytes>) {
    if |packet| <= maxPayload then frames == [packet]
    else Fragmented(maxPayload, frames) && Flatten(Payloads(frames)) == packet
  }

  lemma PayloadsSnoc(frames: seq<Bytes>, frame: Bytes)
    requires forall i :: 0 <= i < |frames| ==> frames[i] != []
    requires frame != []
    ensures Flatten(Payloads(frames + [frame])) == Flatten(Payloads(frames)) + frame[1..]
  {
    assert Payloads(frames + [frame]) == Payloads(frames) + [frame[1..]];
    FlattenSnoc(Payloads(frames), frame[1..]);
  }

  lemma FragmentedSnoc(maxPayload: nat, frames: seq<Bytes>, frame: Bytes)
    requires Fragmented(maxPayload, frames)
    requires forall i :: 0 <= i < |frames| ==> |frames[i]| == FragmentSize(maxPayload) + 1
    requires 2 <= |frame| <= FragmentSize(maxPayload) + 1
    requires frame[0] == if frames == [] then 0x80 else (|frames| % 128) as byte
    ensures Fragmented(maxPayload, frames + [frame])
  {
  }

  /** The first `offset` octets are cut into fragments, all full while more octets follow. */
  ghost predicate CutUpTo(packet: Bytes, maxPayload: nat, frames: seq<Bytes>, offset: nat) {
    && offset <= |packet|
    && Fragmented(maxPayload, frames)
    && (offset < |packet| ==> forall i :: 0 <= i < |frames| ==> |frames[i]| == FragmentSize(maxPayload) + 1)
    && Flatten(Payloads(frames)) == packet[..offset]
  }

  lemma CutOneMore(packet: Bytes, maxPayload: nat, frames: seq<Bytes>, offset: nat, header: byte)
    requires CutUpTo(packet, maxPayload, frames, offset) && offset < |packet|
    requires header == if frames == [] then 0x80 else (|frames| % 128) as byte
    ensures var end := Min(offset + FragmentSize(maxPayload), |packet|);
      CutUpTo(packet, maxPayload, frames + [[header] + packet[offset..end]], end)
  {
    var end := Min(offset + FragmentSize(maxPayload), |packet|);
    var frag := [header] + packet[offset..end];
    PayloadsSnoc(frames, frag);
    FragmentedSnoc(maxPayload, frames, frag);
    assert packet[..end] == packet[..offset] + packet[offset..end];
  }

  lemma CountModulo(n: nat)
    ensures (n % 128 + 1) % 128 == (n + 1) % 128
  {
  }

  method NdntsFrame(packet: Bytes, maxPayload: nat) returns (out: seq<Bytes>)
    ensures Framed(packet, maxPayload, out)
    ensures forall i :: 0 <= i < |out| - 1 ==> |out[i]| == Max(maxPayload, 2)
  {
    if |packet| <= maxPayload {
      return [packet];
    }
    var fragPayload := Max(Max(maxPayload - 1, 0), 1);
    out := [];
    var offset, number, isFirst := 0, 0, true;
    while offset < |packet|
      invariant CutUpTo(packet, maxPayload, out, offset)
      invariant (isFirst <==> out == []) && number == |out| % 128
    {
      var end := Min(offset + fragPayload, |packet|);
      var header := (if isFirst then 0x80 + number else number) as byte;
      CutOneMore(packet, maxPayload, out, offset, header);
      CountModulo(|out|);
      isFirst := false;
      number := (number + 1) % 128;
      out := out + [[header] + packet[offset..end]];
      offset := end;
    }
    assert packet[..offset] == packet;
  }

  /** The frames respect the link's payload size exactly when there is room for a header and an octet, or
    * the packet needs no header. */
  lemma FramesFitExactly(packet: Bytes, maxPayload: nat, frames: seq<Bytes>)
    requires packet != [] && Framed(packet, maxPayload, frames)
    ensures (forall i :: 0 <= i < |frames| ==> |frames[i]| <= maxPayload) <==> maxPayload >= 2 || |packet| <= maxPayload
  {
    if |packet| > maxPayload {
      assert frames != [];
      assert |frames[0]| >= 2;
    }
  }

  // ------------------------------------------------------------- reassembler

  datatype Reassembly = Reassembly(buffer: Bytes, active: bool)

  const IDLE := Reassembly([], false)

  /** The buffer a fragment leads to, or None when the fragment is passed through as it is. */
  function Absorb(st: Reassembly, fragment: Bytes): Option<Bytes>
    requires fragment != []
  {
    if fragment[0] >= 0x80 then Some(fragment[1..])
    else if st.active then Some(st.buffer + fragment[1..])
    else None
  }

  /** The state after a fragment, and the packet it completes. */
  function FeedNext(st: Reassembly, fragment: Bytes): (Reassembly, Option<Bytes>) {
    if fragment == [] then (st, None)
    else match Absorb(st, fragment)
    case None => (st, Some(fragment))
    case Some(buffer) =>
      match TlvPacketEnd(buffer)
      case None => (Reassembly(buffer, true), None)
      case Some(end) => (Reassembly(buffer[end..], buffer[end..] != []), Some(buffer[..end]))
  }

  /** The state after a list of fragments. */
  function FeedAll(st: Reassembly, fragments: seq<Bytes>): Reassembly
    decreases |fragments|
  {
    if fragments == [] then st else FeedAll(FeedNext(st, fragments[0]).0, fragments[1..])
  }

  function Emitted(got: Option<Bytes>): seq<Bytes> {
    match got case Some(packet) => [packet] case None => []
  }

  /** The packets a list of fragments completes. */
  function Outputs(st: Reassembly, fragments: seq<Bytes>): seq<Bytes>
    decreases |fragments|
  {
    if fragments == [] then []
    else Emitted(FeedNext(st, fragments[0]).1) + Outputs(FeedNext(st, fragments[0]).0, fragments[1..])
  }

  lemma FeedFirst(st: Reassembly, fragments: seq<Bytes>)
    requires fragments != []
    ensures FeedAll(st, fragments) == FeedAll(FeedNext(st, fragments[0]).0, fragments[1..])
    ensures Outputs(st, fragments)
      == Emitted(FeedNext(st, fragments[0]).1) + Outputs(FeedNext(st, fragments[0]).0, fragments[1..])
  {
  }

  lemma {:induction false} FeedAllAppend(st: Reassembly, a: seq<Bytes>, b: seq<Bytes>)
    ensures FeedAll(st, a + b) == FeedAll(FeedAll(st, a), b)
    ensures Outputs(st, a + b) == Outputs(st, a) + Outputs(FeedAll(st, a), b)
    decreases |a|
  {
    if a == [] {
      assert a + b == b;
    } else {
      var next, got := FeedNext(st, a[0]).0, Emitted(FeedNext(st, a[0]).1);
      FeedFirst(st, a);
      FeedFirst(st, a + b);
      assert (a + b)[1..] == a[1..] + b && (a + b)[0] == a[0];
      FeedAllAppend(next, a[1..], b);
      ConcatAssociative(got, Outputs(next, a[1..]), Outputs(FeedAll(st, a), b));
    }
  }

  lemma FeedOne(st: Reassembly, fragment: Bytes)
    ensures FeedAll(st, [fragment]) == FeedNext(st, fragment).0
    ensures Outputs(st, [fragment]) == Emitted(FeedNext(st, fragment).1)
  {
    assert [fragment][1..] == [];
  }

  /** A reassembler together with what it absorbed since the last start fragment, and what it cut off. */
  datatype Trace = Trace(st: Reassembly, absorbed: seq<Bytes>, emitted: seq<Bytes>)

  function TraceNext(t: Trace, fragment: Bytes): Trace {
    var (st, got) := FeedNext(t.st, fragment);
    if fragment == [] || Absorb(t.st, fragment).None? then t
    else if fragment[0] >= 0x80 then Trace(st, [fragment[1..]], Emitted(got))
    else Trace(st, t.absorbed + [fragment[1..]], t.emitted + Emitted(got))
  }

  function TraceAll(t: Trace, fragments: seq<Bytes>): Trace
    decreases |fragments|
  {
    if fragments == [] then t else TraceAll(TraceNext(t, fragments[0]), fragments[1..])
  }

  /** No byte is lost, duplicated or reordered between the fragments and the packets. */
  ghost predicate BytesConserved(t: Trace) {
    && Flatten(t.emitted) + t.st.buffer == Flatten(t.absorbed)
    && (!t.st.active ==> t.st.buffer == [])
  }

  ghost predicate AllElements(packets: seq<Bytes>) {
    forall i :: 0 <= i < |packets| ==> IsElement(packets[i])
  }

  /** The buffer a fragment leads to is a buffer of the machine, and announces no size beyond it. */
  ghost predicate SizesFit(t: Trace, fragment: Bytes) {
    fragment != [] && Absorb(t.st, fragment).Some? ==>
      var buffer := Absorb(t.st, fragment).value;
      |buffer| < U64 && (Announced(buffer).Some? ==> Announced(buffer).value < U64)
  }

  ghost predicate AllSizesFit(t: Trace, fragments: seq<Bytes>)
    decreases |fragments|
  {
    fragments == [] || (SizesFit(t, fragments[0]) && AllSizesFit(TraceNext(t, fragments[0]), fragments[1..]))
  }

  /** Cutting a packet off the buffer moves bytes and loses none. */
  lemma CutConserves(emitted: seq<Bytes>, buffer: Bytes, end: nat)
    requires end <= |buffer|
    ensures Flatten(emitted + [buffer[..end]]) + buffer[end..] == Flatten(emitted) + buffer
  {
    FlattenSnoc(emitted, buffer[..end]);
    ConcatAssociative(Flatten(emitted), buffer[..end], buffer[end..]);
    assert buffer == buffer[..end] + buffer[end..];
  }

  /** What is buffered after a fragment, with the packets emitted before it since its start fragment. */
  ghost predicate Absorbed(t: Trace, fragment: Bytes, emitted: seq<Bytes>, buffer: Bytes) {
    && fragment != [] && Absorb(t.st, fragment) == Some(buffer)
    && emitted == if fragment[0] >= 0x80 then [] else t.emitted
  }

  lemma TraceWaits(t: Trace, fragment: Bytes, emitted: seq<Bytes>, buffer: Bytes)
    requires BytesConserved(t) && Absorbed(t, fragment, emitted, buffer) && TlvPacketEnd(buffer).None?
    ensures BytesConserved(TraceNext(t, fragment)) && TraceNext(t, fragment).emitted == emitted
  {
    AbsorbConserves(t, fragment);
    assert emitted + [] == emitted;
  }

  lemma TraceCuts(t: Trace, fragment: Bytes, emitted: seq<Bytes>, buffer: Bytes, end: nat)
    requires BytesConserved(t) && Absorbed(t, fragment, emitted, buffer) && TlvPacketEnd(buffer) == Some(end)
    ensures end <= |buffer|
    ensures BytesConserved(TraceNext(t, fragment)) && TraceNext(t, fragment).emitted == emitted + [buffer[..end]]
  {
    AbsorbConserves(t, fragment);
    CutConserves(emitted, buffer, end);
    assert [] + [buffer[..end]] == [buffer[..end]];
  }

  lemma CutIsElement(buffer: Bytes, end: nat)
    requires |buffer| < U64 && TlvPacketEnd(buffer) == Some(end)
    requires Announced(buffer).Some? && Announced(buffer).value < U64
    ensures end <= |buffer| && IsElement(buffer[..end])
  {
    EndAnnounced(buffer);
    EndIsElementExactly(buffer);
  }

  lemma TraceStep(t: Trace, fragment: Bytes)
    requires BytesConserved(t)
    ensures BytesConserved(TraceNext(t, fragment))
    ensures AllElements(t.emitted) && SizesFit(t, fragment) ==> AllElements(TraceNext(t, fragment).emitted)
  {
    if fragment != [] && Absorb(t.st, fragment).Some? {
      var buffer := Absorb(t.st, fragment).value;
      var emitted := if fragment[0] >= 0x80 then [] else t.emitted;
      var end := TlvPacketEnd(buffer);
      if end.Some? {
        TraceCuts(t, fragment, emitted, buffer, end.value);
        if SizesFit(t, fragment) {
          EndAnnounced(buffer);
          CutIsElement(buffer, end.value);
        }
      } else {
        TraceWaits(t, fragment, emitted, buffer);
      }
    }
  }

  lemma AbsorbConserves(t: Trace, fragment: Bytes)
    requires BytesConserved(t) && fragment != [] && Absorb(t.st, fragment).Some?
    ensures Flatten(if fragment[0] >= 0x80 then [] else t.emitted) + Absorb(t.st, fragment).value
      == Flatten(TraceNext(t, fragment).absorbed)
  {
    if fragment[0] >= 0x80 {
      FlattenSnoc([], fragment[1..]);
      assert [] + [fragment[1..]] == [fragment[1..]];
    } else {
      FlattenSnoc(t.absorbed, fragment[1..]);
      ConcatAssociative(Flatten(t.emitted), t.st.buffer, fragment[1..]);
    }
  }

  /** Byte conservation over every sequence of fragments: the packets cut off since the last start fragment,
    * followed by what is still buffered, are the fragments' payloads; every packet cut off is exactly one
    * TLV element as long as no announced size wraps; an inactive reassembler has nothing buffered. */
  lemma {:induction false} BytesConservedAlways(t: Trace, fragments: seq<Bytes>)
    requires BytesConserved(t)
    ensures BytesConserved(TraceAll(t, fragments))
    ensures AllElements(t.emitted) && AllSizesFit(t, fragments) ==> AllElements(TraceAll(t, fragments).emitted)
    decreases |fragments|
  {
    if fragments != [] {
      TraceStep(t, fragments[0]);
      BytesConservedAlways(TraceNext(t, fragments[0]), fragments[1..]);
    }
  }

  /** `NdntsReassembler`; the ghost fields record what was absorbed and emitted since the last start fragment. */
  class NdntsReassembler {
    var buffer: Bytes
    var active: bool
    ghost var absorbed: seq<Bytes>
    ghost var emitted: seq<Bytes>

    function View(): Reassembly
      reads this
    {
      Reassembly(buffer, active)
    }

    ghost function History(): Trace
      reads this
    {
      Trace(View(), absorbed, emitted)
    }

    ghost predicate Valid()
      reads this
    {
      BytesConserved(History())
    }

    constructor ()
      ensures Valid() && History() == Trace(IDLE, [], [])
    {
      buffer, active, absorbed, emitted := [], false, [], [];
    }

    method Feed(fragment: Bytes) returns (got: Option<Bytes>)
      requires Valid()
      modifies this
      ensures Valid()
      ensures got == FeedNext(old(View()), fragment).1
      ensures History() == TraceNext(old(History()), fragment)
    {
      TraceStep(History(), fragment);
      ghost var after := TraceNext(History(), fragment);
      if fragment == [] {
        return None;
      }
      if fragment[0] >= 0x80 {
        buffer := fragment[1..];
        active := true;
      } else if active {
        buffer := buffer + fragment[1..];
      } else {
        return Some(fragment);
      }
      absorbed, emitted := after.absorbed, after.emitted;
      var end := TlvPacketEnd(buffer);
      if end.None? {
        return None;
      }
      var packet := buffer[..end.value];
      buffer := buffer[end.value..];
      if buffer == [] {
        active := false;
      }
      return Some(packet);
    }

    method Reset()
      modifies this
      ensures Valid() && History() == Trace(IDLE, [], [])
    {
      buffer, active, absorbed, emitted := [], false, [], [];
    }
  }

  // ------------------------------------------------------------------ results

  ghost predicate Continuations(frames: seq<Bytes>) {
    forall i :: 0 <= i < |frames| ==> |frames[i]| >= 2 && frames[i][0] < 0x80
  }

  lemma FlattenHead(frames: seq<Bytes>)
    requires frames != [] && forall i :: 0 <= i < |frames| ==> |frames[i]| >= 2
    ensures Flatten(Payloads(frames)) == frames[0][1..] + Flatten(Payloads(frames[1..]))
    ensures Flatten(Payloads(frames)) != []
  {
    assert Payloads(frames)[1..] == Payloads(frames[1..]);
  }

  /** Continuation fragments that do not reach the end of the packet are buffered, and complete nothing. */
  lemma {:induction false} ContinuationsBuffered(packet: Bytes, head: Bytes, frames: seq<Bytes>)
    requires IsElement(packet) && |packet| < U64 && Continuations(frames)
    requires head + Flatten(Payloads(frames)) < packet
    ensures Outputs(Reassembly(head, true), frames) == []
    ensures FeedAll(Reassembly(head, true), frames) == Reassembly(head + Flatten(Payloads(frames)), true)
    decreases |frames|
  {
    if frames == [] {
      assert head + [] == head;
    } else {
      var next := head + frames[0][1..];
      FlattenHead(frames);
      assert head + Flatten(Payloads(frames)) == next + Flatten(Payloads(frames[1..]));
      assert packet[..|next|] == next;
      StrictPrefixIncomplete(packet, |next|);
      ContinuationsBuffered(packet, next, frames[1..]);
    }
  }

  /** The fragments of a packet before the last carry a strict, non-empty prefix of it. */
  lemma FragmentsBeforeLast(packet: Bytes, frames: seq<Bytes>, n: nat)
    requires forall i :: 0 <= i < |frames| ==> |frames[i]| >= 2
    requires Flatten(Payloads(frames)) == packet && 0 < n < |frames|
    ensures frames[0][1..] + Flatten(Payloads(frames[1..n])) < packet
    ensures packet == frames[0][1..] + Flatten(Payloads(frames[1..n])) + Flatten(Payloads(frames[n..]))
  {
    var head := frames[..n];
    assert frames == head + frames[n..];
    assert Payloads(frames) == Payloads(head) + Payloads(frames[n..]);
    FlattenAppend(Payloads(head), Payloads(frames[n..]));
    FlattenHead(head);
    assert head[1..] == frames[1..n];
    FlattenHead(frames[n..]);
  }

  /** The first `n` frames of a fragmented packet, from any state: nothing is completed yet. */
  lemma FragmentsBuffered(st: Reassembly, packet: Bytes, maxPayload: nat, frames: seq<Bytes>, n: nat)
    requires IsElement(packet) && maxPayload < |packet| < U64 && Framed(packet, maxPayload, frames) && 0 < n < |frames|
    ensures Outputs(st, frames[..n]) == []
    ensures FeedAll(st, frames[..n]) == Reassembly(frames[0][1..] + Flatten(Payloads(frames[1..n])), true)
  {
    FragmentsBeforeLast(packet, frames, n);
    var first := frames[0][1..];
    assert packet[..|first|] == first;
    StrictPrefixIncomplete(packet, |first|);
    assert FeedNext(st, frames[0]) == (Reassembly(first, true), None);
    assert frames[..n][1..] == frames[1..n];
    assert Continuations(frames[1..n]);
    ContinuationsBuffered(packet, first, frames[1..n]);
  }

  lemma SeveralFragments(packet: Bytes, maxPayload: nat, frames: seq<Bytes>)
    requires IsElement(packet) && maxPayload < |packet| && Framed(packet, maxPayload, frames)
    ensures |frames| >= 2
  {
    HeaderFits(packet);
    if |frames| == 1 {
      FlattenHead(frames);
    }
  }

  /** Resynchronisation: whatever fragments came before, the frames of a fragmented packet yield nothing
    * until the last of them and exactly the packet then, and leave the reassembler idle. */
  lemma Resynchronises(st: Reassembly, packet: Bytes, maxPayload: nat, frames: seq<Bytes>)
    requires IsElement(packet) && maxPayload < |packet| < U64 && Framed(packet, maxPayload, frames)
    ensures Outputs(st, frames) == [packet] && FeedAll(st, frames) == IDLE
    ensures forall n :: 0 <= n < |frames| ==> Outputs(st, frames[..n]) == []
  {
    SeveralFragments(packet, maxPayload, frames);
    forall n | 0 <= n < |frames| ensures Outputs(st, frames[..n]) == [] {
      if n > 0 {
        FragmentsBuffered(st, packet, maxPayload, frames, n);
      }
    }
    var m := |frames| - 1;
    var last := frames[m];
    FragmentsBuffered(st, packet, maxPayload, frames, m);
    FragmentsBeforeLast(packet, frames, m);
    FlattenHead(frames[m..]);
    assert frames[m..][1..] == [];
    var mid := FeedAll(st, frames[..m]);
    assert mid.buffer + last[1..] == packet;
    ElementComplete(packet);
    assert packet[..|packet|] == packet && packet[|packet|..] == [];
    assert Absorb(mid, last) == Some(packet);
    FeedOne(mid, last);
    assert frames == frames[..m] + [last];
    FeedAllAppend(st, frames[..m], [last]);
  }

  /** One packet survives framing and reassembly exactly when it is fragmented or its first octet does not
    * look like a fragment header. */
  lemma PacketRoundTripExactly(packet: Bytes, maxPayload: nat, frames: seq<Bytes>)
    requires IsElement(packet) && |packet| < U64 && Framed(packet, maxPayload, frames)
    ensures Outputs(IDLE, frames) == [packet] <==> |packet| > maxPayload || packet[0] < 0x80
    ensures Outputs(IDLE, frames) == [packet] ==> FeedAll(IDLE, frames) == IDLE
  {
    HeaderFits(packet);
    if |packet| > maxPayload {
      Resynchronises(IDLE, packet, maxPayload, frames);
    } else {
      FeedOne(IDLE, packet);
      var got := FeedNext(IDLE, packet).1;
      if packet[0] >= 0x80 && got.Some? {
        assert |got.value| < |packet|;
      }
    }
  }

  /** Stream round trip: the frames of any packets whose first octet is below 0x80, sent one packet after
    * another over any link, give back exactly those packets, with the reassembler idle after each. */
  lemma {:induction false} StreamRoundTrip(packets: seq<Bytes>, maxPayload: nat, frames: seq<seq<Bytes>>)
    requires |frames| == |packets|
    requires forall i :: 0 <= i < |packets| ==>
      IsElement(packets[i]) && |packets[i]| < U64 && packets[i][0] < 0x80 && Framed(packets[i], maxPayload, frames[i])
    ensures Outputs(IDLE, Flatten(frames)) == packets
    ensures forall n :: 0 <= n <= |packets| ==> FeedAll(IDLE, Flatten(frames[..n])) == IDLE
    decreases |packets|
  {
    if packets == [] {
      assert frames[..0] == [];
    } else {
      PacketRoundTripExactly(packets[0], maxPayload, frames[0]);
      StreamRoundTrip(packets[1..], maxPayload, frames[1..]);
      FeedAllAppend(IDLE, frames[0], Flatten(frames[1..]));
      forall n | 0 < n <= |packets| ensures FeedAll(IDLE, Flatten(frames[..n])) == IDLE {
        assert frames[..n][1..] == frames[1..][..n - 1];
        FeedAllAppend(IDLE, frames[0], Flatten(frames[1..][..n - 1]));
      }
      assert frames[..0] == [];
    }
  }
}
