/** UTF-8 (RFC 3629), in which strings become the content of Data. */
module Utf8 {
  import opened Basics
  import OrderedMap

  /** A continuation octet: six bits of the code point. */
  function Tail(n: nat): (b: byte)
    ensures 0x80 <= b < 0xC0
  {
    (0x80 + n % 64) as byte
  }

  function EncodeChar(c: char): (octets: Bytes)
    ensures octets != []
  {
    var n := c as int;
    if n < 0x80 then [n as byte]
    else if n < 0x800 then [(0xC0 + n / 64) as byte, Tail(n)]
    else if n < 0x1_0000 then [(0xE0 + n / 4096) as byte, Tail(n / 64), Tail(n)]
    else [(0xF0 + n / 262144) as byte, Tail(n / 4096), Tail(n / 64), Tail(n)]
  }

  function Encode(s: string): Bytes {
    if s == [] then [] else EncodeChar(s[0]) + Encode(s[1..])
  }

  predicate IsTail(b: byte) {
    0x80 <= b < 0xC0
  }

  /** How many octets a character with this first octet has; 0 when it is not a first octet. */
  function CharSize(first: byte): nat {
    if first < 0x80 then 1
    else if first < 0xC0 then 0
    else if first < 0xE0 then 2
    else if first < 0xF0 then 3
    else if first < 0xF8 then 4
    else 0
  }

  /** The six bits of a continuation octet. */
  function Bits(b: byte): nat
    requires IsTail(b)
  {
    b as nat - 0x80
  }

  /** The code point of `size` octets. */
  function CodePoint(octets: Bytes, size: nat): nat
    requires 1 <= size <= 4 && |octets| >= size && CharSize(octets[0]) == size
    requires forall i :: 1 <= i < size ==> IsTail(octets[i])
  {
    var first := octets[0] as nat;
    if size == 1 then first
    else if size == 2 then (first - 0xC0) * 64 + Bits(octets[1])
    else if size == 3 then ((first - 0xE0) * 64 + Bits(octets[1])) * 64 + Bits(octets[2])
    else (((first - 0xF0) * 64 + Bits(octets[1])) * 64 + Bits(octets[2])) * 64 + Bits(octets[3])
  }

  predicate IsScalar(n: nat) {
    n < 0xD800 || 0xE000 <= n < 0x11_0000
  }

  function DecodeChar(octets: Bytes): Option<(char, nat)> {
    if octets == [] then None else
    var size := CharSize(octets[0]);
    if size == 0 || |octets| < size || !(forall i :: 1 <= i < size ==> IsTail(octets[i])) then None else
    var n := CodePoint(octets, size);
    if IsScalar(n) then Some((n as char, size)) else None
  }

  function Decode(octets: Bytes): Option<string>
    decreases |octets|
  {
    if octets == [] then Some([])
    else match DecodeChar(octets)
      case None => None
      case Some((c, size)) =>
        if size == 0 || size > |octets| then None else
        match Decode(octets[size..])
        case None => None
        case Some(rest) => Some([c] + rest)
  }

  lemma SixBits(n: nat)
    ensures n == n / 64 * 64 + n % 64
    ensures n / 64 / 64 == n / 4096 && n / 4096 / 64 == n / 262144
  {
  }

  lemma CodePointOfChar(c: char)
    ensures var octets := EncodeChar(c);
      && CharSize(octets[0]) == |octets|
      && (forall i :: 1 <= i < |octets| ==> IsTail(octets[i]))
      && CodePoint(octets, |octets|) == c as int
  {
    var n := c as int;
    SixBits(n);
    SixBits(n / 64);
    SixBits(n / 4096);
  }

  lemma CharRoundTrip(c: char, rest: Bytes)
    ensures DecodeChar(EncodeChar(c) + rest) == Some((c, |EncodeChar(c)|))
  {
    CodePointOfChar(c);
    var octets := EncodeChar(c) + rest;
    assert forall i :: 0 <= i < |EncodeChar(c)| ==> octets[i] == EncodeChar(c)[i];
  }

  /** Decoding gives back exactly the string that was encoded. */
  lemma {:induction false} RoundTrip(s: string)
    ensures Decode(Encode(s)) == Some(s)
    decreases |s|
  {
    if s != [] {
      CharRoundTrip(s[0], Encode(s[1..]));
      RoundTrip(s[1..]);
      assert (EncodeChar(s[0]) + Encode(s[1..]))[|EncodeChar(s[0])|..] == Encode(s[1..]);
      assert s == [s[0]] + s[1..];
    }
  }

  // ------------------------------------------------------------------- order

  /** Octet strings are ordered by the first octet in which they differ. */
  predicate Before(a: Bytes, b: Bytes)
    decreases |b|
  {
    b != [] && (a == [] || a[0] < b[0] || (a[0] == b[0] && Before(a[1..], b[1..])))
  }

  lemma {:induction false} BeforeAsymmetric(a: Bytes, b: Bytes)
    requires Before(a, b)
    ensures !Before(b, a)
    decreases |b|
  {
    if a != [] && a[0] == b[0] {
      BeforeAsymmetric(a[1..], b[1..]);
    }
  }

  lemma {:induction false} SamePrefix(p: Bytes, a: Bytes, b: Bytes)
    ensures Before(p + a, p + b) <==> Before(a, b)
    decreases |p|
  {
    if p == [] {
      assert p + a == a && p + b == b;
    } else {
      assert (p + a)[1..] == p[1..] + a && (p + b)[1..] == p[1..] + b;
      SamePrefix(p[1..], a, b);
    }
  }

  /** The first difference decides. */
  lemma {:induction false} DifferAt(a: Bytes, b: Bytes, i: nat)
    requires i < |a| && i < |b| && a[..i] == b[..i] && a[i] < b[i]
    ensures Before(a, b)
    decreases i
  {
    if i > 0 {
      assert a[0] == a[..i][0] == b[..i][0] == b[0];
      assert a[1..][..i - 1] == a[..i][1..] && b[1..][..i - 1] == b[..i][1..];
      DifferAt(a[1..], b[1..], i - 1);
    }
  }

  /** The forms of two characters first differ at octet `i`, in the characters' order. */
  predicate DifferFrom(c: char, d: char, i: nat) {
    var p, q := EncodeChar(c), EncodeChar(d);
    i < |p| && i < |q| && p[..i] == q[..i] && p[i] < q[i]
  }

  lemma TwoOctets(c: char, d: char) returns (i: nat)
    requires c < d && |EncodeChar(c)| == |EncodeChar(d)| == 2
    ensures DifferFrom(c, d, i)
  {
    var m, n := c as int, d as int;
    SixBits(m);
    SixBits(n);
    i := if m / 64 < n / 64 then 0 else 1;
  }

  lemma ThreeOctets(c: char, d: char) returns (i: nat)
    requires c < d && |EncodeChar(c)| == |EncodeChar(d)| == 3
    ensures DifferFrom(c, d, i)
  {
    var m, n := c as int, d as int;
    SixBits(m);
    SixBits(n);
    SixBits(m / 64);
    SixBits(n / 64);
    i := if m / 4096 < n / 4096 then 0 else if m / 64 < n / 64 then 1 else 2;
  }

  lemma FourOctets(c: char, d: char) returns (i: nat)
    requires c < d && |EncodeChar(c)| == |EncodeChar(d)| == 4
    ensures DifferFrom(c, d, i)
  {
    var m, n := c as int, d as int;
    SixBits(m);
    SixBits(n);
    SixBits(m / 64);
    SixBits(n / 64);
    SixBits(m / 4096);
    SixBits(n / 4096);
    i := if m / 262144 < n / 262144 then 0 else if m / 4096 < n / 4096 then 1 else if m / 64 < n / 64 then 2 else 3;
  }

  lemma FirstDifference(c: char, d: char) returns (i: nat)
    requires c < d
    ensures DifferFrom(c, d, i)
  {
    if |EncodeChar(c)| != |EncodeChar(d)| || |EncodeChar(c)| == 1 {
      i := 0;
    } else if |EncodeChar(c)| == 2 {
      i := TwoOctets(c, d);
    } else if |EncodeChar(c)| == 3 {
      i := ThreeOctets(c, d);
    } else {
      i := FourOctets(c, d);
    }
  }

  lemma CharBefore(c: char, d: char, a: Bytes, b: Bytes)
    requires c < d
    ensures Before(EncodeChar(c) + a, EncodeChar(d) + b)
  {
    var i := FirstDifference(c, d);
    var p, q := EncodeChar(c), EncodeChar(d);
    assert (p + a)[..i] == p[..i] && (q + b)[..i] == q[..i];
    DifferAt(p + a, q + b, i);
  }

  /** The keys of the maps are ordered as their octets are. */
  lemma {:induction false} SameOrder(a: string, b: string)
    ensures OrderedMap.Less(a, b) <==> Before(Encode(a), Encode(b))
    decreases |a|
  {
    if a != [] && b != [] {
      if a[0] == b[0] {
        SamePrefix(EncodeChar(a[0]), Encode(a[1..]), Encode(b[1..]));
        SameOrder(a[1..], b[1..]);
      } else if a[0] < b[0] {
        CharBefore(a[0], b[0], Encode(a[1..]), Encode(b[1..]));
      } else {
        CharBefore(b[0], a[0], Encode(b[1..]), Encode(a[1..]));
        BeforeAsymmetric(Encode(b), Encode(a));
      }
    }
  }
}
