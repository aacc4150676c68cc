/** IPv4 addresses as text, and the string test that takes two of them to be on one access point
  * (crates/ndn-boltffi/src/engine.rs, `same_subnet24`).
  */
module DottedQuad {
  import opened Basics
  import opened Json

  datatype Quad = Quad(a: nat, b: nat, c: nat, d: nat) {
    predicate Valid() {
      a < 256 && b < 256 && c < 256 && d < 256
    }

    /** The 32-bit address. */
    function Address(): nat {
      ((a * 256 + b) * 256 + c) * 256 + d
    }

    function Network(): string {
      Decimal(a) + ("." + (Decimal(b) + ("." + Decimal(c))))
    }

    function Text(): string {
      Decimal(a) + ("." + (Decimal(b) + ("." + (Decimal(c) + ("." + Decimal(d))))))
    }
  }

  /** One to three digits, no leading zero, at most 255. */
  function ReadOctet(s: string): (r: Option<(nat, string)>) {
    var (n, rest) := ParseDigits(s, 0);
    var count := |s| - |rest|;
    if count == 0 || count > 3 || (s[0] == '0' && count > 1) || n > 255 then None else Some((n, rest))
  }

  function ReadDot(s: string): Option<string> {
    if s != [] && s[0] == '.' then Some(s[1..]) else None
  }

  /** An octet and the dot behind it. */
  function ReadPart(s: string): Option<(nat, string)> {
    match ReadOctet(s)
    case None => None
    case Some((n, rest)) =>
      match ReadDot(rest)
      case None => None
      case Some(after) => Some((n, after))
  }

  /** The address parser: four octets and nothing after them. */
  function Parse(s: string): (r: Option<Quad>) {
    match ReadPart(s)
    case None => None
    case Some((a, s1)) =>
      match ReadPart(s1)
      case None => None
      case Some((b, s2)) =>
        match ReadPart(s2)
        case None => None
        case Some((c, s3)) =>
          match ReadOctet(s3)
          case None => None
          case Some((d, s4)) => if s4 == [] then Some(Quad(a, b, c, d)) else None
  }

  // ------------------------------------------------- the text of an address

  lemma OctetText(n: nat)
    requires n < 256
    ensures |Decimal(n)| <= 3 && (Decimal(n)[0] == '0' ==> |Decimal(n)| == 1)
  {
    if n >= 10 {
      assert Decimal(n) == Decimal(n / 10) + [Digit(n % 10)];
      if n / 10 >= 10 {
        assert Decimal(n / 10) == Decimal(n / 100) + [Digit(n / 10 % 10)] by { assert n / 10 / 10 == n / 100; }
      }
    }
  }

  lemma OctetRoundTrip(n: nat, rest: string)
    requires n < 256 && EndsNumber(rest)
    ensures ReadOctet(Decimal(n) + rest) == Some((n, rest))
  {
    OctetText(n);
    DecimalRoundTrip(n, rest);
  }

  lemma PartRoundTrip(n: nat, rest: string)
    requires n < 256
    ensures ReadPart(Decimal(n) + ("." + rest)) == Some((n, rest))
  {
    OctetRoundTrip(n, "." + rest);
    assert ("." + rest)[1..] == rest;
  }

  /** What `ParseDigits` leaves is a suffix; what it took are digits. */
  lemma {:induction false} DigitsTaken(s: string, read: nat)
    ensures var (n, rest) := ParseDigits(s, read);
      && EndsNumber(rest) && s == s[..|s| - |rest|] + rest
      && (forall i :: 0 <= i < |s| - |rest| ==> IsDigit(s[i]))
      && (n, []) == ParseDigits(s[..|s| - |rest|], read)
    decreases |s|
  {
    if s != [] && IsDigit(s[0]) {
      DigitsTaken(s[1..], read * 10 + DigitValue(s[0]));
      var rest := ParseDigits(s, read).1;
      var taken := s[..|s| - |rest|];
      assert taken[1..] == s[1..][..|s[1..]| - |rest|];
      assert taken == [s[0]] + taken[1..];
    }
  }

  /** Digits without a leading zero are the decimal form of their value. */
  lemma {:induction false} DigitsAreDecimal(t: string)
    requires t != [] && (forall i :: 0 <= i < |t| ==> IsDigit(t[i])) && (t[0] == '0' ==> |t| == 1)
    ensures t == Decimal(ParseDigits(t, 0).0)
    decreases |t|
  {
    var init, c := t[..|t| - 1], t[|t| - 1];
    DigitOfValue(c);
    assert t == init + [c];
    ParseDigitsAppend(init, [c], 0);
    var v := ParseDigits(init, 0).0;
    assert ParseDigits([c], v) == ParseDigits([c][1..], v * 10 + DigitValue(c));
    if init == [] {
      assert v == 0;
    } else {
      DigitsAreDecimal(init);
      assert Decimal(0)[0] == '0';
      LastDigit(v, DigitValue(c));
    }
  }

  lemma LastDigit(v: nat, d: nat)
    requires v > 0 && d < 10
    ensures Decimal(v * 10 + d) == Decimal(v) + [Digit(d)]
  {
    assert (v * 10 + d) / 10 == v && (v * 10 + d) % 10 == d;
  }

  lemma DigitOfValue(c: char)
    requires IsDigit(c)
    ensures DigitValue(c) < 10 && Digit(DigitValue(c)) == c && (c != '0' ==> DigitValue(c) > 0)
  {
    var v := DigitValue(c);
    assert v == 0 || v == 1 || v == 2 || v == 3 || v == 4 || v == 5 || v == 6 || v == 7 || v == 8 || v == 9;
  }

  lemma OctetRead(s: string)
    requires ReadOctet(s).Some?
    ensures var (n, rest) := ReadOctet(s).value; n < 256 && s == Decimal(n) + rest
  {
    DigitsTaken(s, 0);
    var rest := ParseDigits(s, 0).1;
    var taken := s[..|s| - |rest|];
    assert taken[0] == s[0];
    DigitsAreDecimal(taken);
  }

  lemma PartRead(s: string)
    requires ReadPart(s).Some?
    ensures var (n, rest) := ReadPart(s).value; n < 256 && s == Decimal(n) + ("." + rest)
  {
    OctetRead(s);
    var rest := ReadOctet(s).value.1;
    assert rest == "." + rest[1..];
  }

  lemma ParseText(q: Quad)
    requires q.Valid()
    ensures Parse(q.Text()) == Some(q)
  {
    PartRoundTrip(q.a, Decimal(q.b) + ("." + (Decimal(q.c) + ("." + Decimal(q.d)))));
    PartRoundTrip(q.b, Decimal(q.c) + ("." + Decimal(q.d)));
    PartRoundTrip(q.c, Decimal(q.d));
    OctetRoundTrip(q.d, []);
    assert Decimal(q.d) + [] == Decimal(q.d);
  }

  lemma ParsedIsText(s: string)
    requires Parse(s).Some?
    ensures Parse(s).value.Valid() && s == Parse(s).value.Text()
  {
    var s1 := ReadPart(s).value.1;
    var s2 := ReadPart(s1).value.1;
    var s3 := ReadPart(s2).value.1;
    PartRead(s);
    PartRead(s1);
    PartRead(s2);
    OctetRead(s3);
    var d := ReadOctet(s3).value.0;
    assert Decimal(d) + [] == Decimal(d);
  }

  /** A text is accepted exactly when it is the canonical form of an address, and then as that address. */
  lemma ParseExactly(s: string, q: Quad)
    ensures Parse(s) == Some(q) <==> q.Valid() && s == q.Text()
  {
    if Parse(s) == Some(q) {
      ParsedIsText(s);
    } else if q.Valid() && s == q.Text() {
      ParseText(q);
    }
  }

  // ------------------------------------------------------- the subnet test

  /** What stands before the last dot. */
  function BeforeLastDot(s: string): Option<string> {
    if s == [] then None
    else if s[|s| - 1] == '.' then Some(s[..|s| - 1])
    else BeforeLastDot(s[..|s| - 1])
  }

  predicate SameSubnet24(a: string, b: string) {
    BeforeLastDot(a).Some? && BeforeLastDot(b).Some? && BeforeLastDot(a).value == BeforeLastDot(b).value
  }

  predicate NoDot(s: string) {
    forall i :: 0 <= i < |s| ==> s[i] != '.'
  }

  lemma {:induction false} DotBeforeHost(net: string, host: string)
    requires NoDot(host)
    ensures BeforeLastDot(net + ("." + host)) == Some(net)
    decreases |host|
  {
    var s := net + ("." + host);
    if host == [] {
      assert s[..|s| - 1] == net;
    } else {
      var shorter := host[..|host| - 1];
      DotBeforeHost(net, shorter);
      assert s[..|s| - 1] == net + ("." + shorter);
    }
  }

  lemma {:induction false} SplitAtLastDot(s: string) returns (host: string)
    requires BeforeLastDot(s).Some?
    ensures s == BeforeLastDot(s).value + ("." + host) && NoDot(host)
    decreases |s|
  {
    var shorter, last := s[..|s| - 1], s[|s| - 1];
    assert s == shorter + [last];
    if last == '.' {
      host := [];
    } else {
      var net := BeforeLastDot(s).value;
      var h := SplitAtLastDot(shorter);
      host := h + [last];
      ConcatAssociative(net, "." + h, [last]);
      ConcatAssociative(".", h, [last]);
    }
  }

  lemma NetworkOfText(q: Quad)
    ensures BeforeLastDot(q.Text()) == Some(q.Network())
  {
    assert q.Text() == q.Network() + ("." + Decimal(q.d));
    DotBeforeHost(q.Network(), Decimal(q.d));
  }

  lemma NetworkInjective(p: Quad, q: Quad)
    requires p.Valid() && q.Valid() && p.Network() == q.Network()
    ensures p.a == q.a && p.b == q.b && p.c == q.c
  {
    var p0, q0 := p.(d := 0), q.(d := 0);
    assert p0.Text() == p.Network() + ("." + Decimal(0));
    assert q0.Text() == q.Network() + ("." + Decimal(0));
    ParseText(p0);
    ParseText(q0);
  }

  lemma UpperBits(q: Quad)
    requires q.Valid()
    ensures q.Address() / 256 == (q.a * 256 + q.b) * 256 + q.c
  {
  }

  /** On addresses in canonical form the string test is the numeric one: the upper 24 bits agree. */
  lemma SameSubnetNumerically(p: Quad, q: Quad)
    requires p.Valid() && q.Valid()
    ensures SameSubnet24(p.Text(), q.Text()) <==> p.Address() / 256 == q.Address() / 256
  {
    NetworkOfText(p);
    NetworkOfText(q);
    UpperBits(p);
    UpperBits(q);
    if p.Network() == q.Network() {
      NetworkInjective(p, q);
    }
  }

  /** The test does not look at the host part: any text without a dot passes for one. */
  lemma SameSubnetExactly(local: string, q: Quad)
    ensures SameSubnet24(local, q.Text()) <==> exists host :: NoDot(host) && local == q.Network() + ("." + host)
  {
    NetworkOfText(q);
    if SameSubnet24(local, q.Text()) {
      var host := SplitAtLastDot(local);
      assert NoDot(host) && local == q.Network() + ("." + host);
    }
    if host :| NoDot(host) && local == q.Network() + ("." + host) {
      DotBeforeHost(q.Network(), host);
    }
  }

  /** The text of an IPv6 socket address before its port. */
  predicate Bracketed(text: string) {
    text != [] && text[0] == '['
  }

  lemma PlainIsNotBracketed(q: Quad)
    ensures !Bracketed(q.Text())
  {
    assert q.Text()[0] == Decimal(q.a)[0];
  }

  /** A bracketed text never passes the test against an IPv4 address. */
  lemma BracketedIsNoNeighbour(own: Quad, text: string)
    requires Bracketed(text)
    ensures !SameSubnet24(own.Text(), text)
  {
    if SameSubnet24(own.Text(), text) {
      NeighbourStartsAlike(own, text);
    }
  }

  lemma NeighbourStartsAlike(own: Quad, text: string)
    requires SameSubnet24(own.Text(), text)
    ensures text != [] && text[0] == Decimal(own.a)[0]
  {
    NetworkOfText(own);
    var host := SplitAtLastDot(text);
    assert own.Network()[0] == Decimal(own.a)[0];
  }
}
