/** The offer board (crates/ndn-boltffi/src/offer.rs): a map of offers, its manifest as JSON, and the ring
  * of recent manifest versions that consumers fetch from while offers change.
  */
module OfferBoard {
  import opened Basics
  import opened RdrObject
  import opened OrderedMap
  import opened Json
  import Utf8

  const MANIFEST_HISTORY: nat := 6
  const MANIFEST_CHUNK: nat := 8192

  /** One shared file; `name` is its routable name in text form. */
  datatype OfferEntry = OfferEntry(displayName: string, mime: string, name: string, size: nat)

  type Offers = seq<Binding<OfferEntry>>

  // ------------------------------------------------------------------- JSON

  // the member names of the printed text
  const NODE := "node"
  const OFFERS := "offers"
  const FILE_ID := "file_id"
  const DISPLAY_NAME := "display_name"
  const MIME := "mime"
  const SIZE := "size"
  const NAME := "name"

  lemma KeysArePlain()
    ensures Plain(NODE) && Plain(OFFERS) && Plain(FILE_ID) && Plain(DISPLAY_NAME)
    ensures Plain(MIME) && Plain(SIZE) && Plain(NAME)
  {
  }

  function OfferFields(b: Binding<OfferEntry>): seq<Field> {
    [Field(FILE_ID, Text(b.key)),
     Field(DISPLAY_NAME, Text(b.value.displayName)),
     Field(MIME, Text(b.value.mime)),
     Field(SIZE, Number(b.value.size)),
     Field(NAME, Text(b.value.name))]
  }

  function OfferValues(offers: Offers): (values: seq<Value>)
    ensures |values| == |offers| && forall i :: 0 <= i < |values| ==> values[i] == Record(OfferFields(offers[i]))
  {
    seq(|offers|, i requires 0 <= i < |offers| => Record(OfferFields(offers[i])))
  }

  /** The offer list as a JSON value. */
  function OffersValue(node: string, offers: Offers): Value {
    Record([Field(NODE, Text(node)), Field(OFFERS, List(OfferValues(offers)))])
  }

  method PushOffer(p: Printer, b: Binding<OfferEntry>)
    modifies p
    ensures p.out == old(p.out) + Render(Record(OfferFields(b)))
  {
    KeysArePlain();
    p.Push("{");
    ghost var start := p.out;
    ghost var f := [];
    p.AddText(start, f, true, FILE_ID, b.key);
    f := f + [Field(FILE_ID, Text(b.key))];
    p.AddText(start, f, false, DISPLAY_NAME, b.value.displayName);
    f := f + [Field(DISPLAY_NAME, Text(b.value.displayName))];
    p.AddText(start, f, false, MIME, b.value.mime);
    f := f + [Field(MIME, Text(b.value.mime))];
    p.AddNumber(start, f, false, SIZE, b.value.size);
    f := f + [Field(SIZE, Number(b.value.size))];
    p.AddText(start, f, false, NAME, b.value.name);
    f := f + [Field(NAME, Text(b.value.name))];
    assert f == OfferFields(b);
    p.Push("}");
    ConcatAssociative(old(p.out), "{", RenderFields(f));
    ConcatAssociative(old(p.out), "{" + RenderFields(f), "}");
  }

  method PushOffers(p: Printer, offers: Offers)
    modifies p
    ensures p.out == old(p.out) + RenderItems(OfferValues(offers))
  {
    KeysArePlain();
    ghost var values := OfferValues(offers);
    for i := 0 to |offers|
      invariant p.out == old(p.out) + RenderItems(values[..i])
    {
      ghost var comma := if i == 0 then [] else ",";
      RenderItemsSnoc(values[..i], values[i]);
      assert values[..i + 1] == values[..i] + [values[i]];
      ConcatAssociative(old(p.out), RenderItems(values[..i]), comma);
      ConcatAssociative(old(p.out), RenderItems(values[..i]) + comma, Render(values[i]));
      if i > 0 {
        p.Push(",");
      }
      PushOffer(p, offers[i]);
    }
    assert values[..|offers|] == values;
  }

  /** The text around the offers. */
  lemma OffersText(node: string, offers: Offers)
    ensures var items := OfferValues(offers);
      var head := "{" + RenderFields([Field(NODE, Text(node))]);
      Render(OffersValue(node, offers)) == head + "," + KeyText(OFFERS) + "[" + RenderItems(items) + "]" + "}"
  {
    var items := OfferValues(offers);
    var f := [Field(NODE, Text(node))];
    FieldText("{", f, OFFERS, List(items));
    assert f + [Field(OFFERS, List(items))] == [Field(NODE, Text(node)), Field(OFFERS, List(items))];
    var head := "{" + RenderFields(f) + "," + KeyText(OFFERS);
    ConcatAssociative(head, "[", RenderItems(items));
    ConcatAssociative(head, "[" + RenderItems(items), "]");
  }

  /** `offers_json`: compact JSON text from which a reader who looks members up by name gets the offers back. */
  method OffersJson(node: string, offers: Offers) returns (out: string)
    ensures out == Render(OffersValue(node, offers))
    ensures ReadManifest(out) == Some((Readable(node), ReadableOffers(offers)))
  {
    KeysArePlain();
    OffersText(node, offers);
    OffersRoundTrip(node, offers);
    var p := new Printer();
    p.Push("{");
    p.AddText("{", [], true, NODE, node);
    ghost var f := [] + [Field(NODE, Text(node))];
    p.PushKey(f, false, OFFERS);
    p.Push("[");
    PushOffers(p, offers);
    p.Push("]");
    p.Push("}");
    return p.out;
  }

  // ------------------------------------------------------------- reading back

  function ReadableOffer(b: Binding<OfferEntry>): Binding<OfferEntry> {
    var e := b.value;
    Binding(Readable(b.key), OfferEntry(Readable(e.displayName), Readable(e.mime), Readable(e.name), e.size))
  }

  function ReadableOffers(offers: Offers): Offers {
    seq(|offers|, i requires 0 <= i < |offers| => ReadableOffer(offers[i]))
  }

  lemma ReadBackText(key: string, text: string)
    requires Plain(key)
    ensures Readable(key) == key && ReadBack(Text(text)) == Text(Readable(text))
  {
    PlainQuoted(key);
  }

  lemma ReadBackOffer(b: Binding<OfferEntry>)
    ensures ReadBack(Record(OfferFields(b))) == Record(OfferFields(ReadableOffer(b)))
  {
    KeysArePlain();
    ReadBackText(FILE_ID, b.key);
    ReadBackText(DISPLAY_NAME, b.value.displayName);
    ReadBackText(MIME, b.value.mime);
    ReadBackText(SIZE, []);
    ReadBackText(NAME, b.value.name);
    assert ReadBackFields(OfferFields(b)) == OfferFields(ReadableOffer(b));
  }

  lemma ReadBackOffers(node: string, offers: Offers)
    ensures ReadBack(OffersValue(node, offers)) == OffersValue(Readable(node), ReadableOffers(offers))
  {
    KeysArePlain();
    var items := OfferValues(offers);
    forall i | 0 <= i < |offers| ensures ReadBack(items[i]) == OfferValues(ReadableOffers(offers))[i] {
      ReadBackOffer(offers[i]);
    }
    assert ReadBackItems(items) == OfferValues(ReadableOffers(offers));
    ReadBackText(NODE, node);
    ReadBackText(OFFERS, []);
    var f := [Field(NODE, Text(node)), Field(OFFERS, List(items))];
    assert ReadBackFields(f) == [Field(NODE, Text(Readable(node))), Field(OFFERS, List(ReadBackItems(items)))];
  }

  // a consumer's reader: members are looked up by name, in any order, and others are passed over

  function ReadOffer(v: Value): Option<Binding<OfferEntry>> {
    match (Member(v, "file_id"), Member(v, "display_name"), Member(v, "mime"), Member(v, "size"), Member(v, "name"))
    case (Some(Text(id)), Some(Text(displayName)), Some(Text(mime)), Some(Number(size)), Some(Text(name))) =>
      if size >= 0 then Some(Binding(id, OfferEntry(displayName, mime, name, size))) else None
    case _ => None
  }

  function ReadOfferList(items: seq<Value>): Option<Offers> {
    if items == [] then Some([])
    else match (ReadOffer(items[0]), ReadOfferList(items[1..]))
      case (Some(offer), Some(rest)) => Some([offer] + rest)
      case _ => None
  }

  function ReadOffers(v: Value): Option<(string, Offers)> {
    match (Member(v, "node"), Member(v, "offers"))
    case (Some(Text(node)), Some(List(items))) =>
      (match ReadOfferList(items)
       case Some(offers) => Some((node, offers))
       case None => None)
    case _ => None
  }

  /** The node and the offers in a manifest's text, which must be one JSON value and nothing else. */
  function ReadManifest(text: string): Option<(string, Offers)> {
    match ParseValue(text)
    case Some((v, rest)) => if rest == [] then ReadOffers(v) else None
    case None => None
  }

  lemma OfferIsRead(b: Binding<OfferEntry>)
    ensures ReadOffer(Record(OfferFields(b))) == Some(b)
  {
    var fields := OfferFields(b);
    FirstFieldAt(fields, "file_id", 0);
    FirstFieldAt(fields, "display_name", 1);
    FirstFieldAt(fields, "mime", 2);
    FirstFieldAt(fields, "size", 3);
    FirstFieldAt(fields, "name", 4);
  }

  lemma {:induction false} OfferListIsRead(offers: Offers)
    ensures ReadOfferList(OfferValues(offers)) == Some(offers)
    decreases |offers|
  {
    if offers != [] {
      OfferIsRead(offers[0]);
      OfferListIsRead(offers[1..]);
      assert OfferValues(offers)[1..] == OfferValues(offers[1..]);
      assert offers == [offers[0]] + offers[1..];
    }
  }

  lemma OffersAreRead(node: string, offers: Offers)
    ensures ReadOffers(OffersValue(node, offers)) == Some((node, offers))
  {
    OfferListIsRead(offers);
    FirstFieldAt(OffersValue(node, offers).fields, "node", 0);
    FirstFieldAt(OffersValue(node, offers).fields, "offers", 1);
  }

  /** JSON round trip: for every node and list of offers, the printed text is one JSON value, in which a reader finds
    * under the members' names the node and the entries, in the same order with the same sizes, and each string as it
    * was except that control characters other than newline, return and tab have become spaces. */
  lemma OffersRoundTrip(node: string, offers: Offers)
    ensures ReadManifest(Render(OffersValue(node, offers))) == Some((Readable(node), ReadableOffers(offers)))
  {
    var v := OffersValue(node, offers);
    ValueRoundTrip(v, []);
    assert Render(v) + [] == Render(v);
    ReadBackOffers(node, offers);
    OffersAreRead(Readable(node), ReadableOffers(offers));
  }

  // --------------------------------------------------------------- the board

  /** The names the board serves under, which never change; `uri` is the text form of a name, which a library
    * not part of this model gives. */
  datatype Site = Site(node: string, manifestName: Name, identity: Name, uri: Name -> string)

  /** The name component that reads "file". */
  const FILE: Bytes := [0x66, 0x69, 0x6C, 0x65]

  /** The routable name of an offered file: `/<identity>/file/<id>`. */
  function ObjectName(identity: Name, id: string): Name {
    identity + [FILE, Utf8.Encode(id)]
  }

  lemma FileComponent()
    ensures FILE == Utf8.Encode("file")
  {
    assert Utf8.Encode("le") == Utf8.EncodeChar('l') + Utf8.Encode("e") by { assert "le"[1..] == "e"; }
    assert Utf8.Encode("ile") == Utf8.EncodeChar('i') + Utf8.Encode("le") by { assert "ile"[1..] == "le"; }
    assert Utf8.Encode("file") == Utf8.EncodeChar('f') + Utf8.Encode("ile") by { assert "file"[1..] == "ile"; }
    assert Utf8.Encode("e") == Utf8.EncodeChar('e') + Utf8.Encode([]) by { assert "e"[1..] == []; }
  }

  /** Different offers are served under different names. */
  lemma ObjectNamesDiffer(identity: Name, a: string, b: string)
    ensures ObjectName(identity, a) == ObjectName(identity, b) <==> a == b
  {
    if ObjectName(identity, a) == ObjectName(identity, b) {
      assert ObjectName(identity, a)[|identity| + 1] == Utf8.Encode(a);
      assert ObjectName(identity, b)[|identity| + 1] == Utf8.Encode(b);
      Utf8.RoundTrip(a);
      Utf8.RoundTrip(b);
    }
  }

  /** The manifest of `offers` as one version of the manifest object. */
  function Manifest(site: Site, version: nat, offers: Offers): (o: Object)
    ensures o.Valid() && o.prefix == Prefix(site.manifestName, version)
  {
    Object(Prefix(site.manifestName, version), Chunks(ManifestBytes(site, offers), MANIFEST_CHUNK))
  }

  function ManifestBytes(site: Site, offers: Offers): Bytes {
    Utf8.Encode(Render(OffersValue(site.node, offers)))
  }

  datatype Board = Board(offers: Offers, ring: seq<Object>)

  /** Adding or replacing an offer, or removing one; `version` is the build time of the manifest. */
  datatype Change =
    | Add(id: string, entry: OfferEntry, version: nat)
    | Withdraw(id: string, version: nat)

  function Truncated<T>(s: seq<T>, n: nat): seq<T> {
    if |s| <= n then s else s[..n]
  }

  function Rebuilt(site: Site, b: Board, offers: Offers, version: nat): Board {
    Board(offers, Truncated([Manifest(site, version, offers)] + b.ring, MANIFEST_HISTORY))
  }

  function Changed(site: Site, b: Board, c: Change): Board {
    match c
    case Add(id, entry, version) =>
      if id == [] then b else Rebuilt(site, b, Insert(b.offers, id, entry), version)
    case Withdraw(id, version) =>
      if Has(b.offers, id) then Rebuilt(site, b, Remove(b.offers, id), version) else b
  }

  /** The board after `changes`, starting empty with a manifest of version `v0`. */
  function After(site: Site, v0: nat, changes: seq<Change>): Board {
    if changes == [] then Board([], [Manifest(site, v0, [])])
    else Changed(site, After(site, v0, changes[..|changes| - 1]), changes[|changes| - 1])
  }

  /** The offers as a plain map from ids to entries. */
  ghost function Offered(changes: seq<Change>): map<string, OfferEntry> {
    if changes == [] then map[] else
    var before := Offered(changes[..|changes| - 1]);
    match changes[|changes| - 1]
    case Add(id, entry, _) => if id == [] then before else before[id := entry]
    case Withdraw(id, _) => before - {id}
  }

  datatype Build = Build(version: nat, offers: Offers)

  predicate Rebuilds(b: Board, c: Change) {
    match c
    case Add(id, _, _) => id != []
    case Withdraw(id, _) => Has(b.offers, id)
  }

  /** Every manifest build so far, oldest first. */
  function Builds(site: Site, v0: nat, changes: seq<Change>): seq<Build> {
    if changes == [] then [Build(v0, [])] else
    var before := changes[..|changes| - 1];
    var last := changes[|changes| - 1];
    Builds(site, v0, before)
    + (if Rebuilds(After(site, v0, before), last)
       then [Build(last.version, After(site, v0, changes).offers)] else [])
  }

  function BuildObject(site: Site, b: Build): (o: Object)
    ensures o.Valid() && o.prefix == Prefix(site.manifestName, b.version)
  {
    Manifest(site, b.version, b.offers)
  }

  /** The last six builds, newest first. */
  ghost predicate HoldsRecent(site: Site, ring: seq<Object>, builds: seq<Build>) {
    && |ring| == Min(MANIFEST_HISTORY, |builds|)
    && forall j :: 0 <= j < |ring| ==> ring[j] == BuildObject(site, builds[|builds| - 1 - j])
  }

  ghost predicate BoardInv(site: Site, b: Board, builds: seq<Build>, offered: map<string, OfferEntry>) {
    && Sorted(b.offers) && ToMap(b.offers) == offered
    && builds != [] && builds[|builds| - 1].offers == b.offers
    && HoldsRecent(site, b.ring, builds)
  }

  /** The manifest agrees with the offers: after any adds, replacements and withdrawals the offers are the
    * plain map's, in key order; the ring holds the last builds, at least one and at most six, newest
    * first; and its head is built from the current offers. */
  lemma {:induction false} ManifestAgrees(site: Site, v0: nat, changes: seq<Change>)
    ensures BoardInv(site, After(site, v0, changes), Builds(site, v0, changes), Offered(changes))
    ensures var b := After(site, v0, changes);
      b.ring[0].segments == Chunks(ManifestBytes(site, b.offers), MANIFEST_CHUNK)
    decreases |changes|
  {
    if changes != [] {
      var before := changes[..|changes| - 1];
      ManifestAgrees(site, v0, before);
      ChangeKeepsOffers(After(site, v0, before), changes[|changes| - 1], Offered(before), site);
      ChangeKeepsRing(site, After(site, v0, before), changes[|changes| - 1], Builds(site, v0, before));
    }
  }

  lemma ChangeKeepsOffers(b: Board, c: Change, offered: map<string, OfferEntry>, site: Site)
    requires Sorted(b.offers) && ToMap(b.offers) == offered
    ensures var t := Changed(site, b, c);
      && Sorted(t.offers)
      && ToMap(t.offers) == match c
         case Add(id, entry, _) => if id == [] then offered else offered[id := entry]
         case Withdraw(id, _) => offered - {id}
  {
    match c
    case Add(id, entry, _) => InsertUpdates(b.offers, id, entry);
    case Withdraw(id, _) =>
      RemoveUpdates(b.offers, id);
      ToMapKeys(b.offers, id);
  }

  lemma ChangeKeepsRing(site: Site, b: Board, c: Change, builds: seq<Build>)
    requires HoldsRecent(site, b.ring, builds) && builds != [] && builds[|builds| - 1].offers == b.offers
    ensures var t := Changed(site, b, c);
      var after := builds + (if Rebuilds(b, c) then [Build(c.version, t.offers)] else []);
      HoldsRecent(site, t.ring, after) && after[|after| - 1].offers == t.offers
  {
    var t := Changed(site, b, c);
    if Rebuilds(b, c) {
      PushKeepsRecent(site, b.ring, builds, Build(c.version, t.offers));
    } else {
      assert builds + [] == builds;
    }
  }

  lemma PushKeepsRecent(site: Site, ring: seq<Object>, builds: seq<Build>, b: Build)
    requires HoldsRecent(site, ring, builds)
    ensures HoldsRecent(site, Truncated([BuildObject(site, b)] + ring, MANIFEST_HISTORY), builds + [b])
  {
    var pushed := [BuildObject(site, b)] + ring;
    var after := builds + [b];
    forall j | 0 <= j < |pushed| ensures pushed[j] == BuildObject(site, after[|after| - 1 - j]) {
      if j > 0 {
        assert pushed[j] == ring[j - 1];
      }
    }
  }

  // ---------------------------------------------------------------- serving

  /** The first version that answers, newest first. */
  function FirstAnswer(ring: seq<Object>, r: Request): Option<Reply>
    requires forall j :: 0 <= j < |ring| ==> ring[j].Valid()
  {
    if ring == [] then None
    else if Answer(ring[0], r).Some? then Answer(ring[0], r)
    else FirstAnswer(ring[1..], r)
  }

  /** No two builds have the same version. */
  ghost predicate DistinctVersions(builds: seq<Build>) {
    forall i, j :: 0 <= i < j < |builds| ==> builds[i].version != builds[j].version
  }

  lemma {:induction false} FirstAnswerAt(ring: seq<Object>, r: Request, j: nat)
    requires forall i :: 0 <= i < |ring| ==> ring[i].Valid()
    requires j < |ring| && Answer(ring[j], r).Some? && forall i :: 0 <= i < j ==> Answer(ring[i], r).None?
    ensures FirstAnswer(ring, r) == Answer(ring[j], r)
    decreases |ring|
  {
    if j > 0 {
      assert Answer(ring[0], r).None?;
      FirstAnswerAt(ring[1..], r, j - 1);
    }
  }

  lemma {:induction false} NoAnswer(ring: seq<Object>, r: Request)
    requires forall i :: 0 <= i < |ring| ==> ring[i].Valid() && Answer(ring[i], r).None?
    ensures FirstAnswer(ring, r).None?
    decreases |ring|
  {
    if ring != [] {
      NoAnswer(ring[1..], r);
    }
  }

  lemma RecentExactly(site: Site, ring: seq<Object>, builds: seq<Build>, i: nat)
    requires HoldsRecent(site, ring, builds) && DistinctVersions(builds) && i < |builds|
    ensures BuildObject(site, builds[i]) in ring <==> |builds| - 1 - i < MANIFEST_HISTORY
  {
    var o := BuildObject(site, builds[i]);
    if |builds| - 1 - i < MANIFEST_HISTORY {
      assert ring[|builds| - 1 - i] == o;
    } else {
      forall j | 0 <= j < |ring| ensures ring[j] != o {
        var other := builds[|builds| - 1 - j];
        assert ring[j].prefix.version == other.version;
      }
    }
  }

  /** A given build is in the ring exactly until the sixth later rebuild. */
  lemma BuildKeptExactly(site: Site, v0: nat, changes: seq<Change>, i: nat)
    requires i < |Builds(site, v0, changes)| && DistinctVersions(Builds(site, v0, changes))
    ensures BuildObject(site, Builds(site, v0, changes)[i]) in After(site, v0, changes).ring
      <==> |Builds(site, v0, changes)| - 1 - i < MANIFEST_HISTORY
  {
    ManifestAgrees(site, v0, changes);
    RecentExactly(site, After(site, v0, changes).ring, Builds(site, v0, changes), i);
  }

  lemma PrefixServed(ring: seq<Object>, o: Object, k: nat, j: nat)
    requires forall i :: 0 <= i < |ring| ==> ring[i].Valid()
    requires o.Valid() && k < |o.segments| && j <= |ring|
    requires forall i :: 0 <= i < |ring| && i != j ==> ring[i].prefix != o.prefix
    requires j < |ring| ==> ring[j] == o
    ensures FirstAnswer(ring, SegmentRequest(o.prefix, k))
      == if j < |ring| then Some(SegmentReply(SegmentOf(o, k))) else None
  {
    if j < |ring| {
      FirstAnswerAt(ring, SegmentRequest(o.prefix, k), j);
    } else {
      NoAnswer(ring, SegmentRequest(o.prefix, k));
    }
  }

  /** What a segment request for build `i` gets: that build's own segment while the ring holds it, and
    * nothing afterwards. */
  lemma SegmentServed(site: Site, ring: seq<Object>, builds: seq<Build>, i: nat, o: Object, k: nat)
    requires HoldsRecent(site, ring, builds) && DistinctVersions(builds) && i < |builds|
    requires forall j :: 0 <= j < |ring| ==> ring[j].Valid()
    requires o == BuildObject(site, builds[i]) && k < |o.segments|
    ensures FirstAnswer(ring, SegmentRequest(o.prefix, k))
      == if |builds| - 1 - i < MANIFEST_HISTORY then Some(SegmentReply(SegmentOf(o, k))) else None
  {
    var at := BuildPlace(site, ring, builds, i, o);
    PrefixServed(ring, o, k, at);
  }

  /** Where build `i` is in the ring, or the ring's length; no other place has its version. */
  lemma BuildPlace(site: Site, ring: seq<Object>, builds: seq<Build>, i: nat, o: Object) returns (at: nat)
    requires HoldsRecent(site, ring, builds) && DistinctVersions(builds) && i < |builds|
    requires o == BuildObject(site, builds[i])
    ensures at <= |ring| && (at < |ring| <==> |builds| - 1 - i < MANIFEST_HISTORY)
    ensures at < |ring| ==> ring[at] == o
    ensures forall j :: 0 <= j < |ring| && j != at ==> ring[j].prefix != o.prefix
  {
    at := Min(|ring|, |builds| - 1 - i);
    forall j | 0 <= j < |ring| && j != at ensures ring[j].prefix != o.prefix {
      OtherBuild(site, ring, builds, i, j);
    }
  }

  lemma OtherBuild(site: Site, ring: seq<Object>, builds: seq<Build>, i: nat, j: nat)
    requires HoldsRecent(site, ring, builds) && DistinctVersions(builds)
    requires i < |builds| && j < |ring| && |builds| - 1 - j != i
    ensures ring[j].prefix != BuildObject(site, builds[i]).prefix
  {
    var other := builds[|builds| - 1 - j];
    assert ring[j].prefix == Prefix(site.manifestName, other.version);
  }

  /** The ring, with the fact that its objects can be asked. */
  function RingOf(site: Site, v0: nat, changes: seq<Change>): (ring: seq<Object>)
    ensures ring == After(site, v0, changes).ring
    ensures forall j :: 0 <= j < |ring| ==> ring[j].Valid()
  {
    ManifestAgrees(site, v0, changes);
    After(site, v0, changes).ring
  }

  lemma {:induction false} BuildsGrow(site: Site, v0: nat, changes: seq<Change>, n: nat)
    requires n <= |changes|
    ensures Builds(site, v0, changes[..n]) <= Builds(site, v0, changes)
    decreases |changes|
  {
    if n < |changes| {
      BuildsGrow(site, v0, changes[..|changes| - 1], n);
      assert changes[..|changes| - 1][..n] == changes[..n];
    } else {
      assert changes[..n] == changes;
    }
  }

  // --------------------------------------------------- overlapping consumers

  /** How many rebuilds the changes after the first `from` up to the first `upto` cause. */
  function RebuildsBetween(site: Site, v0: nat, changes: seq<Change>, from: nat, upto: nat): int
    requires from <= upto <= |changes|
  {
    |Builds(site, v0, changes[..upto])| - |Builds(site, v0, changes[..from])|
  }

  /** The manifest a consumer learns of when it asks for metadata after `from` changes. */
  function Current(site: Site, v0: nat, changes: seq<Change>, from: nat): (o: Object)
    requires from <= |changes|
    ensures o.Valid() && o.prefix.base == site.manifestName
  {
    ManifestAgrees(site, v0, changes[..from]);
    RingOf(site, v0, changes[..from])[0]
  }

  lemma MetadataServed(site: Site, v0: nat, changes: seq<Change>, from: nat)
    requires from <= |changes|
    ensures var o := Current(site, v0, changes, from);
      FirstAnswer(RingOf(site, v0, changes[..from]), MetadataRequest(site.manifestName))
      == Some(MetadataReply(o.prefix.version, o.LastSeg()))
  {
    ManifestAgrees(site, v0, changes[..from]);
    FirstAnswerAt(RingOf(site, v0, changes[..from]), MetadataRequest(site.manifestName), 0);
  }

  /** A segment of the learned version, asked for after `upto` changes: it is that version's own segment
    * when at most five rebuilds happened meanwhile, and never anything else. */
  lemma SnapshotSegment(site: Site, v0: nat, changes: seq<Change>, from: nat, upto: nat, k: nat)
    requires from <= upto <= |changes| && DistinctVersions(Builds(site, v0, changes))
    requires k < |Current(site, v0, changes, from).segments|
    ensures var o := Current(site, v0, changes, from);
      FirstAnswer(RingOf(site, v0, changes[..upto]), SegmentRequest(o.prefix, k))
      == if RebuildsBetween(site, v0, changes, from, upto) <= 5 then Some(SegmentReply(SegmentOf(o, k))) else None
  {
    var early, late := changes[..from], changes[..upto];
    ManifestAgrees(site, v0, early);
    BuildsGrow(site, v0, changes, upto);
    BuildsGrow(site, v0, late, from);
    assert late[..from] == early;
    var i := |Builds(site, v0, early)| - 1;
    assert Builds(site, v0, late)[i] == Builds(site, v0, early)[i];
    ManifestAgrees(site, v0, late);
    SegmentServed(site, RingOf(site, v0, late), Builds(site, v0, late), i, Current(site, v0, changes, from), k);
  }

  /** The replies to a fetch of the version learned after `from` changes, segment `k` being asked for after
    * `times[k]` changes. */
  ghost predicate Fetched(site: Site, v0: nat, changes: seq<Change>, from: nat, times: seq<nat>, parts: seq<Raw>) {
    && from <= |changes|
    && |times| == |parts| == |Current(site, v0, changes, from).segments|
    && forall k :: 0 <= k < |parts| ==>
         && from <= times[k] <= |changes|
         && FirstAnswer(RingOf(site, v0, changes[..times[k]]),
                        SegmentRequest(Current(site, v0, changes, from).prefix, k)) == Some(SegmentReply(parts[k]))
  }

  function ContentsOf(parts: seq<Raw>): seq<Bytes> {
    seq(|parts|, k requires 0 <= k < |parts| => parts[k].content)
  }

  predicate HasSegment(o: Object, prefix: Prefix, seg: nat) {
    prefix == o.prefix && seg < |o.segments|
  }

  /** One of the last six builds has the segment. */
  ghost predicate RecentHas(site: Site, builds: seq<Build>, prefix: Prefix, seg: nat) {
    exists i :: Max(0, |builds| - 6) <= i < |builds| && HasSegment(BuildObject(site, builds[i]), prefix, seg)
  }

  ghost predicate RingHas(ring: seq<Object>, prefix: Prefix, seg: nat) {
    exists j :: 0 <= j < |ring| && HasSegment(ring[j], prefix, seg)
  }

  lemma RingAnswersExactly(ring: seq<Object>, prefix: Prefix, seg: nat)
    requires forall j :: 0 <= j < |ring| ==> ring[j].Valid()
    ensures FirstAnswer(ring, SegmentRequest(prefix, seg)).Some? <==> RingHas(ring, prefix, seg)
  {
    var r := SegmentRequest(prefix, seg);
    if j :| 0 <= j < |ring| && HasSegment(ring[j], prefix, seg) {
      SomeAnswer(ring, r, j);
    } else {
      forall j | 0 <= j < |ring| ensures Answer(ring[j], r).None? {
        assert !HasSegment(ring[j], prefix, seg);
      }
      NoAnswer(ring, r);
    }
  }

  lemma RecentInRing(site: Site, ring: seq<Object>, builds: seq<Build>, prefix: Prefix, seg: nat)
    requires HoldsRecent(site, ring, builds)
    ensures RecentHas(site, builds, prefix, seg) ==> RingHas(ring, prefix, seg)
  {
    if i :| Max(0, |builds| - 6) <= i < |builds| && HasSegment(BuildObject(site, builds[i]), prefix, seg) {
      var j := |builds| - 1 - i;
      assert builds[|builds| - 1 - j] == builds[i];
      assert ring[j] == BuildObject(site, builds[|builds| - 1 - j]);
      assert HasSegment(ring[j], prefix, seg);
    }
  }

  lemma RingIsRecent(site: Site, ring: seq<Object>, builds: seq<Build>, prefix: Prefix, seg: nat)
    requires HoldsRecent(site, ring, builds)
    ensures RingHas(ring, prefix, seg) ==> RecentHas(site, builds, prefix, seg)
  {
    if j :| 0 <= j < |ring| && HasSegment(ring[j], prefix, seg) {
      assert HasSegment(BuildObject(site, builds[|builds| - 1 - j]), prefix, seg);
    }
  }

  /** What the board answers: metadata requests for the manifest, and requests for the segments of its last six
    * builds; nothing else. */
  lemma AnsweredExactly(site: Site, v0: nat, changes: seq<Change>, r: Request)
    ensures FirstAnswer(RingOf(site, v0, changes), r).Some? <==>
      match r
      case MetadataRequest(base) => base == site.manifestName
      case SegmentRequest(prefix, seg) => RecentHas(site, Builds(site, v0, changes), prefix, seg)
  {
    ManifestAgrees(site, v0, changes);
    var ring := RingOf(site, v0, changes);
    match r
    case SegmentRequest(prefix, seg) =>
      RingAnswersExactly(ring, prefix, seg);
      RecentInRing(site, ring, Builds(site, v0, changes), prefix, seg);
      RingIsRecent(site, ring, Builds(site, v0, changes), prefix, seg);
    case MetadataRequest(base) =>
      if base == site.manifestName {
        FirstAnswerAt(ring, r, 0);
      } else {
        NoAnswer(ring, r);
      }
  }

  lemma {:induction false} SomeAnswer(ring: seq<Object>, r: Request, j: nat)
    requires forall i :: 0 <= i < |ring| ==> ring[i].Valid()
    requires j < |ring| && Answer(ring[j], r).Some?
    ensures FirstAnswer(ring, r).Some?
    decreases |ring|
  {
    if j > 0 {
      SomeAnswer(ring[1..], r, j - 1);
    }
  }

  /** A manifest is cut into segments of 8192 octets, of which only the last may be shorter. */
  lemma ManifestSegments(site: Site, version: nat, offers: Offers)
    ensures var segments := Manifest(site, version, offers).segments;
      && Flatten(segments) == ManifestBytes(site, offers)
      && (forall k :: 0 <= k < |segments| - 1 ==> |segments[k]| == 8192)
      && 0 < |segments[|segments| - 1]| <= 8192
  {
    ChunksFlatten(ManifestBytes(site, offers), MANIFEST_CHUNK);
    ChunksFull(ManifestBytes(site, offers), MANIFEST_CHUNK);
    assert Render(OffersValue(site.node, offers)) != [];
  }

  /** Snapshot isolation: whatever offers come and go while a consumer fetches, a complete fetch gives the
    * manifest of the offers as they were when it read the metadata, and reading it as JSON gives those
    * offers. */
  lemma SnapshotIsolation(site: Site, v0: nat, changes: seq<Change>, from: nat, times: seq<nat>, parts: seq<Raw>)
    requires DistinctVersions(Builds(site, v0, changes)) && Fetched(site, v0, changes, from, times, parts)
    ensures var offers := After(site, v0, changes[..from]).offers;
      && Flatten(ContentsOf(parts)) == ManifestBytes(site, offers)
      && Utf8.Decode(Flatten(ContentsOf(parts))).Some?
      && ReadManifest(Utf8.Decode(Flatten(ContentsOf(parts))).value)
         == Some((Readable(site.node), ReadableOffers(offers)))
  {
    var o := Current(site, v0, changes, from);
    forall k | 0 <= k < |parts| ensures parts[k].content == o.segments[k] {
      SnapshotSegment(site, v0, changes, from, times[k], k);
    }
    assert ContentsOf(parts) == o.segments;
    ManifestAgrees(site, v0, changes[..from]);
    var offers := After(site, v0, changes[..from]).offers;
    ChunksFlatten(ManifestBytes(site, offers), MANIFEST_CHUNK);
    Utf8.RoundTrip(Render(OffersValue(site.node, offers)));
    OffersRoundTrip(site.node, offers);
  }

  /** And a fetch that overlaps at most five rebuilds can be completed. */
  lemma SnapshotComplete(site: Site, v0: nat, changes: seq<Change>, from: nat, times: seq<nat>)
      returns (parts: seq<Raw>)
    requires from <= |changes| && DistinctVersions(Builds(site, v0, changes))
    requires |times| == |Current(site, v0, changes, from).segments|
    requires forall k :: 0 <= k < |times| ==>
      from <= times[k] <= |changes| && RebuildsBetween(site, v0, changes, from, times[k]) <= 5
    ensures Fetched(site, v0, changes, from, times, parts)
  {
    var o := Current(site, v0, changes, from);
    parts := seq(|times|, k requires 0 <= k < |times| => SegmentOf(o, k));
    forall k | 0 <= k < |parts|
      ensures FirstAnswer(RingOf(site, v0, changes[..times[k]]), SegmentRequest(o.prefix, k))
        == Some(SegmentReply(parts[k]))
    {
      SnapshotSegment(site, v0, changes, from, times[k], k);
    }
  }

  // --------------------------------------------------------------- the class

  class OfferBoard {
    const site: Site
    const firstVersion: nat
    var offers: Offers
    var ring: seq<Object>
    ghost var changes: seq<Change>

    ghost predicate Valid()
      reads this
    {
      Board(offers, ring) == After(site, firstVersion, changes)
    }

    constructor (site: Site, version: nat)
      ensures Valid() && this.site == site && firstVersion == version && changes == []
    {
      this.site, firstVersion, offers, ring, changes := site, version, [], [Manifest(site, version, [])], [];
    }

    /** `add_offer` and its file-backed and streamed forms: an empty id is refused, and otherwise the object's
      * routable name is returned, which is also the one the manifest lists. */
    method AddOffer(id: string, displayName: string, mime: string, size: nat, version: nat)
        returns (name: Option<string>)
      requires Valid()
      modifies this
      ensures name == if id == [] then None else Some(site.uri(site.identity + [Utf8.Encode("file"), Utf8.Encode(id)]))
      ensures id == [] ==> Valid() && offers == old(offers) && ring == old(ring) && changes == old(changes)
      ensures id != [] ==> (
        var entry := OfferEntry(displayName, mime, name.value, size);
        && Valid() && changes == old(changes) + [Add(id, entry, version)]
        && ToMap(offers) == old(ToMap(offers))[id := entry])
    {
      if |id| == 0 {
        return None;
      }
      FileComponent();
      var objectName := site.uri(ObjectName(site.identity, id));
      var entry := OfferEntry(displayName, mime, objectName, size);
      Recorded(Add(id, entry, version));
      ManifestAgrees(site, firstVersion, changes);
      InsertUpdates(offers, id, entry);
      changes := changes + [Add(id, entry, version)];
      offers := Insert(offers, id, entry);
      RebuildManifest(version);
      return Some(objectName);
    }

    /** `remove_offer`. */
    method RemoveOffer(id: string, version: nat) returns (removed: bool)
      requires Valid()
      modifies this
      ensures Valid() && changes == old(changes) + [Withdraw(id, version)]
      ensures removed <==> Has(old(offers), id)
    {
      Recorded(Withdraw(id, version));
      changes := changes + [Withdraw(id, version)];
      removed := Has(offers, id);
      if removed {
        offers := Remove(offers, id);
        RebuildManifest(version);
      }
    }

    lemma Recorded(c: Change)
      requires Valid()
      ensures After(site, firstVersion, changes + [c]) == Changed(site, Board(offers, ring), c)
    {
      assert (changes + [c])[..|changes|] == changes;
    }

    method RebuildManifest(version: nat)
      modifies `ring
      ensures ring == Truncated([Manifest(site, version, offers)] + old(ring), MANIFEST_HISTORY)
    {
      var json := OffersJson(site.node, offers);
      var rebuilt := Object(Prefix(site.manifestName, version), Chunks(Utf8.Encode(json), MANIFEST_CHUNK));
      ring := [rebuilt] + ring;
      if |ring| > MANIFEST_HISTORY {
        ring := ring[..MANIFEST_HISTORY];
      }
    }

    /** The manifest serve loop over a snapshot of the ring. */
    method ServeManifest(r: Request) returns (reply: Option<Reply>)
      requires Valid()
      ensures reply == FirstAnswer(RingOf(site, firstVersion, changes), r)
    {
      ManifestAgrees(site, firstVersion, changes);
      assert ring == RingOf(site, firstVersion, changes);
      reply := FirstToAnswer(ring, r);
    }

    static method FirstToAnswer(versions: seq<Object>, r: Request) returns (reply: Option<Reply>)
      requires forall j :: 0 <= j < |versions| ==> versions[j].Valid()
      ensures reply == FirstAnswer(versions, r)
    {
      for i := 0 to |versions|
        invariant forall j :: 0 <= j < i ==> Answer(versions[j], r).None?
      {
        reply := Answer(versions[i], r);
        if reply.Some? {
          FirstAnswerAt(versions, r, i);
          return;
        }
      }
      NoAnswer(versions, r);
      reply := None;
    }

    /** `list_offers`. */
    method ListOffers() returns (json: string)
      requires Valid()
      ensures json == Render(OffersValue(site.node, offers))
      ensures ReadManifest(json) == Some((Readable(site.node), ReadableOffers(offers)))
    {
      json := OffersJson(site.node, offers);
    }
  }
}
