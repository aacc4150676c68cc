/** A segmented, versioned object: what the model needs of a prepared object.
  *
  * The library that builds prepared objects is not part of this model; this is its
  * abstract specification.  A metadata request gets the version and the last segment
  * number, a segment request gets that segment when it names this version, and
  * anything else gets nothing.
  */
module RdrObject {
  import opened Basics

  /** `<base>/v=<version>`: the prefix every segment of one version is named under. */
  datatype Prefix = Prefix(base: Name, version: nat)

  datatype Object = Object(prefix: Prefix, segments: seq<Bytes>) {
    ghost predicate Valid() {
      segments != []
    }

    function LastSeg(): nat
      requires Valid()
    {
      |segments| - 1
    }
  }

  datatype Request =
    | MetadataRequest(base: Name)
    | SegmentRequest(prefix: Prefix, seg: nat)

  datatype Reply =
    | MetadataReply(version: nat, lastSeg: nat)
    | SegmentReply(data: Raw)

  /** A Data packet named `<prefix>/seg=<seg>`. */
  datatype Raw = Raw(prefix: Prefix, seg: nat, content: Bytes)

  function SegmentOf(o: Object, k: nat): Raw
    requires k < |o.segments|
  {
    Raw(o.prefix, k, o.segments[k])
  }

  function Answer(o: Object, r: Request): Option<Reply>
    requires o.Valid()
  {
    match r
    case MetadataRequest(base) =>
      if base == o.prefix.base then Some(MetadataReply(o.prefix.version, o.LastSeg())) else None
    case SegmentRequest(prefix, seg) =>
      if prefix == o.prefix && seg < |o.segments| then Some(SegmentReply(SegmentOf(o, seg))) else None
  }

  /** The segments of `bytes` in pieces of `chunk` octets; an empty file is one empty segment. */
  function Chunks(bytes: Bytes, chunk: nat): (segments: seq<Bytes>)
    requires chunk > 0
    ensures segments != []
    decreases |bytes|
  {
    if |bytes| <= chunk then [bytes] else [bytes[..chunk]] + Chunks(bytes[chunk..], chunk)
  }

  lemma {:induction false} ChunksFlatten(bytes: Bytes, chunk: nat)
    requires chunk > 0
    ensures Flatten(Chunks(bytes, chunk)) == bytes
    decreases |bytes|
  {
    if |bytes| <= chunk {
      assert Flatten([bytes]) == bytes + Flatten<byte>([]);
    } else {
      ChunksFlatten(bytes[chunk..], chunk);
      assert Chunks(bytes, chunk)[1..] == Chunks(bytes[chunk..], chunk);
      assert bytes[..chunk] + bytes[chunk..] == bytes;
    }
  }

  /** Every segment but the last is full, and the last is not empty unless the file is. */
  lemma {:induction false} ChunksFull(bytes: Bytes, chunk: nat)
    requires chunk > 0
    ensures var segments := Chunks(bytes, chunk);
      && (forall k :: 0 <= k < |segments| - 1 ==> |segments[k]| == chunk)
      && |segments[|segments| - 1]| <= chunk
      && (segments[|segments| - 1] == [] <==> bytes == [])
    decreases |bytes|
  {
    if |bytes| > chunk {
      ChunksFull(bytes[chunk..], chunk);
      assert forall k :: 1 <= k < |Chunks(bytes, chunk)| ==>
        Chunks(bytes, chunk)[k] == Chunks(bytes[chunk..], chunk)[k - 1];
    }
  }
}
