/**
 * The browser primitives the core leans on, stated abstractly: a `Blob` is its bytes and
 * its type, `new Blob(parts, { type })` concatenates, `FileReader.readAsDataURL` yields a
 * base 64 data URL (section 3 of RFC 2397) and `atob` decodes base 64 into a string of
 * one character per octet.
 */
module Media {
  import opened Wrappers
  import opened Base64

  /** A `Blob` (or `File`): its content and its `type` attribute. */
  datatype Blob = Blob(bytes: seq<byte>, mimeType: string)

  /** `blob.size`. */
  function Size(b: Blob): nat {
    |b.bytes|
  }

  /** The bytes of `parts`, first part first. */
  function Concat(parts: seq<Blob>): (r: seq<byte>)
    ensures |r| == TotalSize(parts)
  {
    if parts == [] then [] else parts[0].bytes + Concat(parts[1..])
  }

  function TotalSize(parts: seq<Blob>): nat {
    if parts == [] then 0 else Size(parts[0]) + TotalSize(parts[1..])
  }

  /** `new Blob(parts, { type: mimeType })`. */
  function Merge(parts: seq<Blob>, mimeType: string): (r: Blob)
    ensures Size(r) == TotalSize(parts) && r.mimeType == mimeType
  {
    Blob(Concat(parts), mimeType)
  }

  /** Merging is order-preserving and append-compatible: one more segment at the end adds
      exactly its bytes at the end of the merged payload. */
  lemma {:induction false} MergeAppend(parts: seq<Blob>, p: Blob, mimeType: string)
    ensures Merge(parts + [p], mimeType).bytes == Merge(parts, mimeType).bytes + p.bytes
  {
    if parts == [] {
      assert parts + [p] == [p];
      assert [p][1..] == [];
    } else {
      assert (parts + [p])[1..] == parts[1..] + [p];
      MergeAppend(parts[1..], p, mimeType);
    }
  }

  /** What `FileReader.readAsDataURL(blob)` produces: `data:<type>;base64,<payload>`. */
  function DataUrl(blob: Blob): (url: string)
    ensures ',' in url
  {
    var url := DataUrlHeader(blob.mimeType) + [','] + Encode(blob.bytes);
    assert url[|DataUrlHeader(blob.mimeType)|] == ',';
    url
  }

  /** The part of the data URL before the comma that opens the payload. */
  function DataUrlHeader(mimeType: string): string {
    "data:" + mimeType + ";base64"
  }

  /** `atob(s)`: the decoded octets as a string with one character per octet; `None` where
      `atob` throws. */
  function Atob(s: string): (r: Option<string>)
    ensures r.Some? <==> Decode(s).Some?
    ensures r.Some? ==> |r.value| == |Decode(s).value|
    ensures r.Some? ==> forall k :: 0 <= k < |r.value| ==> r.value[k] as int == Decode(s).value[k]
  {
    match Decode(s)
    case None => None
    case Some(bs) => Some(seq(|bs|, k requires 0 <= k < |bs| => bs[k] as char))
  }
}
