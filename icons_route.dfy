/** The icon retrieval endpoint `GET /api/icons/<id>`, which serves a stored icon
    as raw bytes. */
module IconsRoute {
  import opened Wrappers
  import opened Strings
  import opened Store
  import opened FaviconDownloader

  datatype IconReply =
    | IconNotFound
    | IconBytes(data: seq<byte>, contentType: string, cacheControl: string, allowOrigin: string)

  const CacheControl: string := "public, max-age=604800, immutable"

  /** Looks the id up in the icon table: 404 when there is no such icon,
      otherwise the bytes with the stored MIME type, cacheable for seven days and
      open to every origin. */
  function GetIcon(blobs: seq<IconBlob>, id: string): (reply: IconReply)
    ensures reply.IconBytes? <==> exists k | 0 <= k < |blobs| :: NatToDecimal(k) == id
    ensures reply.IconBytes? ==>
      reply.cacheControl == CacheControl && reply.allowOrigin == "*" &&
      exists k | 0 <= k < |blobs| :: NatToDecimal(k) == id &&
        reply.data == blobs[k].data && reply.contentType == blobs[k].mimeType
  {
    match ParseId(id)
    case Some(k) =>
      if k < |blobs| then
        assert NatToDecimal(k) == id;
        IconBytes(blobs[k].data, blobs[k].mimeType, CacheControl, "*")
      else
        assert forall j | 0 <= j < |blobs| :: NatToDecimal(j) != id by {
          forall j | 0 <= j < |blobs| ensures NatToDecimal(j) != id { ParseIdRoundTrip(j); }
        }
        IconNotFound
    case None =>
      assert forall j | 0 <= j < |blobs| :: NatToDecimal(j) != id by {
        forall j | 0 <= j < |blobs| ensures NatToDecimal(j) != id { ParseIdRoundTrip(j); }
      }
      IconNotFound
  }

  /** The URL the pipeline hands back serves exactly the bytes that were stored,
      under the recorded MIME type, for as long as the table only grows. */
  lemma IconUrlServesStoredIcon(blobs: seq<IconBlob>, id: nat)
    requires id < |blobs|
    ensures StartsWith(IconUrl(id), IconApiPrefix)
    ensures GetIcon(blobs, IconUrl(id)[|IconApiPrefix|..]) == IconBytes(blobs[id].data, blobs[id].mimeType, CacheControl, "*")
  {
    StartsWithAppend(IconApiPrefix, NatToDecimal(id));
    assert IconUrl(id)[|IconApiPrefix|..] == NatToDecimal(id);
    ParseIdRoundTrip(id);
  }
}
