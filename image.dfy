/** Turning a serialised image blob into a displayable data URL (src/utils/image.ts). */
module Image {
  import opened Wrappers
  import opened Text
  import opened RecipeTypes

  const DataUrlPrefix := "data:image/jpeg;base64,"

  /** The base64 text a blob carries: the single string, or the chunks joined with no separator. */
  function Payload(data: BinaryData): (r: string)
    ensures data.Base64? ==> r == data.text
    ensures data.Chunks? ==> (r == "" <==> forall i :: 0 <= i < |data.parts| ==> data.parts[i] == "")
  {
    match data
    case Base64(text) => text
    case Chunks(parts) => ConcatEmpty(parts); Concat(parts)
  }

  /**
   * `binaryToDataUrl`: no URL when the data is absent or its payload is empty;
   * otherwise exactly the JPEG data-URL prefix followed by the payload.
   */
  function BinaryToDataUrl(b: Binary): (r: Option<string>)
    ensures r.None? <==> b.data.None? || Payload(b.data.value) == ""
    ensures r.Some? ==> DataUrlPayload(r.value) == Some(Payload(b.data.value))
  {
    if b.data.None? || b.data.value == Base64("") then None
    else
      var b64 := Payload(b.data.value);
      if b64 == "" then None
      else
        var url := DataUrlPrefix + b64;
        assert url[..|DataUrlPrefix|] == DataUrlPrefix;
        assert url[|DataUrlPrefix|..] == b64;
        Some(url)
  }

  /** Strips the data-URL prefix: the inverse of building the URL. */
  function DataUrlPayload(url: string): (r: Option<string>)
    ensures r.Some? ==> url == DataUrlPrefix + r.value
  {
    if |url| >= |DataUrlPrefix| && url[..|DataUrlPrefix|] == DataUrlPrefix
    then Some(url[|DataUrlPrefix|..])
    else None
  }

  /** Any non-empty base64 string becomes a URL whose payload is that string again. */
  lemma DataUrlRoundTrip(t: Option<BinaryType>, b64: string)
    requires b64 != ""
    ensures BinaryToDataUrl(Binary(t, Some(Base64(b64)))) == Some(DataUrlPrefix + b64)
    ensures DataUrlPayload(DataUrlPrefix + b64) == Some(b64)
  {
  }

  /** Absent data and the empty string give no URL. */
  lemma NoDataNoUrl(t: Option<BinaryType>)
    ensures BinaryToDataUrl(Binary(t, None)) == None
    ensures BinaryToDataUrl(Binary(t, Some(Base64("")))) == None
  {
  }

  /** A chunked blob decodes exactly like the single string made by joining its chunks in order. */
  lemma ChunksEqualJoined(t: Option<BinaryType>, parts: seq<string>)
    ensures BinaryToDataUrl(Binary(t, Some(Chunks(parts))))
         == BinaryToDataUrl(Binary(t, Some(Base64(Concat(parts)))))
  {
  }

  /** Regrouping the chunks changes nothing: chunk boundaries carry no meaning. */
  lemma ChunkBoundariesIrrelevant(t: Option<BinaryType>, a: seq<string>, b: seq<string>)
    ensures BinaryToDataUrl(Binary(t, Some(Chunks(a + b))))
         == BinaryToDataUrl(Binary(t, Some(Chunks([Concat(a) + Concat(b)]))))
  {
    ConcatAppend(a, b);
    assert Concat([Concat(a) + Concat(b)]) == Concat(a) + Concat(b);
  }

  /** The worked example: ["Zm9v", "YmFy"] decodes like "Zm9vYmFy". */
  lemma ChunkExample(t: Option<BinaryType>)
    ensures BinaryToDataUrl(Binary(t, Some(Chunks(["Zm9v", "YmFy"]))))
         == BinaryToDataUrl(Binary(t, Some(Base64("Zm9vYmFy"))))
         == Some("data:image/jpeg;base64,Zm9vYmFy")
  {
    var parts := ["Zm9v", "YmFy"];
    assert parts[1..] == ["YmFy"];
    assert ["YmFy"][1..] == [];
    assert Concat(parts) == "Zm9v" + "YmFy" == "Zm9vYmFy";
    assert DataUrlPrefix + "Zm9vYmFy" == "data:image/jpeg;base64,Zm9vYmFy";
  }

  /** An empty chunk list, or one whose chunks are all empty, gives no URL. */
  lemma EmptyChunksNoUrl(t: Option<BinaryType>, parts: seq<string>)
    requires forall i :: 0 <= i < |parts| ==> parts[i] == ""
    ensures BinaryToDataUrl(Binary(t, Some(Chunks(parts)))) == None
  {
    ConcatEmpty(parts);
  }

  /** `firstImageUrl`: the URL of the first image, nothing for an absent or empty list. */
  function FirstImageUrl(images: Option<seq<Binary>>): (r: Option<string>)
    ensures images.None? || images.value == [] ==> r.None?
    ensures images.Some? && images.value != [] ==> r == BinaryToDataUrl(images.value[0])
  {
    if images.None? || |images.value| == 0 then None
    else BinaryToDataUrl(images.value[0])
  }

  /** Images after the first never influence the result. */
  lemma FirstImageIgnoresRest(first: Binary, rest1: seq<Binary>, rest2: seq<Binary>)
    ensures FirstImageUrl(Some([first] + rest1)) == FirstImageUrl(Some([first] + rest2))
  {
  }
}
