/** The decisions `process_image` makes about a thumbnail
    (download_audio.py:25-55): the MIME type, the format the cropped image is
    saved in, and the centred square crop box. Fetching, decoding, cropping
    and encoding pixels are done by libraries and enter as inputs. */
module Cover {
  import opened Strings
  import opened Wrappers

  type Bytes = seq<bv8>

  /** What the image library reports about the decoded thumbnail. `format` is
      `None` when the library could not name the format. */
  datatype Decoded = Decoded(format: Option<string>, width: nat, height: nat)

  /** The network fetch and decode: `Fetched` when `requests.get`,
      `raise_for_status` and `Image.open` all succeeded. */
  datatype Fetch = FetchFailed | Fetched(image: Decoded)

  /** The crop box `(left, top, right, bottom)`; Python's `/` gives exact halves. */
  datatype Box = Box(left: real, top: real, right: real, bottom: real)

  /** `process_image`'s result: `(mime_type, image_data)` or `(None, None)`. */
  datatype Processed = NoImage | Image(mime: string, data: Bytes)

  /** The crop plan for one thumbnail. */
  datatype Plan = Plan(convertToRgb: bool, mime: string, box: Box, saveFormat: string)

  function Min(a: nat, b: nat): nat {
    if a <= b then a else b
  }

  /** The centred square: its sides are `min(w, h)`, it lies inside the image
      and its centre is the image's centre. */
  function CropBox(w: nat, h: nat): (b: Box)
    ensures b.right - b.left == Min(w, h) as real && b.bottom - b.top == Min(w, h) as real
    ensures 0.0 <= b.left && b.right <= w as real && 0.0 <= b.top && b.bottom <= h as real
    ensures b.left + b.right == w as real && b.top + b.bottom == h as real
  {
    var m := Min(w, h);
    Box((w - m) as real / 2.0, (h - m) as real / 2.0, (w + m) as real / 2.0, (h + m) as real / 2.0)
  }

  /** A square thumbnail is left as it is. */
  lemma SquareCropIsWhole(w: nat)
    ensures CropBox(w, w) == Box(0.0, 0.0, w as real, w as real)
  {
  }

  /** With landscape input the box spans the full height; with portrait
      input the full width. */
  lemma CropKeepsShorterSide(w: nat, h: nat)
    ensures h <= w ==> CropBox(w, h).top == 0.0 && CropBox(w, h).bottom == h as real
    ensures w <= h ==> CropBox(w, h).left == 0.0 && CropBox(w, h).right == w as real
  {
  }

  /** The MIME type: webp thumbnails become JPEG, every other format keeps its
      own lower-cased name. */
  function MimeFor(format: string): string {
    if Lower(format) == "webp" then "image/jpeg" else "image/" + Lower(format)
  }

  lemma MimeRule(format: string)
    ensures Lower(format) == "webp" ==> MimeFor(format) == "image/jpeg"
    ensures Lower(format) != "webp" ==> MimeFor(format) == "image/" + Lower(format)
    ensures StartsWith(MimeFor(format), "image/")
  {
    assert ("image/" + Lower(format))[..6] == "image/";
  }

  /** The save format as it should be: JPEG for a JPEG MIME type, otherwise
      the format the thumbnail was decoded from. */
  function SaveFormat(mime: string, sourceFormat: string): string {
    if mime == "image/jpeg" then "JPEG" else sourceFormat
  }

  /** The thumbnail is saved as JPEG exactly when its MIME type is
      `image/jpeg`. */
  lemma SaveFormatJpegIffJpegMime(format: string)
    ensures SaveFormat(MimeFor(format), format) == "JPEG" <==> MimeFor(format) == "image/jpeg"
  {
  }

  /** The plan for a decoded thumbnail; a thumbnail without a format name
      fails at `image.format.lower()`. A webp thumbnail is converted to RGB,
      typed `image/jpeg` and saved as JPEG; every plan crops the centred
      square. The conversion, the box and the save format are handed to the
      image library, whose output enters `ProcessImage` as `encoded`, so of
      the plan only the MIME type reaches the result. */
  function PlanFor(image: Decoded): (p: Option<Plan>)
    ensures p.Some? <==> image.format.Some?
    ensures p.Some? ==> p.value.box == CropBox(image.width, image.height)
    ensures p.Some? ==> (p.value.convertToRgb <==> Lower(image.format.value) == "webp")
    ensures p.Some? && p.value.convertToRgb ==> p.value.mime == "image/jpeg" && p.value.saveFormat == "JPEG"
    ensures p.Some? ==> (p.value.saveFormat == "JPEG" <==> p.value.mime == "image/jpeg")
  {
    match image.format
    case None => None
    case Some(f) =>
      var webp := Lower(f) == "webp";
      var mime := MimeFor(f);
      Some(Plan(webp, mime, CropBox(image.width, image.height), SaveFormat(mime, f)))
  }

  /** `process_image`: `encoded` is what the encoder produced for the plan, or
      `None` when encoding raised. Any failure gives `(None, None)`. */
  function ProcessImage(fetch: Fetch, encoded: Option<Bytes>): (r: Processed)
    ensures r.Image? <==> fetch.Fetched? && fetch.image.format.Some? && encoded.Some?
    ensures r.Image? ==> r.mime == MimeFor(fetch.image.format.value) && r.data == encoded.value
  {
    match fetch
    case FetchFailed => NoImage
    case Fetched(image) =>
      match PlanFor(image)
      case None => NoImage
      case Some(plan) =>
        match encoded
        case None => NoImage
        case Some(data) => Image(plan.mime, data)
  }

  /** As written, line 49 passes `image.format` of the image after it was
      reassigned to the crop result. The image library gives images it derives
      (by `convert` or `crop`) no format, so that argument is `None`. */
  function SaveFormatAsWritten(mime: string): Option<string> {
    if mime == "image/jpeg" then Some("JPEG") else None
  }

  /** `process_image` as written: saving with no format into a buffer that has
      no file name raises, so every thumbnail whose MIME type is not JPEG is
      dropped. */
  function ProcessImageAsWritten(fetch: Fetch, encoded: Option<Bytes>): (r: Processed)
    ensures r.Image? <==> && fetch.Fetched? && fetch.image.format.Some?
                          && MimeFor(fetch.image.format.value) == "image/jpeg" && encoded.Some?
    ensures r.Image? ==> r.mime == "image/jpeg" && r.data == encoded.value
  {
    match fetch
    case FetchFailed => NoImage
    case Fetched(image) =>
      match image.format
      case None => NoImage
      case Some(f) =>
        match SaveFormatAsWritten(MimeFor(f))
        case None => NoImage
        case Some(_) =>
          match encoded
          case None => NoImage
          case Some(data) => Image(MimeFor(f), data)
  }

  /** A PNG thumbnail gets no cover as written, and gets one when the source
      format is used for saving. */
  lemma PngThumbnailDroppedAsWritten(data: Bytes)
    ensures ProcessImageAsWritten(Fetched(Decoded(Some("PNG"), 640, 480)), Some(data)) == NoImage
    ensures ProcessImage(Fetched(Decoded(Some("PNG"), 640, 480)), Some(data)) == Image("image/png", data)
  {
    var l := Lower("PNG");
    assert l == "png" by {
      assert l[0] == 'p' && l[1] == 'n' && l[2] == 'g';
    }
    assert MimeFor("PNG") == "image/png";
  }

  /** Both versions agree on webp and JPEG thumbnails. */
  lemma AsWrittenAgreesOnJpeg(fetch: Fetch, encoded: Option<Bytes>)
    requires fetch.Fetched? && fetch.image.format.Some?
    requires MimeFor(fetch.image.format.value) == "image/jpeg"
    ensures ProcessImageAsWritten(fetch, encoded) == ProcessImage(fetch, encoded)
  {
  }
}
