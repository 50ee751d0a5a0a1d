/** The Cloudinary service: where an upload reads its image from, the form it
    posts, the MIME type it guesses from the URI, the sequential batch
    upload that keeps going past failures, and the delivery and QR-code URLs.
    The configured cloud name and upload preset, the file read, the clock and
    random suffix of the public id, and the outcome of each HTTP request are
    parameters. */
module Cloudinary {
  import opened Types
  import opened Seqs
  import opened Strings
  import opened PhotoUtils
  import opened UriComponent

  // ------------------------------------------------------ local or remote

  /** `startsWith('file://') || startsWith('/')`: the image is a local file. */
  predicate IsLocalUri(uri: string)
    ensures IsLocalUri(uri) ==> uri != [] && (uri[0] == '/' || uri[0] == 'f')
  {
    StartsWith(uri, FilePrefix) || StartsWith(uri, "/")
  }

  /** The path `imageToBase64` reads a local image from: the URI itself when
      it already has the `file://` scheme, the absolute path behind
      `file://` otherwise. */
  function LocalFilePath(uri: string): (path: string)
    requires IsLocalUri(uri)
    ensures StartsWith(path, FilePrefix)
    ensures StartsWith(uri, FilePrefix) ==> path == uri
    ensures !StartsWith(uri, FilePrefix) ==> path == FilePrefix + uri
  {
    if StartsWith(uri, FilePrefix) then uri else FilePrefix + uri
  }

  /** Normalising twice changes nothing more. */
  lemma LocalFilePathIdempotent(uri: string)
    requires IsLocalUri(uri)
    ensures IsLocalUri(LocalFilePath(uri)) && LocalFilePath(LocalFilePath(uri)) == LocalFilePath(uri)
  {
  }

  /** A camera photo's URI is a local file read from that URI, and a bare
      absolute path is read from the same URI the camera would give it. */
  lemma CameraUrisAreLocal(path: string)
    requires StartsWith(path, "/")
    ensures IsLocalUri(PhotoFileToUri(path)) && LocalFilePath(PhotoFileToUri(path)) == PhotoFileToUri(path)
    ensures IsLocalUri(path) && LocalFilePath(path) == PhotoFileToUri(path)
  {
    assert path[0] == '/' && FilePrefix[0] == 'f';
  }

  // ------------------------------------------------------ MIME type

  datatype MimeType = ImagePng | ImageJpeg | ImageGif | ImageWebp

  function MimeName(m: MimeType): (name: string)
    ensures StartsWith(name, "image/")
  {
    match m
    case ImagePng => "image/png"
    case ImageJpeg => "image/jpeg"
    case ImageGif => "image/gif"
    case ImageWebp => "image/webp"
  }

  /** `detectImageMimeType`: the first of `.png`, `.jpg` or `.jpeg`, `.gif`,
      `.webp` found anywhere in the lower-cased URI decides; PNG when none
      is. */
  function DetectImageMimeType(uri: string): (m: MimeType)
    ensures Contains(LowerAscii(uri), ".png") ==> m == ImagePng
    ensures m == ImageJpeg ==> Contains(LowerAscii(uri), ".jpg") || Contains(LowerAscii(uri), ".jpeg")
    ensures m == ImageGif ==> Contains(LowerAscii(uri), ".gif")
    ensures m == ImageWebp ==> Contains(LowerAscii(uri), ".webp")
    ensures var l := LowerAscii(uri);
      !Contains(l, ".png") && (Contains(l, ".jpg") || Contains(l, ".jpeg")) ==> m == ImageJpeg
    ensures var l := LowerAscii(uri);
      !Contains(l, ".png") && !Contains(l, ".jpg") && !Contains(l, ".jpeg") && Contains(l, ".gif") ==> m == ImageGif
    ensures var l := LowerAscii(uri);
      (!Contains(l, ".png") && !Contains(l, ".jpg") && !Contains(l, ".jpeg") && !Contains(l, ".gif")
       && Contains(l, ".webp")) ==> m == ImageWebp
    ensures var l := LowerAscii(uri);
      (!Contains(l, ".png") && !Contains(l, ".jpg") && !Contains(l, ".jpeg") && !Contains(l, ".gif")
       && !Contains(l, ".webp")) ==> m == ImagePng
  {
    var lower := LowerAscii(uri);
    if Contains(lower, ".png") then ImagePng
    else if Contains(lower, ".jpg") || Contains(lower, ".jpeg") then ImageJpeg
    else if Contains(lower, ".gif") then ImageGif
    else if Contains(lower, ".webp") then ImageWebp
    else ImagePng
  }

  /** What the extension of a name with a single dot says: how the
      lower-cased extension begins. */
  function MimeForExtension(ext: string): MimeType {
    if StartsWith(ext, "png") then ImagePng
    else if StartsWith(ext, "jpg") || StartsWith(ext, "jpeg") then ImageJpeg
    else if StartsWith(ext, "gif") then ImageGif
    else if StartsWith(ext, "webp") then ImageWebp
    else ImagePng
  }

  /** In a string whose only dot is at `k`, a pattern that begins with a dot
      occurs exactly when the rest of the pattern begins the text after the
      dot. */
  lemma DottedPattern(l: string, k: nat, p: string)
    requires k < |l| && l[k] == '.' && forall j :: 0 <= j < |l| && j != k ==> l[j] != '.'
    requires |p| >= 1 && p[0] == '.'
    ensures Contains(l, p) <==> StartsWith(l[k + 1..], p[1..])
  {
    if Contains(l, p) {
      var i := ContainsWitness(l, p);
      assert l[i] == p[0];
      assert l[k + 1..][..|p| - 1] == p[1..] by {
        assert l[i..i + |p|][1..] == p[1..];
      }
    }
    if StartsWith(l[k + 1..], p[1..]) {
      assert l[k..k + |p|] == [l[k]] + l[k + 1..][..|p| - 1];
      ContainsAt(l, p, k);
    }
  }

  /** For a name `base.ext` with no other dot, the MIME type is what the
      lower-cased extension begins with, whatever the case of the name. */
  lemma MimeOfSingleDotName(base: string, ext: string)
    requires '.' !in base && '.' !in ext
    ensures DetectImageMimeType(base + "." + ext) == MimeForExtension(LowerAscii(ext))
  {
    var name := base + "." + ext;
    var l := LowerAscii(name);
    var k := |base|;
    assert name[k] == '.';
    forall j | 0 <= j < |l| && j != k ensures l[j] != '.' {
      if j < k { assert name[j] == base[j]; } else { assert name[j] == ext[j - k - 1]; }
    }
    assert l[k + 1..] == LowerAscii(ext) by {
      forall j | 0 <= j < |ext| ensures l[k + 1..][j] == LowerAscii(ext)[j] {
        assert name[k + 1 + j] == ext[j];
      }
    }
    DottedPattern(l, k, ".png");
    DottedPattern(l, k, ".jpg");
    DottedPattern(l, k, ".jpeg");
    DottedPattern(l, k, ".gif");
    DottedPattern(l, k, ".webp");
  }

  /** An upper-case extension is recognised: `photo.JPG` is sent as JPEG. */
  lemma UpperCaseJpgIsJpeg()
    ensures DetectImageMimeType("photo.JPG") == ImageJpeg
  {
    assert "photo.JPG" == "photo" + "." + "JPG";
    MimeOfSingleDotName("photo", "JPG");
    var e := LowerAscii("JPG");
    assert e[0] == 'j' && e[1] == 'p' && e[2] == 'g';
    assert e == "jpg";
    assert !StartsWith(e, "png") && StartsWith(e, "jpg");
  }

  /** The first pattern in the order of the checks wins, not the last
      extension: `a.png.jpg` is sent as PNG. */
  lemma EarlierPatternWins()
    ensures DetectImageMimeType("a.png.jpg") == ImagePng
  {
    var l := LowerAscii("a.png.jpg");
    assert l == "a.png.jpg";
    assert l[1..5] == ".png";
    ContainsAt(l, ".png", 1);
  }

  // ------------------------------------------------------ upload request

  /** What an upload posts: the endpoint, the `file` field, the
      `upload_preset` field (sent only when a preset is configured), the
      folder and the public id. */
  datatype UploadForm = UploadForm(endpoint: string, file: string, uploadPreset: Option<string>, folder: string, publicId: string)

  const DefaultFolder := "hub_photo_booth"

  function UploadEndpoint(cloudName: string): (url: string)
    ensures StartsWith(url, "https://api.cloudinary.com/v1_1/")
  {
    "https://api.cloudinary.com/v1_1/" + cloudName + "/image/upload"
  }

  /** `photo_${Date.now()}_${random}`: the clock and the random suffix are
      inputs. */
  function PublicId(now: Timestamp, suffix: string): (id: string)
    ensures StartsWith(id, "photo_")
  {
    "photo_" + IntToDecimal(now) + "_" + suffix
  }

  /** `uploadImage`: a local image is posted as a data URL of its base64
      content (`base64` is what the file read returned) with the guessed
      MIME type; a remote one is posted as its URL. The preset is sent only
      when it is not empty. */
  function BuildUploadForm(cloudName: string, preset: string, imageUri: string, folder: string, base64: string, publicId: string): (f: UploadForm)
    ensures f.endpoint == UploadEndpoint(cloudName) && f.folder == folder && f.publicId == publicId
    ensures f.uploadPreset.Some? <==> preset != ""
    ensures f.uploadPreset.Some? ==> f.uploadPreset.value == preset
    ensures IsLocalUri(imageUri) ==> f.file == "data:" + MimeName(DetectImageMimeType(imageUri)) + ";base64," + base64
    ensures !IsLocalUri(imageUri) ==> f.file == imageUri
  {
    var file := if IsLocalUri(imageUri) then "data:" + MimeName(DetectImageMimeType(imageUri)) + ";base64," + base64 else imageUri;
    UploadForm(UploadEndpoint(cloudName), file, if preset != "" then Some(preset) else None, folder, publicId)
  }

  /** A local image is always sent as an image data URL. */
  lemma LocalUploadsAreDataUrls(cloudName: string, preset: string, imageUri: string, folder: string, base64: string, publicId: string)
    requires IsLocalUri(imageUri)
    ensures StartsWith(BuildUploadForm(cloudName, preset, imageUri, folder, base64, publicId).file, "data:image/")
  {
    var mime := MimeName(DetectImageMimeType(imageUri));
    var file := "data:" + mime + ";base64," + base64;
    assert file[..11] == "data:" + mime[..6];
  }

  /** The folder of a batch upload: `UPLOAD_PRESET || 'hub_photo_booth'`. */
  function BatchFolder(preset: string): (folder: string)
    ensures folder != ""
    ensures preset != "" ==> folder == preset
    ensures preset == "" ==> folder == DefaultFolder
  {
    if preset != "" then preset else DefaultFolder
  }

  /** The fields of a successful upload's response that the app reads. */
  datatype UploadResult = UploadResult(url: string, publicId: string, secureUrl: string, width: int, height: int)

  /** `uploadMultipleImages`: the images are uploaded one after another; a
      failed upload (`None` in `outcomes`, the outcome of the i-th request) is
      skipped, and the results are the successes in order. */
  method UploadMultipleImages(imageUris: seq<string>, outcomes: seq<Option<UploadResult>>) returns (results: seq<UploadResult>)
    requires |outcomes| == |imageUris|
    ensures results == GetSelectedPhotos(outcomes)
    ensures |results| <= |imageUris|
  {
    results := [];
    var i := 0;
    while i < |imageUris|
      invariant 0 <= i <= |imageUris|
      invariant results == GetSelectedPhotos(outcomes[..i])
    {
      assert outcomes[..i + 1] == outcomes[..i] + [outcomes[i]];
      GetSelectedPhotosSnoc(outcomes[..i], outcomes[i]);
      if outcomes[i].Some? {
        results := results + [outcomes[i].value];
      }
      i := i + 1;
    }
    assert outcomes[..i] == outcomes;
  }

  /** When every upload succeeds, every image has its result, in order. */
  lemma AllUploadsSucceed(outcomes: seq<Option<UploadResult>>)
    requires forall i :: 0 <= i < |outcomes| ==> outcomes[i].Some?
    ensures var results := GetSelectedPhotos(outcomes);
      |results| == |outcomes| && forall i :: 0 <= i < |outcomes| ==> results[i] == outcomes[i].value
  {
    FullSlotsSelected(outcomes);
  }

  // ------------------------------------------------------ delivery URLs

  const DefaultWidth := 1500
  const DefaultQuality := 80

  /** `options?.x || d`: an absent option or zero gives the default. */
  function OrDefault(option: Option<int>, d: int): (v: int)
    ensures option.Some? && option.value != 0 ==> v == option.value
    ensures !(option.Some? && option.value != 0) ==> v == d
  {
    if option.Some? && option.value != 0 then option.value else d
  }

  const DeliveryBase := "https://res.cloudinary.com/"

  /** `generateImageUrl`: the delivery URL
      `{base}{cloud}/image/upload/w_{width},q_{quality},f_auto/{publicId}`,
      resized and re-encoded by that transformation. */
  function GenerateImageUrl(cloudName: string, publicId: string, width: Option<int>, quality: Option<int>): (url: string)
    ensures StartsWith(url, DeliveryBase + cloudName + "/image/upload/w_")
  {
    (DeliveryBase + cloudName + "/image/upload/w_")
      + (IntToDecimal(OrDefault(width, DefaultWidth))
      + (",q_" + (IntToDecimal(OrDefault(quality, DefaultQuality)) + (",f_auto/" + publicId))))
  }

  /** Leaving out an option, or passing zero, is the same as asking for
      1500 pixels at quality 80. */
  lemma ImageUrlDefaults(cloudName: string, publicId: string, width: Option<int>, quality: Option<int>)
    requires width.None? || width == Some(0)
    requires quality.None? || quality == Some(0)
    ensures GenerateImageUrl(cloudName, publicId, width, quality)
         == GenerateImageUrl(cloudName, publicId, Some(DefaultWidth), Some(DefaultQuality))
  {
  }

  /** No comma in a printed integer. */
  lemma DecimalHasNoComma(n: int)
    ensures ',' !in IntToDecimal(n)
  {
    var d := NatToDecimal(if n >= 0 then n else -n);
    assert forall k :: 0 <= k < |d| ==> IsDigit(d[k]);
    if n < 0 {
      assert forall k :: 1 <= k < |IntToDecimal(n)| ==> IntToDecimal(n)[k] == d[k - 1];
    }
  }

  /** A printed integer followed by a field that starts with a comma: the
      integer and the rest of the field can be read back. */
  lemma NumberBeforeField(n1: int, x1: string, n2: int, x2: string, field: string)
    requires |field| >= 1 && field[0] == ','
    requires IntToDecimal(n1) + (field + x1) == IntToDecimal(n2) + (field + x2)
    ensures n1 == n2 && x1 == x2
  {
    var name := field[1..];
    FirstAndRest(field, x1);
    FirstAndRest(field, x2);
    DecimalHasNoComma(n1);
    DecimalHasNoComma(n2);
    SplitAtSeparator(IntToDecimal(n1), name + x1, IntToDecimal(n2), name + x2, ',');
    IntToDecimalInjective(n1, n2);
    CancelPrefix(name, x1, x2);
  }

  /** The URL determines the effective width, the effective quality and the
      public id: two calls give the same URL only when they agree on all
      three. */
  lemma ImageUrlDeterminesOptions(cloudName: string, id1: string, w1: Option<int>, q1: Option<int>,
                                  id2: string, w2: Option<int>, q2: Option<int>)
    requires GenerateImageUrl(cloudName, id1, w1, q1) == GenerateImageUrl(cloudName, id2, w2, q2)
    ensures OrDefault(w1, DefaultWidth) == OrDefault(w2, DefaultWidth)
    ensures OrDefault(q1, DefaultQuality) == OrDefault(q2, DefaultQuality)
    ensures id1 == id2
  {
    var width1, width2 := OrDefault(w1, DefaultWidth), OrDefault(w2, DefaultWidth);
    var quality1, quality2 := OrDefault(q1, DefaultQuality), OrDefault(q2, DefaultQuality);
    var tail1 := IntToDecimal(quality1) + (",f_auto/" + id1);
    var tail2 := IntToDecimal(quality2) + (",f_auto/" + id2);
    CancelPrefix(DeliveryBase + cloudName + "/image/upload/w_",
                 IntToDecimal(width1) + (",q_" + tail1), IntToDecimal(width2) + (",q_" + tail2));
    NumberBeforeField(width1, tail1, width2, tail2, ",q_");
    NumberBeforeField(quality1, id1, quality2, id2, ",f_auto/");
  }

  const QrBase := "https://hubworship.ing/hub4cut?url="

  /** `generateQRImageUrl`: the hub4cut page with the image URL as its
      percent-encoded `url` parameter. */
  function GenerateQRImageUrl(secureUrl: string): (url: string)
    ensures StartsWith(url, QrBase)
    ensures UriSafe(url[|QrBase|..])
  {
    QrBase + EncodeURIComponent(secureUrl)
  }

  /** The page reads back exactly the URL that was encoded. */
  lemma QrUrlRoundTrip(secureUrl: string)
    ensures DecodeURIComponent(GenerateQRImageUrl(secureUrl)[|QrBase|..]) == Some(secureUrl)
  {
    assert GenerateQRImageUrl(secureUrl)[|QrBase|..] == EncodeURIComponent(secureUrl);
    DecodeEncode(secureUrl);
  }

  /** The encoded value cannot end the `url` parameter early: no `&` or `#`
      follows the base. */
  lemma QrUrlHasOneParameter(secureUrl: string)
    ensures var value := GenerateQRImageUrl(secureUrl)[|QrBase|..];
      '&' !in value && '#' !in value
  {
    UriSafeHasNoDelimiters(GenerateQRImageUrl(secureUrl)[|QrBase|..]);
  }
}
