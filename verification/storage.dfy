/** Upload validation, file naming and URL-to-path extraction for the
    three storage buckets (item media, avatars, repair photos). The
    transfers themselves (upload, removal, public-URL lookup) are effects
    of the storage service and are not part of this model; the clock and
    the random suffix of a file name are parameters. */
module Storage {
  import opened Basics
  import opened Text

  const ImageTypes: seq<string> := ["image/jpeg", "image/png", "image/gif", "image/webp"]
  const VideoTypes: seq<string> := ["video/mp4", "video/avi", "video/mov", "video/wmv", "video/mkv"]

  const MiB: nat := 1024 * 1024

  /** The `type` argument of `validateFile` and `uploadMultipleFiles`. */
  datatype MediaKind = ImageFile | VideoFile | AvatarFile

  /** The size limit in bytes: 5 MiB for avatars, 10 MiB for images,
      50 MiB for videos. */
  function MaxFileSize(k: MediaKind): (n: nat)
    ensures n == (if k == AvatarFile then 5 else if k == ImageFile then 10 else 50) * MiB
  {
    match k
    case AvatarFile => 5 * MiB
    case ImageFile => 10 * MiB
    case VideoFile => 50 * MiB
  }

  /** Avatars and images accept the image MIME types, videos the video ones. */
  function AllowedTypes(k: MediaKind): seq<string> {
    if k == VideoFile then VideoTypes else ImageTypes
  }

  /** What the model needs of a browser `File`. */
  datatype File = File(name: string, size: nat, mimeType: string)

  /** `{ valid, error? }`. */
  datatype Validation = Validation(valid: bool, error: Option<string>)

  function SizeError(k: MediaKind): string {
    "Le fichier est trop volumineux. Taille maximale: " + Decimal(MaxFileSize(k) / MiB) + "MB"
  }

  function TypeError(k: MediaKind): string {
    "Type de fichier non supporté. Types autorisés: " + Join(AllowedTypes(k), ", ")
  }

  /** A file is valid exactly when it is no larger than the limit (a file
      of exactly the limit passes) and its MIME type is allowed. The size
      is checked first, so an oversized file reports the size error
      whatever its type. */
  function ValidateFile(f: File, k: MediaKind): (v: Validation)
    ensures v.valid <==> f.size <= MaxFileSize(k) && f.mimeType in AllowedTypes(k)
    ensures v.valid <==> v.error.None?
    ensures f.size > MaxFileSize(k) ==> v.error == Some(SizeError(k))
    ensures f.size <= MaxFileSize(k) && f.mimeType !in AllowedTypes(k) ==> v.error == Some(TypeError(k))
  {
    if f.size > MaxFileSize(k) then Validation(false, Some(SizeError(k)))
    else if f.mimeType !in AllowedTypes(k) then Validation(false, Some(TypeError(k)))
    else Validation(true, None)
  }

  /** The size error names the limit in whole mebibytes. */
  lemma SizeErrorNamesLimit()
    ensures SizeError(AvatarFile) == "Le fichier est trop volumineux. Taille maximale: 5MB"
    ensures SizeError(ImageFile) == "Le fichier est trop volumineux. Taille maximale: 10MB"
    ensures SizeError(VideoFile) == "Le fichier est trop volumineux. Taille maximale: 50MB"
  {
  }

  // --------------------------------------------------------- file names

  /** `name.split('.').pop()`: the text after the last '.', or the whole
      name when it has none. */
  function Extension(name: string): (r: string)
    ensures '.' !in r
  {
    AfterLast(name, '.')
  }

  lemma ExtensionWithoutDot(name: string)
    requires '.' !in name
    ensures Extension(name) == name
  {
    AfterLastNoSep(name, '.');
  }

  /** `prefix ? prefix + '-' : ''`. */
  function PrefixPart(prefix: string): string {
    if prefix == "" then "" else prefix + "-"
  }

  /** `[prefix-]timestamp-random.ext`: the name starts with the prefix
      part and the timestamp and keeps the original extension. */
  function GenerateFileName(originalName: string, prefix: string, timestamp: nat, random: string): (r: string)
    ensures StartsWith(r, NameHead(prefix, timestamp))
    ensures Extension(r) == Extension(originalName)
  {
    DottedName(NameHead(prefix, timestamp), random, Extension(originalName));
    NameHead(prefix, timestamp) + random + "." + Extension(originalName)
  }

  /** A name made of a head, a middle and a dot-free extension starts with
      the head and has that extension. */
  lemma DottedName(head: string, middle: string, ext: string)
    requires '.' !in ext
    ensures StartsWith(head + middle + "." + ext, head)
    ensures Extension(head + middle + "." + ext) == ext
  {
    assert head + middle + "." + ext == (head + middle) + ['.'] + ext;
    AfterLastAppend(head + middle, '.', ext);
    assert (head + middle + "." + ext)[..|head|] == head;
  }

  /** The part of a generated name before the random suffix. */
  function NameHead(prefix: string, timestamp: nat): string {
    PrefixPart(prefix) + Decimal(timestamp) + "-"
  }

  /** A generated name keeps the original extension, and starts with the
      prefix and a dash, or with the timestamp and a dash when there is no
      prefix. */
  lemma GeneratedNameShape(originalName: string, prefix: string, timestamp: nat, random: string)
    ensures Extension(GenerateFileName(originalName, prefix, timestamp, random)) == Extension(originalName)
    ensures prefix != "" ==> StartsWith(GenerateFileName(originalName, prefix, timestamp, random), prefix + "-")
    ensures prefix == "" ==> StartsWith(GenerateFileName(originalName, prefix, timestamp, random), Decimal(timestamp) + "-")
  {
    var head := NameHead(prefix, timestamp);
    var ext := Extension(originalName);
    assert head + random + "." + ext == (head + random) + ['.'] + ext;
    AfterLastAppend(head + random, '.', ext);
    var p := if prefix == "" then Decimal(timestamp) + "-" else prefix + "-";
    HeadStartsWith(prefix, timestamp);
    StartsWithAppend(head, p, random);
    StartsWithAppend(head + random, p, ".");
    StartsWithAppend(head + random + ".", p, ext);
  }

  lemma HeadStartsWith(prefix: string, timestamp: nat)
    ensures prefix == "" ==> StartsWith(NameHead(prefix, timestamp), Decimal(timestamp) + "-")
    ensures prefix != "" ==> StartsWith(NameHead(prefix, timestamp), prefix + "-")
  {
    var d := Decimal(timestamp);
    if prefix == "" {
      assert PrefixPart(prefix) + d == d;
      assert NameHead(prefix, timestamp)[..|d + "-"|] == d + "-";
    } else {
      var p := prefix + "-";
      StartsWithAppend(p, p, d);
      StartsWithAppend(p + d, p, "-");
    }
  }

  // --------------------------------------------------------- batch upload

  /** One file of a batch with the clock reading and random suffix its
      name is generated from. */
  datatype Upload = Upload(file: File, timestamp: nat, random: string)

  predicate Acceptable(u: Upload, k: MediaKind) {
    ValidateFile(u.file, k).valid
  }

  /** `${folder}/${generateFileName(name, folder)}`: a path inside the
      folder that keeps the uploaded file's extension. */
  function UploadPath(folder: string, u: Upload): (r: string)
    ensures StartsWith(r, folder + "/")
    ensures Extension(r) == Extension(u.file.name)
  {
    DottedNameInFolder(folder + "/", NameHead(folder, u.timestamp) + u.random, Extension(u.file.name));
    folder + "/" + GenerateFileName(u.file.name, folder, u.timestamp, u.random)
  }

  /** Putting a dotted name under a directory keeps its extension. */
  lemma DottedNameInFolder(dir: string, stem: string, ext: string)
    requires '.' !in ext
    ensures StartsWith(dir + (stem + "." + ext), dir)
    ensures Extension(dir + (stem + "." + ext)) == ext
  {
    assert dir + (stem + "." + ext) == dir + stem + "." + ext;
    DottedName(dir, stem, ext);
  }

  /** The number of leading files that pass validation. */
  function FirstRejected(uploads: seq<Upload>, k: MediaKind): (i: nat)
    ensures i <= |uploads|
    ensures forall j :: 0 <= j < i ==> Acceptable(uploads[j], k)
    ensures i < |uploads| ==> !Acceptable(uploads[i], k)
  {
    if uploads == [] || !Acceptable(uploads[0], k) then 0
    else 1 + FirstRejected(uploads[1..], k)
  }

  /** `uploadMultipleFiles`: every file is validated; the batch fails with
      the error of the first invalid file in list order (its promise is
      the first to reject), and otherwise yields the stored path of every
      file, in order. */
  function UploadMultiple(uploads: seq<Upload>, folder: string, k: MediaKind): (r: Result<seq<string>, string>)
    ensures r.Success? <==> forall i :: 0 <= i < |uploads| ==> Acceptable(uploads[i], k)
    ensures r.Success? ==> |r.value| == |uploads|
    ensures r.Success? ==> forall i :: 0 <= i < |uploads| ==> r.value[i] == UploadPath(folder, uploads[i])
    ensures r.Failure? ==>
      var i := FirstRejected(uploads, k);
      i < |uploads| && ValidateFile(uploads[i].file, k).error == Some(r.error)
  {
    var i := FirstRejected(uploads, k);
    if i < |uploads| then Failure(ValidateFile(uploads[i].file, k).error.value)
    else Success(seq(|uploads|, j requires 0 <= j < |uploads| => UploadPath(folder, uploads[j])))
  }

  /** Every stored path sits in the folder and its file name carries the
      folder as prefix: `folder/folder-...`. */
  lemma UploadPathShape(folder: string, u: Upload)
    requires folder != ""
    ensures StartsWith(UploadPath(folder, u), folder + "/" + (folder + "-"))
  {
    GeneratedNameShape(u.file.name, folder, u.timestamp, u.random);
    StartsWithPrepend(folder + "/", GenerateFileName(u.file.name, folder, u.timestamp, u.random), folder + "-");
  }

  // ------------------------------------------------------------ URLs

  /** The public URL the storage service hands out for a path in a
      bucket: the bucket's base URL followed by the path. */
  function PublicUrl(bucketUrl: string, path: string): (r: string)
    ensures StartsWith(r, bucketUrl) && r[|bucketUrl|..] == path
  {
    bucketUrl + path
  }

  /** `extractFilePathFromUrl`: the remainder after the bucket's base URL
      when the URL starts with it, and otherwise the text after the last
      '/' (possibly empty). */
  function ExtractFilePathFromUrl(url: string, bucketUrl: string): (r: string)
    ensures StartsWith(url, bucketUrl) ==> bucketUrl + r == url
    ensures !StartsWith(url, bucketUrl) ==> '/' !in r && |r| <= |url| && r == url[|url| - |r|..]
  {
    if StartsWith(url, bucketUrl) then url[|bucketUrl|..] else AfterLast(url, '/')
  }

  /** The path is recovered from the public URL built for it. */
  lemma ExtractRoundTrip(bucketUrl: string, path: string)
    ensures ExtractFilePathFromUrl(PublicUrl(bucketUrl, path), bucketUrl) == path
  {
    var url := PublicUrl(bucketUrl, path);
    assert url[..|bucketUrl|] == bucketUrl;
    assert url[|bucketUrl|..] == path;
  }
}
