/** The client-side composer (src/composables/useImageProcess.ts): six reactive fields
    updated by the upload, process, download and reset operations. Object URLs are
    handles drawn from a counter (`URL.createObjectURL`) and released into a set of
    revoked URLs (`URL.revokeObjectURL`). */
module ImageComposer {
  import opened Wrappers
  import opened Numerals
  import opened ImageActions

  /** A File: its name, media type and bytes. */
  datatype File = File(name: string, mediaType: string, data: seq<bv8>)

  /** The Blob a fetch of the bundled placeholder image yields. */
  datatype Blob = Blob(mediaType: string, data: seq<bv8>)

  /** `UploadFile`: a file and the URL that previews it. */
  datatype UploadFile = UploadFile(file: File, url: string)

  /** `ProcessResult`: success with the result's URL, or failure with a message. */
  datatype ProcessResult = ProcessResult(success: bool, url: Option<string>, error: Option<string>)

  /** What downloadImage does: nothing (an alert), or a save of `href` under `fileName`. */
  datatype Download = NothingToDownload | Save(href: string, fileName: string)

  /** The URL the bundler gives the finished-image asset. */
  const FinishImageUrl := "/assets/finish.png"
  const DefaultImageName := "test.png"
  const DefaultImageError := "默认图片加载失败，请上传图片后重试"
  const ProcessFailurePrefix := "处理失败："
  const DefaultDownloadName := "processed-image"

  // ---------------------------------------------------------------------------
  // Object URLs
  // ---------------------------------------------------------------------------

  /** The URL of the object URL handle numbered `handle`. */
  function BlobUrl(handle: nat): string {
    "blob:" + NatToDecimal(handle)
  }

  /** The URLs of the first `n` handles. */
  function Issued(n: nat): set<string> {
    set k: nat | k < n :: BlobUrl(k)
  }

  lemma BlobUrlInjective(m: nat, n: nat)
    ensures BlobUrl(m) == BlobUrl(n) <==> m == n
  {
    if BlobUrl(m) == BlobUrl(n) {
      assert BlobUrl(m)[5..] == NatToDecimal(m);
      assert BlobUrl(n)[5..] == NatToDecimal(n);
      DecimalInjective(m, n);
    }
  }

  /** Handle `n` has a URL no earlier handle has, and no asset URL. */
  lemma BlobUrlFresh(n: nat)
    ensures BlobUrl(n) !in Issued(n)
    ensures BlobUrl(n) != FinishImageUrl
    ensures Issued(n + 1) == Issued(n) + {BlobUrl(n)}
  {
    forall k: nat | k < n ensures BlobUrl(k) != BlobUrl(n) {
      BlobUrlInjective(k, n);
    }
    assert BlobUrl(n)[0] == 'b';
  }

  // ---------------------------------------------------------------------------
  // The download file name
  // ---------------------------------------------------------------------------

  /** `s.split(sep)[0]`: the text before the first `sep`, or all of `s`. */
  function BeforeFirst(s: string, sep: char): (h: string)
    ensures |h| <= |s| && h == s[..|h|]
    ensures sep !in h
    ensures |h| < |s| ==> s[|h|] == sep
  {
    if s == [] || s[0] == sep then [] else [s[0]] + BeforeFirst(s[1..], sep)
  }

  /** `s.split(sep)[1]`: the text between the first and the second `sep`, or undefined
      when `sep` does not occur. */
  function SecondField(s: string, sep: char): (f: Option<string>)
    ensures f.None? <==> sep !in s
    ensures f.Some? ==> sep !in f.value && forall c :: c in f.value ==> c in s
  {
    var i := |BeforeFirst(s, sep)|;
    if i == |s| then None
    else
      var f := BeforeFirst(s[i + 1..], sep);
      assert forall c :: c in f ==> c in s[i + 1..];
      Some(f)
  }

  /** The extension downloadImage gives the file: the part after the first "/" of the
      part before the first ";" of the URL (the subtype of a data URL's media type),
      "png" when that part is missing or empty. */
  function DownloadExtension(url: string): (ext: string)
    ensures ext != "" && ';' !in ext && '/' !in ext
  {
    var f := SecondField(BeforeFirst(url, ';'), '/');
    if f.Some? && f.value != "" then f.value else "png"
  }

  lemma {:induction false} BeforeFirstAppend(a: string, b: string, sep: char)
    requires sep !in a
    ensures BeforeFirst(a + b, sep) == a + BeforeFirst(b, sep)
  {
    if a != [] {
      assert (a + b)[1..] == a[1..] + b;
      BeforeFirstAppend(a[1..], b, sep);
    } else {
      assert a + b == b;
    }
  }

  /** The first `sep` of `s` is where `s.split(sep)[0]` ends. */
  lemma FirstSeparatorAt(s: string, sep: char, i: nat)
    requires i < |s| && s[i] == sep && sep !in s[..i]
    ensures |BeforeFirst(s, sep)| == i
  {
  }

  /** The rule of downloadImage for every URL: with `b` the text before the first ";",
      a URL whose `b` has no "/" is saved as "png"; otherwise the extension is the text
      between the first and the second "/" of `b`, or "png" when that text is empty. */
  lemma DownloadExtensionRule(url: string)
    ensures var b := BeforeFirst(url, ';');
      ('/' !in b ==> DownloadExtension(url) == "png") &&
      (forall i :: 0 <= i < |b| && b[i] == '/' && '/' !in b[..i] ==>
         DownloadExtension(url) ==
           if BeforeFirst(b[i + 1..], '/') != "" then BeforeFirst(b[i + 1..], '/') else "png")
  {
    var b := BeforeFirst(url, ';');
    forall i | 0 <= i < |b| && b[i] == '/' && '/' !in b[..i]
      ensures DownloadExtension(url) ==
                if BeforeFirst(b[i + 1..], '/') != "" then BeforeFirst(b[i + 1..], '/') else "png"
    {
      FirstSeparatorAt(b, '/', i);
    }
  }

  /** An absolute URL `<scheme>//<rest>` (an object URL `blob:https://host/<uuid>`, an
      `https://host/x.png` address) is saved as "png": the text between its first two
      "/" is empty. */
  lemma SchemeUrlExtension(scheme: string, rest: string)
    requires '/' !in scheme && ';' !in scheme
    ensures DownloadExtension(scheme + "//" + rest) == "png"
  {
    var url := scheme + "//" + rest;
    var head := scheme + "//";
    assert ';' !in head by {
      assert ';' !in "//";
    }
    BeforeFirstAppend(head, rest, ';');
    var b := BeforeFirst(url, ';');
    assert b == head + BeforeFirst(rest, ';');
    var i := |scheme|;
    assert b[i] == '/' && b[..i] == scheme;
    assert b[i + 1..][0] == '/';
    assert BeforeFirst(b[i + 1..], '/') == "";
    DownloadExtensionRule(url);
  }

  /** For a data URL `data:<type>/<subtype>;…` the extension is the subtype. */
  lemma DataUrlExtension(mediaType: string, subtype: string, rest: string)
    requires '/' !in mediaType && ';' !in mediaType
    requires '/' !in subtype && ';' !in subtype && subtype != ""
    ensures DownloadExtension("data:" + mediaType + "/" + subtype + ";" + rest) == subtype
  {
    var head := "data:" + mediaType;
    var beforeSemicolon := head + "/" + subtype;
    var url := beforeSemicolon + ";" + rest;
    assert url == "data:" + mediaType + "/" + subtype + ";" + rest;
    assert ';' !in beforeSemicolon by {
      assert ';' !in "data:";
      assert ';' !in "/" + subtype;
    }
    BeforeFirstAppend(beforeSemicolon, ";" + rest, ';');
    assert beforeSemicolon + (";" + rest) == url;
    assert BeforeFirst(url, ';') == beforeSemicolon;
    assert '/' !in head by {
      assert '/' !in "data:";
    }
    BeforeFirstAppend(head, "/" + subtype, '/');
    assert head + ("/" + subtype) == beforeSemicolon;
    assert BeforeFirst(beforeSemicolon, '/') == head;
    assert beforeSemicolon[|head| + 1..] == subtype;
    BeforeFirstAppend(subtype, [], '/');
    assert subtype + [] == subtype;
  }

  /** A URL with no "/" before its first ";" (an object URL of this model, for one)
      is saved as "png". */
  lemma NoSlashExtension(url: string)
    requires '/' !in BeforeFirst(url, ';')
    ensures DownloadExtension(url) == "png"
  {
  }

  lemma BlobUrlExtension(n: nat)
    ensures DownloadExtension(BlobUrl(n)) == "png"
  {
    var s := BlobUrl(n);
    assert forall i :: 0 <= i < |s| ==> s[i] != '/' by {
      assert forall i :: 5 <= i < |s| ==> s[i] == NatToDecimal(n)[i - 5];
    }
    NoSlashExtension(s);
  }

  /** A root-relative path `/<segment>/<rest>` without ";" is saved under its first
      path segment: the finished image at "/assets/finish.png" downloads with the
      extension "assets". */
  lemma PathUrlExtension(segment: string, rest: string)
    requires '/' !in segment && ';' !in segment && segment != ""
    requires ';' !in rest
    ensures DownloadExtension("/" + segment + "/" + rest) == segment
  {
    var tail := segment + "/" + rest;
    var url := "/" + tail;
    assert url == "/" + segment + "/" + rest;
    assert ';' !in url by {
      assert forall c :: c in url ==> c == '/' || c in segment || c in rest;
    }
    BeforeFirstAppend(url, [], ';');
    assert url + [] == url;
    assert BeforeFirst(url, '/') == [];
    assert url[1..] == tail;
    BeforeFirstAppend(segment, "/" + rest, '/');
    assert segment + ("/" + rest) == tail;
  }

  // ---------------------------------------------------------------------------
  // The composer
  // ---------------------------------------------------------------------------

  class ImageProcess {
    var loading: bool
    var error: string
    var uploadedFile: Option<UploadFile>
    var processedImageUrl: string
    var defaultImageBlobUrl: string
    var isProcessed: bool
    /** The number of object URLs created so far. */
    var nextHandle: nat
    /** Every URL passed to URL.revokeObjectURL so far. */
    var revoked: set<string>

    /** Between operations nothing is loading; a processed flag implies a result to
        download; every object URL held or revoked was created by this composer. */
    ghost predicate Valid()
      reads this
    {
      !loading &&
      (processedImageUrl == "" || processedImageUrl == FinishImageUrl) &&
      (isProcessed ==> processedImageUrl == FinishImageUrl) &&
      (defaultImageBlobUrl == "" || defaultImageBlobUrl in Issued(nextHandle)) &&
      (uploadedFile.Some? ==> uploadedFile.value.url in Issued(nextHandle)) &&
      revoked <= Issued(nextHandle) + {FinishImageUrl}
    }

    constructor ()
      ensures Valid()
      ensures !loading && error == "" && uploadedFile.None? && processedImageUrl == ""
      ensures defaultImageBlobUrl == "" && !isProcessed && nextHandle == 0 && revoked == {}
    {
      loading, error, uploadedFile := false, "", None;
      processedImageUrl, defaultImageBlobUrl, isProcessed := "", "", false;
      nextHandle, revoked := 0, {};
    }

    /** URL.createObjectURL: a URL no earlier call returned. */
    method CreateObjectUrl() returns (url: string)
      requires Valid()
      modifies this`nextHandle
      ensures Valid()
      ensures url == BlobUrl(old(nextHandle)) && nextHandle == old(nextHandle) + 1
      ensures url !in old(Issued(nextHandle)) && url !in revoked
      ensures Issued(nextHandle) == old(Issued(nextHandle)) + {url}
    {
      BlobUrlFresh(nextHandle);
      url := BlobUrl(nextHandle);
      nextHandle := nextHandle + 1;
    }

    /** initDefaultImage: on a fetched blob, hold a File named "test.png" of the blob's
        type and a fresh URL for it, as the default and as the uploaded file; on failure
        set the fixed error message and change nothing else. */
    method InitDefaultImage(fetched: Result<Blob>)
      requires Valid()
      modifies this
      ensures Valid()
      ensures loading == old(loading) && processedImageUrl == old(processedImageUrl)
      ensures isProcessed == old(isProcessed) && revoked == old(revoked)
      ensures fetched.Failure? ==>
                error == DefaultImageError && uploadedFile == old(uploadedFile) &&
                defaultImageBlobUrl == old(defaultImageBlobUrl) && nextHandle == old(nextHandle)
      ensures fetched.Success? ==>
                error == old(error) && nextHandle == old(nextHandle) + 1 &&
                defaultImageBlobUrl == BlobUrl(old(nextHandle)) &&
                defaultImageBlobUrl !in old(Issued(nextHandle)) &&
                uploadedFile == Some(UploadFile(File(DefaultImageName, fetched.value.mediaType, fetched.value.data),
                                                defaultImageBlobUrl))
    {
      match fetched
      case Failure(_) =>
        error := DefaultImageError;
      case Success(blob) =>
        var file := File(DefaultImageName, blob.mediaType, blob.data);
        var url := CreateObjectUrl();
        defaultImageBlobUrl := url;
        uploadedFile := Some(UploadFile(file, url));
    }

    /** uploadImage: release the default image's URL if one is held, then hold and
        return the file with a fresh URL. The previous upload's URL is not released. */
    method UploadImage(file: File) returns (u: UploadFile)
      requires Valid()
      modifies this
      ensures Valid()
      ensures u.file == file && u.url == BlobUrl(old(nextHandle)) && nextHandle == old(nextHandle) + 1
      ensures u.url !in old(Issued(nextHandle)) && u.url !in revoked
      ensures uploadedFile == Some(u) && defaultImageBlobUrl == ""
      ensures revoked == if old(defaultImageBlobUrl) != "" then old(revoked) + {old(defaultImageBlobUrl)} else old(revoked)
      ensures loading == old(loading) && error == old(error)
      ensures processedImageUrl == old(processedImageUrl) && isProcessed == old(isProcessed)
    {
      if defaultImageBlobUrl != "" {
        revoked := revoked + {defaultImageBlobUrl};
        defaultImageBlobUrl := "";
      }
      var url := CreateObjectUrl();
      u := UploadFile(file, url);
      uploadedFile := Some(u);
    }

    /** processImage, its delay taken as one step that either completes or throws an
        error with the message `failure`. Success holds the finished image as the
        result; failure records the prefixed message. Either way loading ends false. */
    method ProcessImage(config: Config, failure: Option<string>) returns (r: ProcessResult)
      requires Valid()
      modifies this
      ensures Valid()
      ensures !loading
      ensures r.success <==> failure.None?
      ensures r.url.Some? <==> r.error.None?
      ensures r.success ==>
                processedImageUrl == FinishImageUrl && isProcessed && r.url == Some(processedImageUrl) &&
                error == ""
      ensures !r.success ==>
                error == ProcessFailurePrefix + failure.value && r.error == Some(error) &&
                !isProcessed && processedImageUrl == old(processedImageUrl)
      ensures uploadedFile == old(uploadedFile) && defaultImageBlobUrl == old(defaultImageBlobUrl)
      ensures nextHandle == old(nextHandle) && revoked == old(revoked)
    {
      loading := true;
      error := "";
      isProcessed := false;
      if failure.None? {
        processedImageUrl := FinishImageUrl;
        isProcessed := true;
        r := ProcessResult(true, Some(FinishImageUrl), None);
      } else {
        var message := ProcessFailurePrefix + failure.value;
        error := message;
        r := ProcessResult(false, None, Some(message));
      }
      loading := false;
    }

    /** downloadImage: nothing when there is no result; otherwise save the result under
        the given name (default "processed-image") with the derived extension. */
    method DownloadImage(fileName: Option<string>) returns (d: Download)
      ensures d.NothingToDownload? <==> processedImageUrl == ""
      ensures d.Save? ==>
                d.href == processedImageUrl &&
                d.fileName == fileName.GetOr(DefaultDownloadName) + "." + DownloadExtension(processedImageUrl)
    {
      if processedImageUrl == "" {
        return NothingToDownload;
      }
      var blobType := DownloadExtension(processedImageUrl);
      d := Save(processedImageUrl, fileName.GetOr(DefaultDownloadName) + "." + blobType);
    }

    /** reset: release the uploaded file's URL, the default image's URL and the result's
        URL (each only when held), then clear the state. The default image's URL itself
        is left in place. */
    method Reset()
      requires Valid()
      modifies this
      ensures Valid()
      ensures revoked == old(revoked)
                + (if old(uploadedFile).Some? then {old(uploadedFile).value.url} else {})
                + (if old(defaultImageBlobUrl) != "" then {old(defaultImageBlobUrl)} else {})
                + (if old(processedImageUrl) != "" then {old(processedImageUrl)} else {})
      ensures uploadedFile.None? && processedImageUrl == "" && error == "" && !loading && !isProcessed
      ensures defaultImageBlobUrl == old(defaultImageBlobUrl) && nextHandle == old(nextHandle)
    {
      var released := revoked;
      if uploadedFile.Some? {
        released := released + {uploadedFile.value.url};
      }
      if defaultImageBlobUrl != "" {
        released := released + {defaultImageBlobUrl};
      }
      if processedImageUrl != "" {
        released := released + {processedImageUrl};
      }
      revoked := released;
      uploadedFile := None;
      processedImageUrl := "";
      error := "";
      loading := false;
      isProcessed := false;
    }
  }

  /** After a result exists, reset releases both the original upload's URL and the
      result's URL, and leaves nothing to download. */
  method ResetAfterProcessing(file: File)
  {
    var composer := new ImageProcess();
    var upload := composer.UploadImage(file);
    var result := composer.ProcessImage(EmptyConfig, None);
    assert result.success;
    composer.Reset();
    assert upload.url in composer.revoked && FinishImageUrl in composer.revoked;
    var d := composer.DownloadImage(None);
    assert d == NothingToDownload;
  }
}
