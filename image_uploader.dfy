// The image uploaders of the editor: a single image with brightness and overlay
// settings, and a gallery that admits several files at once up to a maximum count.

module ImageUploader {
  import opened Wrappers
  import opened Text
  import EditorBlocks

  /** An uploaded image and how it is shown. */
  datatype ImageSettings = ImageSettings(url: string, brightness: int, overlay: int)

  /** What the model needs of a picked file: its MIME type and its size in bytes. */
  datatype File = File(mimeType: string, size: nat)

  /** A partial update of an image's settings: the fields given replace the image's own. */
  datatype ImagePatch = ImagePatch(url: Option<string>, brightness: Option<int>, overlay: Option<int>)

  /** The outcome of picking one file for the single uploader. */
  datatype Upload = Rejected(error: string) | Uploaded(settings: ImageSettings)

  /** A removal: the value handed to `onChange`, and the object URL released on the way, if any. */
  datatype Removal<T> = Removal(next: T, revoked: Option<string>)

  const DefaultSettings := ImageSettings("", 100, 0)
  const MiB: nat := 1024 * 1024
  const DefaultMaxSizeMB: nat := 5
  const DefaultMaxImages: nat := 10
  const NotAnImage := "Пожалуйста, выберите изображение"
  const UploadFailed := "Ошибка при загрузке изображения"
  const BlobScheme := "blob:"

  /** The settings shown: the value, or the defaults when there is none. */
  function Settings(value: Option<ImageSettings>): (s: ImageSettings)
    ensures value.Some? ==> s == value.value
    ensures value.None? ==> s.url == "" && s.brightness == 100 && s.overlay == 0
  {
    value.GetOr(DefaultSettings)
  }

  /** Whether an image is shown: only a value with a non-empty URL counts. */
  function HasImage(value: Option<ImageSettings>): (b: bool)
    ensures b <==> value.Some? && value.value.url != ""
  {
    Settings(value).url != ""
  }

  predicate IsImage(file: File)
  {
    StartsWith(file.mimeType, "image/")
  }

  /**
   * Whether a file is over `maxSizeMB` mebibytes. The size in mebibytes is the exact
   * quotient size / 2^20, so it exceeds the limit exactly when the byte count exceeds
   * the limit times 2^20.
   */
  predicate TooLarge(file: File, maxSizeMB: nat)
  {
    file.size > maxSizeMB * MiB
  }

  function TooLargeMessage(maxSizeMB: nat): string
  {
    "Размер файла не должен превышать " + NatToString(maxSizeMB) + " МБ"
  }

  /** Fresh settings for a newly uploaded image: full brightness and no overlay. */
  function Fresh(url: string): (s: ImageSettings)
    ensures s.url == url && s.brightness == 100 && s.overlay == 0
  {
    DefaultSettings.(url := url)
  }

  /**
   * The single uploader's handling of a picked file. The type is checked before the size;
   * either rejection leaves `onChange` uncalled. `objectUrl` creates the preview URL and
   * gives None when that fails.
   */
  function ProcessFile(file: File, maxSizeMB: nat, objectUrl: File -> Option<string>): (r: Upload)
    ensures !IsImage(file) ==> r == Rejected(NotAnImage)
    ensures IsImage(file) && TooLarge(file, maxSizeMB) ==> r == Rejected(TooLargeMessage(maxSizeMB))
    ensures IsImage(file) && !TooLarge(file, maxSizeMB) && objectUrl(file).None? ==> r == Rejected(UploadFailed)
    ensures r.Uploaded? <==> IsImage(file) && !TooLarge(file, maxSizeMB) && objectUrl(file).Some?
    ensures r.Uploaded? ==> r.settings == ImageSettings(objectUrl(file).value, 100, 0)
  {
    if !IsImage(file) then Rejected(NotAnImage)
    else if TooLarge(file, maxSizeMB) then Rejected(TooLargeMessage(maxSizeMB))
    else match objectUrl(file)
      case None => Rejected(UploadFailed)
      case Some(url) => Uploaded(Fresh(url))
  }

  /** Moving the brightness slider: only the brightness changes. */
  function WithBrightness(value: Option<ImageSettings>, brightness: int): (s: ImageSettings)
    ensures s.brightness == brightness
    ensures s.url == Settings(value).url && s.overlay == Settings(value).overlay
  {
    Settings(value).(brightness := brightness)
  }

  /** Moving the overlay slider: only the overlay changes. */
  function WithOverlay(value: Option<ImageSettings>, overlay: int): (s: ImageSettings)
    ensures s.overlay == overlay
    ensures s.url == Settings(value).url && s.brightness == Settings(value).brightness
  {
    Settings(value).(overlay := overlay)
  }

  /** The two sliders do not interfere: applying both, in either order, gives the same settings. */
  lemma SlidersCommute(value: Option<ImageSettings>, brightness: int, overlay: int)
    ensures WithOverlay(Some(WithBrightness(value, brightness)), overlay)
         == WithBrightness(Some(WithOverlay(value, overlay)), brightness)
    ensures WithOverlay(Some(WithBrightness(value, brightness)), overlay)
         == ImageSettings(Settings(value).url, brightness, overlay)
  {
  }

  /** The object URL to release when an image goes away: only URLs this page created. */
  function Revoked(url: string): (r: Option<string>)
    ensures r.Some? <==> StartsWith(url, BlobScheme)
    ensures r.Some? ==> r.value == url
  {
    if StartsWith(url, BlobScheme) then Some(url) else None
  }

  /** Removing the single image: the value becomes null, and a page-made URL is released. */
  function RemoveImage(value: Option<ImageSettings>): (r: Removal<Option<ImageSettings>>)
    ensures r.next.None?
    ensures r.revoked.Some? <==> HasImage(value) && StartsWith(value.value.url, BlobScheme)
  {
    Removal(None, Revoked(Settings(value).url))
  }

  /** Whether the gallery still offers to add images. */
  function CanAddMore(value: seq<ImageSettings>, maxImages: nat): (b: bool)
    ensures b <==> |value| < maxImages
  {
    |value| < maxImages
  }

  /**
   * How many of the picked files the gallery looks at: the smaller of their number and
   * the free slots, and none when no slot is free.
   */
  function Examined(count: nat, slots: int): (n: nat)
    ensures n <= count
    ensures slots > 0 ==> n <= slots
    ensures slots <= 0 ==> n == 0
    ensures slots > 0 ==> n == count || n == slots
  {
    if slots <= 0 then 0 else if count < slots then count else slots
  }

  /**
   * The images the gallery admits from `files`, in order: non-images and oversize files
   * are skipped, the rest get a fresh object URL. None when creating a URL fails, which
   * abandons the whole upload.
   */
  function Admitted(files: seq<File>, maxSizeMB: nat, objectUrl: File -> Option<string>): (r: Option<seq<ImageSettings>>)
    ensures r.Some? ==> |r.value| <= |files|
    decreases |files|
  {
    if |files| == 0 then Some([])
    else
      var prior := Admitted(files[..|files| - 1], maxSizeMB, objectUrl);
      var file := files[|files| - 1];
      if prior.None? then None
      else if !IsImage(file) || TooLarge(file, maxSizeMB) then prior
      else match objectUrl(file)
        case None => None
        case Some(url) => Some(prior.value + [Fresh(url)])
  }

  /** Once creating a URL has failed, looking at more files does not revive the upload. */
  lemma {:induction false} AdmittedFailureSticks(files: seq<File>, i: nat, j: nat, maxSizeMB: nat,
                                                 objectUrl: File -> Option<string>)
    requires i <= j <= |files|
    requires Admitted(files[..i], maxSizeMB, objectUrl).None?
    ensures Admitted(files[..j], maxSizeMB, objectUrl).None?
    decreases j - i
  {
    if i < j {
      assert files[..i + 1][..i] == files[..i];
      AdmittedFailureSticks(files, i + 1, j, maxSizeMB, objectUrl);
    }
  }

  /** Every admitted image starts at full brightness with no overlay. */
  lemma {:induction false} AdmittedAreFresh(files: seq<File>, maxSizeMB: nat, objectUrl: File -> Option<string>)
    requires Admitted(files, maxSizeMB, objectUrl).Some?
    ensures forall k :: 0 <= k < |Admitted(files, maxSizeMB, objectUrl).value| ==>
      Admitted(files, maxSizeMB, objectUrl).value[k].brightness == 100 &&
      Admitted(files, maxSizeMB, objectUrl).value[k].overlay == 0
    decreases |files|
  {
    if |files| > 0 {
      AdmittedAreFresh(files[..|files| - 1], maxSizeMB, objectUrl);
    }
  }

  /**
   * The gallery admits a single file exactly when the single uploader would upload it,
   * and with the same settings.
   */
  lemma AdmissionAgreesWithProcessFile(file: File, maxSizeMB: nat, objectUrl: File -> Option<string>)
    ensures ProcessFile(file, maxSizeMB, objectUrl).Uploaded? <==>
      Admitted([file], maxSizeMB, objectUrl).Some? && |Admitted([file], maxSizeMB, objectUrl).value| == 1
    ensures ProcessFile(file, maxSizeMB, objectUrl).Uploaded? ==>
      Admitted([file], maxSizeMB, objectUrl) == Some([ProcessFile(file, maxSizeMB, objectUrl).settings])
  {
    assert [file][..0] == [];
    var empty: seq<ImageSettings> := [];
    assert Admitted([file][..0], maxSizeMB, objectUrl) == Some(empty);
    if IsImage(file) && !TooLarge(file, maxSizeMB) && objectUrl(file).Some? {
      assert empty + [Fresh(objectUrl(file).value)] == [Fresh(objectUrl(file).value)];
    }
  }

  /**
   * The gallery's handling of a batch of picked files. Only the first `Examined` files are
   * looked at. `failed` reports an abandoned upload (creating a URL failed): then neither
   * `onChange` nor the error is reached. Otherwise `changed` is the value handed to
   * `onChange` — the old images followed by the admitted ones, and only when at least one
   * was admitted — and `error` is set exactly when more files were picked than slots were free.
   */
  method ProcessFiles(value: seq<ImageSettings>, files: seq<File>, maxImages: nat, maxSizeMB: nat,
                      objectUrl: File -> Option<string>)
    returns (changed: Option<seq<ImageSettings>>, error: Option<string>, failed: bool)
    ensures var admitted := Admitted(files[..Examined(|files|, maxImages - |value|)], maxSizeMB, objectUrl);
      && (failed <==> admitted.None?)
      && (changed.Some? <==> !failed && |admitted.value| > 0)
      && (changed.Some? ==> changed.value == value + admitted.value)
    ensures error.Some? <==> !failed && |files| > maxImages - |value|
    ensures error.Some? ==> error.value == "Можно добавить максимум " + NatToString(maxImages) + " фото"
    ensures changed.Some? && |value| <= maxImages ==> |changed.value| <= maxImages
  {
    var newImages: seq<ImageSettings> := [];
    var availableSlots := maxImages - |value|;
    ghost var n := Examined(|files|, availableSlots);
    failed := false;
    var i := 0;
    while i < |files| && i < availableSlots && !failed
      invariant 0 <= i <= n
      invariant failed <==> Admitted(files[..i], maxSizeMB, objectUrl).None?
      invariant !failed ==> Admitted(files[..i], maxSizeMB, objectUrl) == Some(newImages)
      invariant |newImages| <= i
      decreases |files| - i
    {
      var file := files[i];
      assert files[..i + 1][..i] == files[..i];
      if IsImage(file) && !TooLarge(file, maxSizeMB) {
        var url := objectUrl(file);
        if url.None? {
          failed := true;
        } else {
          newImages := newImages + [Fresh(url.value)];
        }
      }
      i := i + 1;
    }
    if failed {
      AdmittedFailureSticks(files, i, n, maxSizeMB, objectUrl);
      return None, None, true;
    }
    changed := if |newImages| > 0 then Some(value + newImages) else None;
    error := if |files| > availableSlots then Some("Можно добавить максимум " + NatToString(maxImages) + " фото") else None;
  }

  /** Removing gallery image `index`: exactly that image goes, and its URL is released if the page made it. */
  function RemoveFromGallery(value: seq<ImageSettings>, index: nat): (r: Removal<seq<ImageSettings>>)
    requires index < |value|
    ensures |r.next| == |value| - 1
    ensures forall j :: 0 <= j < index ==> r.next[j] == value[j]
    ensures forall j :: index <= j < |r.next| ==> r.next[j] == value[j + 1]
    ensures r.revoked.Some? <==> StartsWith(value[index].url, BlobScheme)
  {
    Removal(EditorBlocks.RemoveAt(value, index), Revoked(value[index].url))
  }

  /** Nothing but the removed image is lost: together they make up the old gallery. */
  lemma RemoveKeepsTheRest(value: seq<ImageSettings>, index: nat)
    requires index < |value|
    ensures multiset(RemoveFromGallery(value, index).next) + multiset{value[index]} == multiset(value)
  {
    assert value == value[..index] + [value[index]] + value[index + 1..];
  }

  /** One image's settings with a patch applied. */
  function Patched(s: ImageSettings, patch: ImagePatch): (r: ImageSettings)
    ensures r.url == patch.url.GetOr(s.url)
    ensures r.brightness == patch.brightness.GetOr(s.brightness)
    ensures r.overlay == patch.overlay.GetOr(s.overlay)
  {
    ImageSettings(patch.url.GetOr(s.url), patch.brightness.GetOr(s.brightness), patch.overlay.GetOr(s.overlay))
  }

  /** Editing gallery image `index`: the patch is merged into that image and no other. */
  function UpdateImage(value: seq<ImageSettings>, index: nat, patch: ImagePatch): (r: seq<ImageSettings>)
    requires index < |value|
    ensures |r| == |value|
    ensures r[index] == Patched(value[index], patch)
    ensures forall j :: 0 <= j < |r| && j != index ==> r[j] == value[j]
  {
    value[index := Patched(value[index], patch)]
  }

  /** Applying the same edit twice changes nothing more; an empty edit changes nothing. */
  lemma UpdateIdempotent(value: seq<ImageSettings>, index: nat, patch: ImagePatch)
    requires index < |value|
    ensures UpdateImage(UpdateImage(value, index, patch), index, patch) == UpdateImage(value, index, patch)
    ensures UpdateImage(value, index, ImagePatch(None, None, None)) == value
  {
  }
}
