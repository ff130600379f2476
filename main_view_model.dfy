/**
 * The main screen's view model: the selected image, the original image
 * (before cropping) and the selected reagent. URIs and bitmaps are opaque.
 */
module MainState {
  import opened Wrappers
  import Reactions

  /** The fields of `MainViewModel`, as one value. */
  datatype Snapshot<Uri, Bitmap> = Snapshot(
    selectedImageUri: Option<Uri>,
    selectedImageBitmap: Option<Bitmap>,
    originalImageUri: Option<Uri>,
    originalImageBitmap: Option<Bitmap>,
    showCropScreen: bool,
    selectedReagent: Option<Reactions.Reagent>)

  /** A freshly created view model: every slot empty, the crop screen hidden. */
  function Initial<Uri, Bitmap>(): Snapshot<Uri, Bitmap> {
    Snapshot(None, None, None, None, false, None)
  }

  /** The image being set is the first one: nothing selected, no original, and a non-null URI. */
  predicate IsFirstImage<Uri, Bitmap>(st: Snapshot<Uri, Bitmap>, uri: Option<Uri>) {
    st.selectedImageUri.None? && st.originalImageUri.None? && uri.Some?
  }

  /** `updateSelectedImage(uri, bitmap)`: the first image also becomes the original. */
  function WithSelectedImage<Uri, Bitmap>(st: Snapshot<Uri, Bitmap>, uri: Option<Uri>, bitmap: Option<Bitmap>): (r: Snapshot<Uri, Bitmap>)
    ensures r.selectedImageUri == uri && r.selectedImageBitmap == bitmap
    ensures IsFirstImage(st, uri) ==> r.originalImageUri == uri && r.originalImageBitmap == bitmap
    ensures !IsFirstImage(st, uri) ==>
      r.originalImageUri == st.originalImageUri && r.originalImageBitmap == st.originalImageBitmap
    ensures r.showCropScreen == st.showCropScreen && r.selectedReagent == st.selectedReagent
  {
    var withOriginal :=
      if IsFirstImage(st, uri) then st.(originalImageUri := uri, originalImageBitmap := bitmap) else st;
    withOriginal.(selectedImageUri := uri, selectedImageBitmap := bitmap)
  }

  /** One call of `updateSelectedImage(uri, bitmap)`. */
  datatype Upload<Uri, Bitmap> = Upload(uri: Option<Uri>, bitmap: Option<Bitmap>)

  /** The state after a series of `updateSelectedImage` calls, in order. */
  function AfterUploads<Uri, Bitmap>(st: Snapshot<Uri, Bitmap>, uploads: seq<Upload<Uri, Bitmap>>): Snapshot<Uri, Bitmap>
    decreases |uploads|
  {
    if uploads == [] then st
    else AfterUploads(WithSelectedImage(st, uploads[0].uri, uploads[0].bitmap), uploads[1..])
  }

  /**
   * Once an original URI is recorded, no series of `updateSelectedImage`
   * calls changes the original pair, the crop flag or the reagent, and the
   * selected pair is the last call's arguments.
   */
  lemma {:induction false} OriginalSticks<Uri, Bitmap>(st: Snapshot<Uri, Bitmap>, uploads: seq<Upload<Uri, Bitmap>>)
    requires st.originalImageUri.Some?
    ensures var r := AfterUploads(st, uploads);
      && r.originalImageUri == st.originalImageUri
      && r.originalImageBitmap == st.originalImageBitmap
      && r.showCropScreen == st.showCropScreen
      && r.selectedReagent == st.selectedReagent
      && (uploads != [] ==>
            r.selectedImageUri == uploads[|uploads| - 1].uri && r.selectedImageBitmap == uploads[|uploads| - 1].bitmap)
    decreases |uploads|
  {
    if uploads != [] {
      var st1 := WithSelectedImage(st, uploads[0].uri, uploads[0].bitmap);
      OriginalSticks(st1, uploads[1..]);
      if |uploads| > 1 {
        assert uploads[1..][|uploads[1..]| - 1] == uploads[|uploads| - 1];
      }
    }
  }

  /**
   * From the initial state, the original is the first upload with a
   * non-null URI (uploads with a null URI before it leave no trace on the
   * original).
   */
  lemma {:induction false} FirstNonNullBecomesOriginal<Uri, Bitmap>(
    st: Snapshot<Uri, Bitmap>, uploads: seq<Upload<Uri, Bitmap>>, i: nat)
    requires st.selectedImageUri.None? && st.originalImageUri.None?
    requires i < |uploads| && uploads[i].uri.Some?
    requires forall j :: 0 <= j < i ==> uploads[j].uri.None?
    ensures AfterUploads(st, uploads).originalImageUri == uploads[i].uri
    ensures AfterUploads(st, uploads).originalImageBitmap == uploads[i].bitmap
    decreases i
  {
    var st1 := WithSelectedImage(st, uploads[0].uri, uploads[0].bitmap);
    if i == 0 {
      OriginalSticks(st1, uploads[1..]);
    } else {
      FirstNonNullBecomesOriginal(st1, uploads[1..], i - 1);
    }
  }

  /** `setOriginalImage`: only the original pair changes. */
  function WithOriginalImage<Uri, Bitmap>(st: Snapshot<Uri, Bitmap>, uri: Option<Uri>, bitmap: Option<Bitmap>): Snapshot<Uri, Bitmap> {
    st.(originalImageUri := uri, originalImageBitmap := bitmap)
  }

  /** `updateSelectedReagent`: only the reagent changes. */
  function WithReagent<Uri, Bitmap>(st: Snapshot<Uri, Bitmap>, reagent: Option<Reactions.Reagent>): Snapshot<Uri, Bitmap> {
    st.(selectedReagent := reagent)
  }

  /** `clearSelectedImage`: the selected pair is nulled, the original kept. */
  function WithoutSelection<Uri, Bitmap>(st: Snapshot<Uri, Bitmap>): Snapshot<Uri, Bitmap> {
    st.(selectedImageUri := None, selectedImageBitmap := None)
  }

  /** `clearAllImageData`: all four image slots are nulled; the crop flag and the reagent stay. */
  function WithoutImages<Uri, Bitmap>(st: Snapshot<Uri, Bitmap>): Snapshot<Uri, Bitmap> {
    st.(selectedImageUri := None, selectedImageBitmap := None, originalImageUri := None, originalImageBitmap := None)
  }

  /**
   * After `clearSelectedImage`, the next `updateSelectedImage` with a
   * non-null URI records it as the original exactly when no original URI was
   * recorded before; otherwise the original survives.
   */
  lemma ReselectAfterClear<Uri, Bitmap>(st: Snapshot<Uri, Bitmap>, uri: Option<Uri>, bitmap: Option<Bitmap>)
    requires uri.Some?
    ensures IsFirstImage(WithoutSelection(st), uri) <==> st.originalImageUri.None?
    ensures var r := WithSelectedImage(WithoutSelection(st), uri, bitmap);
      st.originalImageUri.Some? ==> r.originalImageUri == st.originalImageUri && r.originalImageBitmap == st.originalImageBitmap
  {
  }

  /**
   * After `clearAllImageData`, the next image with a non-null URI becomes
   * the original again, whatever was there before, and the reagent survives.
   */
  lemma RestartAfterClearAll<Uri, Bitmap>(st: Snapshot<Uri, Bitmap>, uri: Option<Uri>, bitmap: Option<Bitmap>)
    requires uri.Some?
    ensures var r := WithSelectedImage(WithoutImages(st), uri, bitmap);
      && r.originalImageUri == uri && r.originalImageBitmap == bitmap
      && r.selectedImageUri == uri && r.selectedImageBitmap == bitmap
      && r.selectedReagent == st.selectedReagent
  {
  }

  class MainViewModel<Uri, Bitmap> {
    var selectedImageUri: Option<Uri>
    var selectedImageBitmap: Option<Bitmap>
    var originalImageUri: Option<Uri>
    var originalImageBitmap: Option<Bitmap>
    var showCropScreen: bool
    var selectedReagent: Option<Reactions.Reagent>

    function State(): Snapshot<Uri, Bitmap>
      reads this
    {
      Snapshot(selectedImageUri, selectedImageBitmap, originalImageUri, originalImageBitmap, showCropScreen, selectedReagent)
    }

    constructor ()
      ensures State() == Initial()
    {
      selectedImageUri := None;
      selectedImageBitmap := None;
      originalImageUri := None;
      originalImageBitmap := None;
      showCropScreen := false;
      selectedReagent := None;
    }

    method UpdateSelectedImage(uri: Option<Uri>, bitmap: Option<Bitmap>)
      modifies this
      ensures State() == WithSelectedImage(old(State()), uri, bitmap)
    {
      if selectedImageUri.None? && originalImageUri.None? && uri.Some? {
        originalImageUri := uri;
        originalImageBitmap := bitmap;
      }
      selectedImageUri := uri;
      selectedImageBitmap := bitmap;
    }

    method SetOriginalImage(uri: Option<Uri>, bitmap: Option<Bitmap>)
      modifies this
      ensures State() == WithOriginalImage(old(State()), uri, bitmap)
    {
      originalImageUri := uri;
      originalImageBitmap := bitmap;
    }

    method UpdateSelectedReagent(reagent: Option<Reactions.Reagent>)
      modifies this
      ensures State() == WithReagent(old(State()), reagent)
    {
      selectedReagent := reagent;
    }

    method ClearSelectedImage()
      modifies this
      ensures State() == WithoutSelection(old(State()))
    {
      selectedImageUri := None;
      selectedImageBitmap := None;
    }

    method ClearAllImageData()
      modifies this
      ensures State() == WithoutImages(old(State()))
    {
      selectedImageUri := None;
      selectedImageBitmap := None;
      originalImageUri := None;
      originalImageBitmap := None;
    }
  }
}
