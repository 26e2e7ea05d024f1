// The gallery block: the uploaded photos in a grid, or a note that they come later.

module GalleryBlock {
  import opened Wrappers
  import opened Text
  import opened Types

  datatype Image = Image(src: string, alt: string)

  datatype GalleryView = EmptyGallery | PhotoGrid(images: seq<Image>)

  /** The photo list: the gallery when there is one, otherwise none. */
  function Photos(data: EventData): seq<string>
  {
    if data.photos.Some? && data.photos.value.gallery.Some? then data.photos.value.gallery.value else []
  }

  /** The alternative text of the photo at `index`: "Фото " and its position counted from one. */
  function AltText(index: nat): string
  {
    "Фото " + NatToString(index + 1)
  }

  function Images(photos: seq<string>, start: nat): (images: seq<Image>)
    ensures |images| == |photos|
    ensures forall i :: 0 <= i < |photos| ==> images[i] == Image(photos[i], AltText(start + i))
  {
    if |photos| == 0 then [] else [Image(photos[0], AltText(start))] + Images(photos[1..], start + 1)
  }

  /**
   * What the gallery block shows: the empty note when there are no photos, otherwise one
   * image per photo, in order. Neither `variant` nor `isPreview` is consulted.
   */
  function Gallery(data: EventData, theme: ThemeConfig, variant: string, isPreview: bool): (v: GalleryView)
    ensures v.EmptyGallery? <==> |Photos(data)| == 0
    ensures v.PhotoGrid? ==> |v.images| == |Photos(data)|
    ensures v.PhotoGrid? ==> forall i :: 0 <= i < |v.images| ==>
      v.images[i].src == Photos(data)[i] && v.images[i].alt == AltText(i)
  {
    var photos := Photos(data);
    if |photos| == 0 then EmptyGallery else PhotoGrid(Images(photos, 0))
  }

  /** No two photos in the grid share an alternative text, even when they share a picture. */
  lemma AltTextsDistinct(data: EventData, theme: ThemeConfig, variant: string, isPreview: bool)
    ensures var v := Gallery(data, theme, variant, isPreview);
      v.PhotoGrid? ==> forall i, j :: 0 <= i < j < |v.images| ==> v.images[i].alt != v.images[j].alt
  {
    var v := Gallery(data, theme, variant, isPreview);
    if v.PhotoGrid? {
      forall i, j | 0 <= i < j < |v.images|
        ensures v.images[i].alt != v.images[j].alt
      {
        AltTextDiffers(i, j);
      }
    }
  }

  lemma AltTextDiffers(i: nat, j: nat)
    requires i != j
    ensures AltText(i) != AltText(j)
  {
    var prefix := "Фото ";
    if AltText(i) == AltText(j) {
      assert NatToString(i + 1) == AltText(i)[|prefix|..];
      assert NatToString(j + 1) == AltText(j)[|prefix|..];
      NatToStringInjective(i + 1, j + 1);
    }
  }
}
