/** The product image gallery: the ordered list of images it shows (thumbnail
    first, then the product's other images without the thumbnail), cyclic
    navigation over that list, and the zoom flag. */
module ImageGallery {
  import opened Common

  /** An image as the product carries it; `alt` may be missing. */
  datatype ProductImage = ProductImage(id: string, url: string, alt: Option<string>)

  /** An entry of the gallery's list. */
  datatype GalleryImage = GalleryImage(url: string, alt: string)

  /** The entry for one of the product's images: its alt text, or the title. */
  function Entry(img: ProductImage, title: string): GalleryImage {
    GalleryImage(img.url, OrElse(img.alt, title))
  }

  /** `img.url !== thumbnail`: only an image equal to the thumbnail is dropped. */
  predicate Kept(img: ProductImage, thumbnail: Option<string>) {
    thumbnail != Some(img.url)
  }

  /** The head of the list: the thumbnail, when it is set and non-empty. */
  function Lead(thumbnail: Option<string>, title: string): (r: seq<GalleryImage>)
    ensures |r| == 1 <==> Truthy(thumbnail)
    ensures |r| <= 1
    ensures r != [] ==> r[0] == GalleryImage(thumbnail.value, title)
  {
    if Truthy(thumbnail) then [GalleryImage(thumbnail.value, title)] else []
  }

  /** The entries for the product's images, in their order, skipping the thumbnail. */
  function Extras(images: seq<ProductImage>, thumbnail: Option<string>, title: string): (r: seq<GalleryImage>)
    ensures |r| <= |images|
    ensures images != [] && Kept(images[|images| - 1], thumbnail) ==> r != [] && r[|r| - 1] == Entry(images[|images| - 1], title)
    decreases |images|
  {
    if images == [] then []
    else
      var last := images[|images| - 1];
      Extras(images[..|images| - 1], thumbnail, title) + (if Kept(last, thumbnail) then [Entry(last, title)] else [])
  }

  /** The whole list: at most one entry per image plus the thumbnail, and a
      non-empty thumbnail is entry 0 with the title as its alt text. */
  function AllImages(thumbnail: Option<string>, images: seq<ProductImage>, title: string): (r: seq<GalleryImage>)
    ensures |r| <= |images| + 1
    ensures Truthy(thumbnail) ==> |r| > 0 && r[0] == GalleryImage(thumbnail.value, title)
    ensures Truthy(thumbnail) ==> r[1..] == Extras(images, thumbnail, title)
    ensures !Truthy(thumbnail) ==> r == Extras(images, thumbnail, title)
  {
    Lead(thumbnail, title) + Extras(images, thumbnail, title)
  }

  /** How many of the images have the thumbnail's url. */
  function Occurrences(images: seq<ProductImage>, thumbnail: Option<string>): nat
    decreases |images|
  {
    if images == [] then 0
    else Occurrences(images[..|images| - 1], thumbnail) + (if Kept(images[|images| - 1], thumbnail) then 0 else 1)
  }

  /** The loop that builds the list, as the component runs it on every render. */
  method BuildAllImages(thumbnail: Option<string>, images: seq<ProductImage>, title: string)
    returns (all: seq<GalleryImage>)
    ensures all == AllImages(thumbnail, images, title)
  {
    all := [];
    if thumbnail.Some? && thumbnail.value != "" {
      all := all + [GalleryImage(thumbnail.value, title)];
    }
    if |images| > 0 {
      for i := 0 to |images|
        invariant all == Lead(thumbnail, title) + Extras(images[..i], thumbnail, title)
      {
        var img := images[i];
        assert images[..i + 1][..i] == images[..i];
        if Some(img.url) != thumbnail {
          all := all + [GalleryImage(img.url, OrElse(img.alt, title))];
        }
      }
      assert images[..|images|] == images;
    }
  }

  /** Every image whose url is not the thumbnail has its entry in the list. */
  lemma {:induction false} KeptImagesAppear(images: seq<ProductImage>, thumbnail: Option<string>, title: string, i: nat)
    requires i < |images| && Kept(images[i], thumbnail)
    ensures Entry(images[i], title) in Extras(images, thumbnail, title)
    decreases |images|
  {
    var init := images[..|images| - 1];
    if i < |images| - 1 {
      assert init[i] == images[i];
      KeptImagesAppear(init, thumbnail, title, i);
    }
  }

  /** Every entry after the lead comes from an image whose url is not the thumbnail. */
  lemma {:induction false} ExtrasComeFromKeptImages(images: seq<ProductImage>, thumbnail: Option<string>, title: string, e: GalleryImage)
    requires e in Extras(images, thumbnail, title)
    ensures exists i :: 0 <= i < |images| && Kept(images[i], thumbnail) && e == Entry(images[i], title)
    decreases |images|
  {
    var init := images[..|images| - 1];
    var last := images[|images| - 1];
    if e in Extras(init, thumbnail, title) {
      ExtrasComeFromKeptImages(init, thumbnail, title, e);
      var i :| 0 <= i < |init| && Kept(init[i], thumbnail) && e == Entry(init[i], title);
      assert images[i] == init[i];
    } else {
      assert Kept(last, thumbnail) && e == Entry(last, title);
    }
  }

  /** Exactly the images equal to the thumbnail are dropped: duplicates of any
      other url all stay. */
  lemma {:induction false} ExtrasLength(images: seq<ProductImage>, thumbnail: Option<string>, title: string)
    ensures |Extras(images, thumbnail, title)| + Occurrences(images, thumbnail) == |images|
    decreases |images|
  {
    if images != [] {
      ExtrasLength(images[..|images| - 1], thumbnail, title);
    }
  }

  /** Without a thumbnail every image is kept, in order, one entry per image. */
  lemma {:induction false} NoThumbnailKeepsAll(images: seq<ProductImage>, title: string)
    ensures |AllImages(None, images, title)| == |images|
    ensures forall i :: 0 <= i < |images| ==> AllImages(None, images, title)[i] == Entry(images[i], title)
    decreases |images|
  {
    var all := AllImages(None, images, title);
    if images != [] {
      var init := images[..|images| - 1];
      var rest := Extras(init, None, title);
      NoThumbnailKeepsAll(init, title);
      assert all == rest + [Entry(images[|images| - 1], title)];
      forall i | 0 <= i < |images|
        ensures all[i] == Entry(images[i], title)
      {
        if i < |init| {
          assert all[i] == rest[i] && init[i] == images[i];
        }
      }
    }
  }

  /** `goNext`: the last index wraps to 0. */
  function Next(i: nat, n: nat): (r: nat)
    requires i < n
    ensures r < n
    ensures r == (i + 1) % n
  {
    if i == n - 1 then 0 else i + 1
  }

  /** `goPrev`: index 0 wraps to the last index. */
  function Prev(i: nat, n: nat): (r: nat)
    requires i < n
    ensures r < n
    ensures r == (i + n - 1) % n
  {
    if i == 0 then
      ModSmall(n - 1, n);
      n - 1
    else
      ModSmall(i - 1, n);
      ModShift(i - 1, n);
      i - 1
  }

  lemma ModSmall(k: nat, n: nat)
    requires k < n
    ensures k % n == k
  {
  }

  lemma ModShift(k: nat, n: nat)
    requires k < n
    ensures (k + n) % n == k % n
  {
  }

  lemma PrevNextInverse(i: nat, n: nat)
    requires i < n
    ensures Prev(Next(i, n), n) == i
    ensures Next(Prev(i, n), n) == i
  {
  }

  /** What the gallery renders. */
  datatype View =
    | Placeholder
    | Viewer(main: GalleryImage, zoomed: bool, showControls: bool, position: nat, total: nat)

  /** The rendered view: the placeholder for an empty list; otherwise the
      selected image, with arrows, counter and thumbnail strip shown only for
      more than one image, and the counter reading index + 1 of n. */
  function Render(images: seq<GalleryImage>, selected: nat, zoomed: bool): (v: View)
    requires images == [] || selected < |images|
    ensures v.Placeholder? <==> images == []
    ensures v.Viewer? ==> v.main == images[selected] && v.zoomed == zoomed
    ensures v.Viewer? ==> (v.showControls <==> |images| > 1)
    ensures v.Viewer? ==> v.position == selected + 1 && v.total == |images| && 1 <= v.position <= v.total
  {
    if images == [] then Placeholder
    else Viewer(images[selected], zoomed, |images| > 1, selected + 1, |images|)
  }

  /** The component's state over the list built at render time. */
  class Gallery {
    const images: seq<GalleryImage>
    var selectedIndex: nat
    var isZoomed: bool

    ghost predicate Valid()
      reads this
    {
      selectedIndex < |images| || (images == [] && selectedIndex == 0)
    }

    constructor (thumbnail: Option<string>, extra: seq<ProductImage>, title: string)
      ensures Valid()
      ensures images == AllImages(thumbnail, extra, title)
      ensures selectedIndex == 0 && !isZoomed
    {
      var all := BuildAllImages(thumbnail, extra, title);
      images := all;
      selectedIndex := 0;
      isZoomed := false;
    }

    /** Selecting an entry (also a thumbnail click) always leaves zoom. */
    method GoTo(index: nat)
      requires index < |images|
      modifies this
      ensures Valid()
      ensures selectedIndex == index && !isZoomed
    {
      selectedIndex := index;
      isZoomed := false;
    }

    method GoPrev()
      requires Valid() && images != []
      modifies this
      ensures Valid()
      ensures selectedIndex == Prev(old(selectedIndex), |images|) && !isZoomed
    {
      GoTo(if selectedIndex == 0 then |images| - 1 else selectedIndex - 1);
    }

    method GoNext()
      requires Valid() && images != []
      modifies this
      ensures Valid()
      ensures selectedIndex == Next(old(selectedIndex), |images|) && !isZoomed
    {
      GoTo(if selectedIndex == |images| - 1 then 0 else selectedIndex + 1);
    }

    /** A click on the main image. */
    method ToggleZoom()
      requires Valid()
      modifies this`isZoomed
      ensures Valid()
      ensures isZoomed == !old(isZoomed)
    {
      isZoomed := !isZoomed;
    }
  }
}
