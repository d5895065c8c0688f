/**
 * The page component (src/App.tsx): five section slots, each starting at a
 * default and replaced in one assignment when its content fetch succeeds;
 * the normalisation of each fetched document; and the projections of the
 * stored content onto the active language that the page renders.
 *
 * A fetch is one atomic outcome: the document it returned, or a throw (which
 * includes a null document, whose property access throws inside the same
 * try block). `urlFor(asset).url()` is a function given by the caller.
 */
module App {
  import opened Wrappers
  import opened JavaScript
  import L = LanguageContext

  /** A text with an English and a Portuguese version: `{ en, pt }`. */
  datatype Bilingual = Bilingual(en: string, pt: string)

  datatype HeroData = HeroData(phrase1: Bilingual, phrase2: Bilingual)
  datatype MenuData = MenuData(title: string, pdfUrl: string, description: string)
  datatype GalleryImage = GalleryImage(url: string, alt: string)
  datatype GalleryData = GalleryData(title: string, images: seq<GalleryImage>)
  datatype RoomImage = RoomImage(url: string, caption: string)
  datatype RoomData = RoomData(images: seq<RoomImage>)
  datatype ContactInfo = ContactInfo(phone: string, email: string, hours: seq<Bilingual>)

  /** An image asset as the queries project it: `asset->{ _id, url }`. */
  datatype Asset = Asset(id: string, url: string)

  /** The documents the five queries return. */
  datatype RawHero = RawHero(phrase1: Bilingual, phrase2: Bilingual)
  /** `pdfUrl` is `pdfFile?.asset?.url`: None when the file, its asset or its url is missing. */
  datatype RawMenu = RawMenu(title: string, description: string, pdfUrl: Option<string>)
  datatype RawGalleryImage = RawGalleryImage(asset: Asset, alt: string)
  datatype RawGallery = RawGallery(title: string, images: seq<RawGalleryImage>)
  datatype RawRoomImage = RawRoomImage(asset: Asset, caption: Option<string>)
  datatype RawRoom = RawRoom(images: seq<RawRoomImage>)
  datatype RawContact = RawContact(phone: string, email: string, hours: seq<Bilingual>)

  /** What `await client.fetch(query)` and the code after it in the same try block amount to. */
  datatype FetchOutcome<T> = Fetched(data: T) | Threw

  /** The initial state of each slot. */
  const EmptyText := Bilingual("", "")
  const DefaultHero := HeroData(EmptyText, EmptyText)
  const DefaultMenu := MenuData("", "", "")
  const DefaultGallery := GalleryData("", [])
  const DefaultRoom := RoomData([])
  const DefaultContact := ContactInfo("", "", [])

  function HeroFrom(raw: RawHero): (h: HeroData)
    ensures h.phrase1 == raw.phrase1 && h.phrase2 == raw.phrase2
  {
    HeroData(raw.phrase1, raw.phrase2)
  }

  /** The menu slot: the PDF link is the asset's url when it is present and truthy, otherwise "". */
  function MenuFrom(raw: RawMenu): (m: MenuData)
    ensures m.title == raw.title && m.description == raw.description
    ensures Truthy(m.pdfUrl) <==> raw.pdfUrl.Some? && Truthy(raw.pdfUrl.value)
    ensures Truthy(m.pdfUrl) ==> m.pdfUrl == raw.pdfUrl.value
  {
    var pdfUrl := if raw.pdfUrl.Some? && Truthy(raw.pdfUrl.value) then raw.pdfUrl.value else "";
    MenuData(raw.title, pdfUrl, raw.description)
  }

  /** `images.map(image => ({ url: urlFor(image.asset).url(), alt: image.alt }))` */
  function GalleryImages(images: seq<RawGalleryImage>, urlFor: Asset -> string): (r: seq<GalleryImage>)
    ensures |r| == |images|
    ensures forall i :: 0 <= i < |images| ==>
      r[i].url == urlFor(images[i].asset) && r[i].alt == images[i].alt
  {
    if images == [] then []
    else
      var last := images[|images| - 1];
      GalleryImages(images[..|images| - 1], urlFor) + [GalleryImage(urlFor(last.asset), last.alt)]
  }

  /** `images.map(image => ({ url: urlFor(image.asset).url(), caption: image.caption || "" }))` */
  function RoomImages(images: seq<RawRoomImage>, urlFor: Asset -> string): (r: seq<RoomImage>)
    ensures |r| == |images|
    ensures forall i :: 0 <= i < |images| ==> r[i].url == urlFor(images[i].asset)
    ensures forall i :: 0 <= i < |images| ==>
      (Truthy(r[i].caption) <==> images[i].caption.Some? && Truthy(images[i].caption.value))
    ensures forall i :: 0 <= i < |images| ==>
      Truthy(r[i].caption) ==> r[i].caption == images[i].caption.value
  {
    if images == [] then []
    else
      var last := images[|images| - 1];
      var caption := if last.caption.Some? && Truthy(last.caption.value) then last.caption.value else "";
      RoomImages(images[..|images| - 1], urlFor) + [RoomImage(urlFor(last.asset), caption)]
  }

  /** Normalising a list split in two normalises each part, in order. */
  lemma {:induction false} GalleryImagesAppend(a: seq<RawGalleryImage>, b: seq<RawGalleryImage>, urlFor: Asset -> string)
    ensures GalleryImages(a + b, urlFor) == GalleryImages(a, urlFor) + GalleryImages(b, urlFor)
  {
    if b == [] {
      assert a + b == a;
    } else {
      var init := b[..|b| - 1];
      assert (a + b)[..|a + b| - 1] == a + init;
      GalleryImagesAppend(a, init, urlFor);
    }
  }

  lemma {:induction false} RoomImagesAppend(a: seq<RawRoomImage>, b: seq<RawRoomImage>, urlFor: Asset -> string)
    ensures RoomImages(a + b, urlFor) == RoomImages(a, urlFor) + RoomImages(b, urlFor)
  {
    if b == [] {
      assert a + b == a;
    } else {
      var init := b[..|b| - 1];
      assert (a + b)[..|a + b| - 1] == a + init;
      RoomImagesAppend(a, init, urlFor);
    }
  }

  function GalleryFrom(raw: RawGallery, urlFor: Asset -> string): (g: GalleryData)
    ensures g.title == raw.title
    ensures g.images == GalleryImages(raw.images, urlFor)
  {
    GalleryData(raw.title, GalleryImages(raw.images, urlFor))
  }

  function RoomFrom(raw: RawRoom, urlFor: Asset -> string): (r: RoomData)
    ensures r.images == RoomImages(raw.images, urlFor)
  {
    RoomData(RoomImages(raw.images, urlFor))
  }

  function ContactFrom(raw: RawContact): (c: ContactInfo)
    ensures c.phone == raw.phone && c.email == raw.email && c.hours == raw.hours
  {
    ContactInfo(raw.phone, raw.email, raw.hours)
  }

  /** `language === "pt" ? hour.pt : hour.en`, which is also what `phrase[language]` selects. */
  function Pick(text: Bilingual, lang: L.Language): (r: string)
    ensures lang == L.Pt ==> r == text.pt
    ensures lang == L.En ==> r == text.en
  {
    if lang == L.Pt then text.pt else text.en
  }

  /** Every entry of a list in the active language. */
  function PickAll(hours: seq<Bilingual>, lang: L.Language): (r: seq<string>)
    ensures |r| == |hours|
    ensures forall i :: 0 <= i < |hours| ==> r[i] == Pick(hours[i], lang)
  {
    if hours == [] then []
    else PickAll(hours[..|hours| - 1], lang) + [Pick(hours[|hours| - 1], lang)]
  }

  /**
   * getTranslatedHours: null for an empty list, otherwise every entry in the
   * active language, in order.
   */
  function GetTranslatedHours(hours: seq<Bilingual>, lang: L.Language): (r: Option<seq<string>>)
    ensures r.None? <==> |hours| == 0
    ensures r.Some? ==> |r.value| == |hours|
    ensures r.Some? ==> forall i :: 0 <= i < |hours| ==>
      r.value[i] == (if lang == L.Pt then hours[i].pt else hours[i].en)
  {
    if |hours| == 0 then None else Some(PickAll(hours, lang))
  }

  /** `menuData.pdfUrl && <a …>`: the link is rendered for a truthy, that is non-empty, URL only. */
  predicate ShowsMenuLink(menu: MenuData): (shown: bool)
    ensures shown <==> |menu.pdfUrl| > 0
  {
    Truthy(menu.pdfUrl)
  }

  /**
   * `contactInfo.hours.length > 0 && …`: the hours are rendered for a
   * non-empty list only, which is exactly when getTranslatedHours returns a
   * list, so the `.map` the guard protects is never applied to null.
   */
  predicate ShowsHours(contact: ContactInfo): (shown: bool)
    ensures forall lang :: shown <==> GetTranslatedHours(contact.hours, lang).Some?
  {
    |contact.hours| > 0
  }

  /** The menu link shows exactly for a fetched menu whose file has a truthy url. */
  lemma MenuLinkShown(raw: RawMenu)
    ensures ShowsMenuLink(MenuFrom(raw)) <==> raw.pdfUrl.Some? && raw.pdfUrl.value != ""
    ensures !ShowsMenuLink(DefaultMenu)
  {
  }

  /** The opening hours one CMS entry produces in each language. */
  lemma HoursExample()
    ensures GetTranslatedHours([Bilingual("Mon-Fri 12-11pm", "Seg-Sex 12h-23h")], L.Pt) == Some(["Seg-Sex 12h-23h"])
    ensures GetTranslatedHours([Bilingual("Mon-Fri 12-11pm", "Seg-Sex 12h-23h")], L.En) == Some(["Mon-Fri 12-11pm"])
    ensures GetTranslatedHours([], L.Pt) == None
  {
    var hours := [Bilingual("Mon-Fri 12-11pm", "Seg-Sex 12h-23h")];
    assert PickAll(hours, L.Pt)[0] == "Seg-Sex 12h-23h";
    assert PickAll(hours, L.Pt) == ["Seg-Sex 12h-23h"];
    assert PickAll(hours, L.En)[0] == "Mon-Fri 12-11pm";
    assert PickAll(hours, L.En) == ["Mon-Fri 12-11pm"];
  }

  /** The page's content state: one slot per section. */
  class Page {
    var heroData: HeroData
    var menuData: MenuData
    var galleryData: GalleryData
    var roomData: RoomData
    var contactInfo: ContactInfo

    /** Before any fetch completes every slot holds its default. */
    constructor ()
      ensures heroData == DefaultHero && menuData == DefaultMenu && galleryData == DefaultGallery
      ensures roomData == DefaultRoom && contactInfo == DefaultContact
    {
      heroData := DefaultHero;
      menuData := DefaultMenu;
      galleryData := DefaultGallery;
      roomData := DefaultRoom;
      contactInfo := DefaultContact;
    }

    /** The two hero lines in the active language; rendering reads the slot and changes nothing. */
    function HeroLines(lang: L.Language): (lines: (string, string))
      reads this
      ensures lang == L.Pt ==> lines == (heroData.phrase1.pt, heroData.phrase2.pt)
      ensures lang == L.En ==> lines == (heroData.phrase1.en, heroData.phrase2.en)
    {
      (Pick(heroData.phrase1, lang), Pick(heroData.phrase2, lang))
    }

    /** The hours the contact section renders: none unless the list is non-empty. */
    function RenderedHours(lang: L.Language): (lines: seq<string>)
      reads this
      ensures |lines| == |contactInfo.hours|
      ensures ShowsHours(contactInfo) ==> Some(lines) == GetTranslatedHours(contactInfo.hours, lang)
    {
      if ShowsHours(contactInfo) then GetTranslatedHours(contactInfo.hours, lang).value else []
    }

    method FetchHeroData(outcome: FetchOutcome<RawHero>)
      modifies this`heroData
      ensures outcome.Fetched? ==> heroData == HeroFrom(outcome.data)
      ensures outcome.Threw? ==> heroData == old(heroData)
      ensures menuData == old(menuData) && galleryData == old(galleryData)
      ensures roomData == old(roomData) && contactInfo == old(contactInfo)
    {
      match outcome
      case Fetched(data) => heroData := HeroFrom(data);
      case Threw =>
    }

    method FetchMenuData(outcome: FetchOutcome<RawMenu>)
      modifies this`menuData
      ensures outcome.Fetched? ==> menuData == MenuFrom(outcome.data)
      ensures outcome.Threw? ==> menuData == old(menuData)
      ensures heroData == old(heroData) && galleryData == old(galleryData)
      ensures roomData == old(roomData) && contactInfo == old(contactInfo)
    {
      match outcome
      case Fetched(data) => menuData := MenuFrom(data);
      case Threw =>
    }

    method FetchGalleryData(outcome: FetchOutcome<RawGallery>, urlFor: Asset -> string)
      modifies this`galleryData
      ensures outcome.Fetched? ==> galleryData == GalleryFrom(outcome.data, urlFor)
      ensures outcome.Threw? ==> galleryData == old(galleryData)
      ensures heroData == old(heroData) && menuData == old(menuData)
      ensures roomData == old(roomData) && contactInfo == old(contactInfo)
    {
      match outcome
      case Fetched(data) => galleryData := GalleryFrom(data, urlFor);
      case Threw =>
    }

    method FetchRoomData(outcome: FetchOutcome<RawRoom>, urlFor: Asset -> string)
      modifies this`roomData
      ensures outcome.Fetched? ==> roomData == RoomFrom(outcome.data, urlFor)
      ensures outcome.Threw? ==> roomData == old(roomData)
      ensures heroData == old(heroData) && menuData == old(menuData)
      ensures galleryData == old(galleryData) && contactInfo == old(contactInfo)
    {
      match outcome
      case Fetched(data) => roomData := RoomFrom(data, urlFor);
      case Threw =>
    }

    method FetchContactInfo(outcome: FetchOutcome<RawContact>)
      modifies this`contactInfo
      ensures outcome.Fetched? ==> contactInfo == ContactFrom(outcome.data)
      ensures outcome.Threw? ==> contactInfo == old(contactInfo)
      ensures heroData == old(heroData) && menuData == old(menuData)
      ensures galleryData == old(galleryData) && roomData == old(roomData)
    {
      match outcome
      case Fetched(data) => contactInfo := ContactFrom(data);
      case Threw =>
    }
  }
}
