/**
 * The bilingual translation resolver and the language selector of the site.
 * Each language has a constant table of (key, text) entries, kept in the order
 * the object literal lists them; `Translate` looks a key up in the active
 * language's table and falls back to the key itself; `LanguageProvider` holds
 * the mutable language flag.
 */
module LanguageContext {
  import opened Wrappers
  import opened JavaScript

  /** The two supported languages ('pt' | 'en'). */
  datatype Language = Pt | En

  type Entry = (string, string)

  /**
   * The groups the tables are written in. Each table is the concatenation of
   * its sections, in this order; long texts are written as concatenations of
   * shorter literals.
   */
  datatype Section = Navigation | Hero | Menu | Gallery | Room | Reservations | Contact | Footer | Forms

  /** One section of translations.pt */
  function PtSection(s: Section): seq<Entry>
  {
    match s
    case Navigation => [
        ("nav.home", "Início"),
        ("nav.menu", "Menu"),
        ("nav.gallery", "Galeria"),
        ("nav.reservations", "Reservas"),
        ("nav.contact", "Contato")
      ]
    case Hero => [
        ("hero.subtitle", "Restaurante " + "Italiano em " + "Lisboa"),
        ("hero.description", "Massas e " + "pizzas " + "caseiras " + "frescas e " + "vinhos "
          + "italianos no " + "coração de " + "Lisboa"),
        ("hero.cta", "Reservar uma " + "mesa")
      ]
    case Menu => [
        ("menu.title", "Nosso Menu"),
        ("menu.description", "Nossa " + "cozinha " + "celebra a " + "essência da " + "gastronomia "
          + "italiana: " + "ingredientes " + "frescos e de " + "qualidade, "
          + "receitas " + "tradicionais " + "transmitidas " + "de geração "
          + "em geração e " + "uma paixão " + "incomparável " + "pela arte "
          + "culinária."),
        ("menu.discover", "Descobrir " + "nosso menu")
      ]
    case Gallery => [
        ("gallery.title", "Galeria")
      ]
    case Room => [
        ("room.title", "Nossa Sala"),
        ("room.description", "Nossa sala " + "de " + "restaurante, " + "localizada "
          + "no coração " + "do histórico " + "Bairro Alto, " + "oferece um "
          + "ambiente " + "elegante e " + "acolhedor. " + "As paredes "
          + "de pedra à " + "vista, os " + "arcos " + "tradicionais " + "e nosso "
          + "mobiliário " + "cuidadosamente " + "selecionado " + "criam uma "
          + "atmosfera " + "que combina " + "perfeitamente " + "o charme "
          + "português " + "com a " + "elegância " + "italiana."),
        ("room.rating", "no Google"),
        ("room.review", "Um ambiente " + "excepcional, " + "um serviço " + "atencioso")
      ]
    case Reservations => [
        ("reservations.title", "Reservas"),
        ("reservations.hours.title", "Horário de " + "Funcionamento"),
        ("reservations.hours.weekdays", "Segunda - " + "Sexta: 12h - " + "23h"),
        ("reservations.hours.weekend", "Sábado - " + "Domingo: 12h " + "- 00h")
      ]
    case Contact => [
        ("contact.title", "Contato"),
        ("contact.how.to.reach", "Como Chegar"),
        ("contact.talk.to.us", "Fale Conosco")
      ]
    case Footer => [
        ("footer.experience", "Uma " + "experiência " + "culinária " + "italiana " + "autêntica no "
          + "coração de " + "Lisboa."),
        ("footer.quickLinks", "Links " + "Rápidos"),
        ("footer.contact", "Contato"),
        ("footer.followUs", "Siga-nos"),
        ("footer.rights", "Todos os " + "direitos " + "reservados.")
      ]
    case Forms => [
        ("form.fullName", "Nome " + "completo"),
        ("form.date", "Data"),
        ("form.time", "Hora"),
        ("form.guests", "Número de " + "pessoas"),
        ("form.person", "pessoa"),
        ("form.people", "pessoas"),
        ("form.reserve", "Reservar uma " + "mesa"),
        ("form.subject", "Assunto"),
        ("form.message", "Mensagem"),
        ("form.send", "Enviar " + "mensagem"),
        ("form.reason", "Motivo do " + "contato"),
        ("form.select.reason", "Selecione um " + "motivo"),
        ("form.reason.general", "Informações " + "gerais"),
        ("form.reason.group", "Reserva para " + "grupo"),
        ("form.reason.private", "Evento " + "privado"),
        ("form.reason.feedback", "Feedback"),
        ("form.reason.partnership", "Parceria")
      ]
  }

  /** One section of translations.en */
  function EnSection(s: Section): seq<Entry>
  {
    match s
    case Navigation => [
        ("nav.home", "Home"),
        ("nav.menu", "Menu"),
        ("nav.gallery", "Gallery"),
        ("nav.reservations", "Reservations"),
        ("nav.contact", "Contact")
      ]
    case Hero => [
        ("hero.subtitle", "Italian " + "Restaurant " + "in Lisbon"),
        ("hero.description", "Fresh " + "homemade " + "pasta and " + "pizza and " + "Italian "
          + "wines in the " + "heart of " + "Lisbon"),
        ("hero.cta", "Book a table")
      ]
    case Menu => [
        ("menu.title", "Our Menu"),
        ("menu.description", "Our cuisine " + "celebrates " + "the essence " + "of Italian "
          + "gastronomy: " + "fresh, " + "quality " + "ingredients, "
          + "traditional " + "recipes " + "passed down " + "through "
          + "generations, " + "and an " + "unparalleled " + "passion for "
          + "culinary " + "art."),
        ("menu.discover", "Discover our " + "menu")
      ]
    case Gallery => [
        ("gallery.title", "Gallery")
      ]
    case Room => [
        ("room.title", "Our Room"),
        ("room.description", "Our " + "restaurant " + "room, " + "located in " + "the heart of "
          + "historic " + "Bairro Alto, " + "offers an " + "elegant and "
          + "welcoming " + "environment. " + "The exposed " + "stone walls, "
          + "traditional " + "arches, and " + "our " + "carefully " + "selected "
          + "furniture " + "create an " + "atmosphere " + "that " + "perfectly "
          + "combines " + "Portuguese " + "charm with " + "Italian " + "elegance."),
        ("room.rating", "on Google"),
        ("room.review", "An " + "exceptional " + "atmosphere, " + "attentive " + "service")
      ]
    case Reservations => [
        ("reservations.title", "Reservations"),
        ("reservations.hours.title", "Opening " + "Hours"),
        ("reservations.hours.weekdays", "Monday - " + "Friday: 12pm " + "- 11pm"),
        ("reservations.hours.weekend", "Saturday - " + "Sunday: 12pm " + "- 12am")
      ]
    case Contact => [
        ("contact.title", "Contact"),
        ("contact.how.to.reach", "How to Reach " + "Us"),
        ("contact.talk.to.us", "Talk to Us")
      ]
    case Footer => [
        ("footer.experience", "An authentic " + "Italian " + "culinary " + "experience "
          + "in the heart " + "of Lisbon."),
        ("footer.quickLinks", "Quick Links"),
        ("footer.contact", "Contact"),
        ("footer.followUs", "Follow Us"),
        ("footer.rights", "All rights " + "reserved.")
      ]
    case Forms => [
        ("form.fullName", "Full Name"),
        ("form.date", "Date"),
        ("form.time", "Time"),
        ("form.guests", "Number of " + "guests"),
        ("form.person", "person"),
        ("form.people", "people"),
        ("form.reserve", "Book a table"),
        ("form.subject", "Subject"),
        ("form.message", "Message"),
        ("form.send", "Send message"),
        ("form.reason", "Reason for " + "contact"),
        ("form.select.reason", "Select a " + "reason"),
        ("form.reason.general", "General " + "information"),
        ("form.reason.group", "Group " + "booking"),
        ("form.reason.private", "Private " + "event"),
        ("form.reason.feedback", "Feedback"),
        ("form.reason.partnership", "Partnership")
      ]
  }

  /** The sections in the order both object literals list them. */
  const AllSections: seq<Section> := [Navigation, Hero, Menu, Gallery, Room, Reservations, Contact, Footer, Forms]

  function SectionTable(lang: Language, s: Section): seq<Entry>
  {
    match lang
    case Pt => PtSection(s)
    case En => EnSection(s)
  }

  /** The entries of the given sections of a table, section after section. */
  function Entries(lang: Language, secs: seq<Section>): seq<Entry>
  {
    if secs == [] then [] else SectionTable(lang, secs[0]) + Entries(lang, secs[1..])
  }

  /** translations[language] */
  function Table(lang: Language): seq<Entry>
  {
    Entries(lang, AllSections)
  }

  /** The keys of a table, in order. */
  function Keys(entries: seq<Entry>): (ks: seq<string>)
    ensures |ks| == |entries|
    ensures forall i :: 0 <= i < |entries| ==> ks[i] == entries[i].0
  {
    seq(|entries|, i requires 0 <= i < |entries| => entries[i].0)
  }

  /** No key is listed twice. */
  predicate DistinctKeys(entries: seq<Entry>)
  {
    forall i, j :: 0 <= i < j < |entries| ==> entries[i].0 != entries[j].0
  }

  /** Every text of the table is truthy. */
  predicate TextsNonEmpty(entries: seq<Entry>)
  {
    forall i :: 0 <= i < |entries| ==> Truthy(entries[i].1)
  }

  /** Property access on the table object: the value listed for `key`, if any. */
  function Lookup(entries: seq<Entry>, key: string): (r: Option<string>)
  {
    if entries == [] then None
    else if entries[0].0 == key then Some(entries[0].1)
    else Lookup(entries[1..], key)
  }

  /** A lookup succeeds exactly when the key is listed, and then yields a listed value for it. */
  lemma {:induction false} LookupSound(entries: seq<Entry>, key: string)
    ensures Lookup(entries, key).Some? <==> key in Keys(entries)
    ensures Lookup(entries, key).Some? ==>
      exists i :: 0 <= i < |entries| && entries[i] == (key, Lookup(entries, key).value)
  {
    if entries != [] && entries[0].0 != key {
      LookupSound(entries[1..], key);
      assert Keys(entries) == [entries[0].0] + Keys(entries[1..]);
      if Lookup(entries, key).Some? {
        var i :| 0 <= i < |entries[1..]| && entries[1..][i] == (key, Lookup(entries, key).value);
        assert entries[i + 1] == (key, Lookup(entries, key).value);
      }
    }
  }

  /** With distinct keys, looking up the key of entry i yields the value of entry i. */
  lemma {:induction false} LookupListed(entries: seq<Entry>, i: nat)
    requires DistinctKeys(entries)
    requires i < |entries|
    ensures Lookup(entries, entries[i].0) == Some(entries[i].1)
  {
    if i > 0 {
      assert entries[0].0 != entries[i].0;
      assert entries[1..][i - 1] == entries[i];
      LookupListed(entries[1..], i - 1);
    }
  }

  /** The keys of one section, which both tables are written against. */
  function SectionKeys(s: Section): seq<string> {
    match s
      case Navigation => ["nav.home", "nav.menu", "nav.gallery", "nav.reservations", "nav.contact"]
      case Hero => ["hero.subtitle", "hero.description", "hero.cta"]
      case Menu => ["menu.title", "menu.description", "menu.discover"]
      case Gallery => ["gallery.title"]
      case Room => ["room.title", "room.description", "room.rating", "room.review"]
      case Reservations => ["reservations.title", "reservations.hours.title", "reservations.hours.weekdays", "reservations.hours.weekend"]
      case Contact => ["contact.title", "contact.how.to.reach", "contact.talk.to.us"]
      case Footer => ["footer.experience", "footer.quickLinks", "footer.contact", "footer.followUs", "footer.rights"]
      case Forms => ["form.fullName", "form.date", "form.time", "form.guests", "form.person", "form.people", "form.reserve", "form.subject", "form.message", "form.send", "form.reason", "form.select.reason", "form.reason.general", "form.reason.group", "form.reason.private", "form.reason.feedback", "form.reason.partnership"]
  }

  /** The keys of the given sections, section after section. */
  function KeysOf(secs: seq<Section>): seq<string>
  {
    if secs == [] then [] else SectionKeys(secs[0]) + KeysOf(secs[1..])
  }

  /** The key column shared by both tables. */
  function TranslationKeys(): seq<string>
  {
    KeysOf(AllSections)
  }

  predicate Distinct(ks: seq<string>)
  {
    forall i, j :: 0 <= i < j < |ks| ==> ks[i] != ks[j]
  }

  /** Each key starts with its section's name; the first three characters tell the sections apart. */
  function Tag(s: Section): string {
    match s
      case Navigation => "nav"
      case Hero => "her"
      case Menu => "men"
      case Gallery => "gal"
      case Room => "roo"
      case Reservations => "res"
      case Contact => "con"
      case Footer => "foo"
      case Forms => "for"
  }

  function KeyTag(k: string): string
    requires |k| >= 3
  {
    k[..3]
  }

  lemma TagsDiffer(a: Section, b: Section)
    requires a != b
    ensures Tag(a) != Tag(b)
  {
  }

  /*
   * The facts about the literal tables are proved one section and one
   * language at a time: a lemma whose parameter is pinned to one section sees
   * only that section's literals, which keeps each proof within the solver's
   * resource limit. SectionPtFacts and SectionEnFacts dispatch over them.
   */

  lemma NavigationPt(s: Section)
    requires s == Navigation
    ensures Distinct(SectionKeys(s))
    ensures forall i :: 0 <= i < |SectionKeys(s)| ==> |SectionKeys(s)[i]| >= 3 && KeyTag(SectionKeys(s)[i]) == Tag(s)
    ensures Keys(PtSection(s)) == SectionKeys(s) && TextsNonEmpty(PtSection(s))
  {
  }

  lemma NavigationEn(s: Section)
    requires s == Navigation
    ensures Keys(EnSection(s)) == SectionKeys(s) && TextsNonEmpty(EnSection(s))
  {
  }

  lemma HeroPt(s: Section)
    requires s == Hero
    ensures Distinct(SectionKeys(s))
    ensures forall i :: 0 <= i < |SectionKeys(s)| ==> |SectionKeys(s)[i]| >= 3 && KeyTag(SectionKeys(s)[i]) == Tag(s)
    ensures Keys(PtSection(s)) == SectionKeys(s) && TextsNonEmpty(PtSection(s))
  {
  }

  lemma HeroEn(s: Section)
    requires s == Hero
    ensures Keys(EnSection(s)) == SectionKeys(s) && TextsNonEmpty(EnSection(s))
  {
  }

  lemma MenuPt(s: Section)
    requires s == Menu
    ensures Distinct(SectionKeys(s))
    ensures forall i :: 0 <= i < |SectionKeys(s)| ==> |SectionKeys(s)[i]| >= 3 && KeyTag(SectionKeys(s)[i]) == Tag(s)
    ensures Keys(PtSection(s)) == SectionKeys(s) && TextsNonEmpty(PtSection(s))
  {
  }

  lemma MenuEn(s: Section)
    requires s == Menu
    ensures Keys(EnSection(s)) == SectionKeys(s) && TextsNonEmpty(EnSection(s))
  {
  }

  lemma GalleryPt(s: Section)
    requires s == Gallery
    ensures Distinct(SectionKeys(s))
    ensures forall i :: 0 <= i < |SectionKeys(s)| ==> |SectionKeys(s)[i]| >= 3 && KeyTag(SectionKeys(s)[i]) == Tag(s)
    ensures Keys(PtSection(s)) == SectionKeys(s) && TextsNonEmpty(PtSection(s))
  {
  }

  lemma GalleryEn(s: Section)
    requires s == Gallery
    ensures Keys(EnSection(s)) == SectionKeys(s) && TextsNonEmpty(EnSection(s))
  {
  }

  lemma RoomPt(s: Section)
    requires s == Room
    ensures Distinct(SectionKeys(s))
    ensures forall i :: 0 <= i < |SectionKeys(s)| ==> |SectionKeys(s)[i]| >= 3 && KeyTag(SectionKeys(s)[i]) == Tag(s)
    ensures Keys(PtSection(s)) == SectionKeys(s) && TextsNonEmpty(PtSection(s))
  {
  }

  lemma RoomEn(s: Section)
    requires s == Room
    ensures Keys(EnSection(s)) == SectionKeys(s) && TextsNonEmpty(EnSection(s))
  {
  }

  lemma ReservationsPt(s: Section)
    requires s == Reservations
    ensures Distinct(SectionKeys(s))
    ensures forall i :: 0 <= i < |SectionKeys(s)| ==> |SectionKeys(s)[i]| >= 3 && KeyTag(SectionKeys(s)[i]) == Tag(s)
    ensures Keys(PtSection(s)) == SectionKeys(s) && TextsNonEmpty(PtSection(s))
  {
  }

  lemma ReservationsEn(s: Section)
    requires s == Reservations
    ensures Keys(EnSection(s)) == SectionKeys(s) && TextsNonEmpty(EnSection(s))
  {
  }

  lemma ContactPt(s: Section)
    requires s == Contact
    ensures Distinct(SectionKeys(s))
    ensures forall i :: 0 <= i < |SectionKeys(s)| ==> |SectionKeys(s)[i]| >= 3 && KeyTag(SectionKeys(s)[i]) == Tag(s)
    ensures Keys(PtSection(s)) == SectionKeys(s) && TextsNonEmpty(PtSection(s))
  {
  }

  lemma ContactEn(s: Section)
    requires s == Contact
    ensures Keys(EnSection(s)) == SectionKeys(s) && TextsNonEmpty(EnSection(s))
  {
  }

  lemma FooterPt(s: Section)
    requires s == Footer
    ensures Distinct(SectionKeys(s))
    ensures forall i :: 0 <= i < |SectionKeys(s)| ==> |SectionKeys(s)[i]| >= 3 && KeyTag(SectionKeys(s)[i]) == Tag(s)
    ensures Keys(PtSection(s)) == SectionKeys(s) && TextsNonEmpty(PtSection(s))
  {
  }

  lemma FooterEn(s: Section)
    requires s == Footer
    ensures Keys(EnSection(s)) == SectionKeys(s) && TextsNonEmpty(EnSection(s))
  {
  }

  lemma FormsKeys(s: Section)
    requires s == Forms
    ensures Distinct(SectionKeys(s))
    ensures forall i :: 0 <= i < |SectionKeys(s)| ==> |SectionKeys(s)[i]| >= 3 && KeyTag(SectionKeys(s)[i]) == Tag(s)
  {
  }

  lemma FormsPt(s: Section)
    requires s == Forms
    ensures Keys(PtSection(s)) == SectionKeys(s) && TextsNonEmpty(PtSection(s))
  {
  }

  lemma FormsEn(s: Section)
    requires s == Forms
    ensures Keys(EnSection(s)) == SectionKeys(s) && TextsNonEmpty(EnSection(s))
  {
  }

  /**
   * Each section's keys are distinct and carry the section's tag, and the
   * Portuguese table lists exactly those keys, in order, with non-empty texts.
   */
  lemma SectionPtFacts(s: Section)
    ensures Distinct(SectionKeys(s))
    ensures forall i :: 0 <= i < |SectionKeys(s)| ==> |SectionKeys(s)[i]| >= 3 && KeyTag(SectionKeys(s)[i]) == Tag(s)
    ensures Keys(PtSection(s)) == SectionKeys(s) && TextsNonEmpty(PtSection(s))
  {
    match s
    case Navigation => NavigationPt(s);
    case Hero => HeroPt(s);
    case Menu => MenuPt(s);
    case Gallery => GalleryPt(s);
    case Room => RoomPt(s);
    case Reservations => ReservationsPt(s);
    case Contact => ContactPt(s);
    case Footer => FooterPt(s);
    case Forms => FormsKeys(s); FormsPt(s);
  }

  /** The English table lists exactly each section's keys, in order, with non-empty texts. */
  lemma SectionEnFacts(s: Section)
    ensures Keys(EnSection(s)) == SectionKeys(s) && TextsNonEmpty(EnSection(s))
  {
    match s
    case Navigation => NavigationEn(s);
    case Hero => HeroEn(s);
    case Menu => MenuEn(s);
    case Gallery => GalleryEn(s);
    case Room => RoomEn(s);
    case Reservations => ReservationsEn(s);
    case Contact => ContactEn(s);
    case Footer => FooterEn(s);
    case Forms => FormsEn(s);
  }

  /** Both tables list exactly each section's keys, in order, with non-empty texts. */
  lemma SectionFacts(s: Section)
    ensures Distinct(SectionKeys(s))
    ensures forall i :: 0 <= i < |SectionKeys(s)| ==> |SectionKeys(s)[i]| >= 3 && KeyTag(SectionKeys(s)[i]) == Tag(s)
    ensures forall lang :: Keys(SectionTable(lang, s)) == SectionKeys(s) && TextsNonEmpty(SectionTable(lang, s))
  {
    SectionPtFacts(s);
    SectionEnFacts(s);
  }

  lemma KeysAppend(a: seq<Entry>, b: seq<Entry>)
    ensures Keys(a + b) == Keys(a) + Keys(b)
  {
  }

  /** Any run of sections of a table lists the keys of those sections, with non-empty texts. */
  lemma {:induction false} EntriesFacts(lang: Language, secs: seq<Section>)
    ensures Keys(Entries(lang, secs)) == KeysOf(secs)
    ensures TextsNonEmpty(Entries(lang, secs))
  {
    if secs != [] {
      SectionFacts(secs[0]);
      EntriesFacts(lang, secs[1..]);
      KeysAppend(SectionTable(lang, secs[0]), Entries(lang, secs[1..]));
    }
  }

  /** The tags of the given sections. */
  function TagsOf(secs: seq<Section>): set<string>
  {
    set s | s in secs :: Tag(s)
  }

  /** Putting a section in front of keys that do not carry its tag keeps the keys distinct. */
  lemma PrefixSection(s: Section, rest: seq<string>, tags: set<string>)
    requires Distinct(SectionKeys(s))
    requires forall i :: 0 <= i < |SectionKeys(s)| ==> |SectionKeys(s)[i]| >= 3 && KeyTag(SectionKeys(s)[i]) == Tag(s)
    requires Distinct(rest)
    requires forall i :: 0 <= i < |rest| ==> |rest[i]| >= 3 && KeyTag(rest[i]) in tags
    requires Tag(s) !in tags
    ensures Distinct(SectionKeys(s) + rest)
    ensures forall i :: 0 <= i < |SectionKeys(s) + rest| ==>
      |(SectionKeys(s) + rest)[i]| >= 3 && KeyTag((SectionKeys(s) + rest)[i]) in tags + {Tag(s)}
  {
    var ks := SectionKeys(s);
    forall i, j | 0 <= i < j < |ks + rest|
      ensures (ks + rest)[i] != (ks + rest)[j]
    {
      if i < |ks| <= j {
        assert KeyTag(ks[i]) == Tag(s);
        assert KeyTag(rest[j - |ks|]) in tags;
      }
    }
  }

  /** The keys of sections listed once each are distinct, and each carries its section's tag. */
  lemma {:induction false} KeysOfDistinct(secs: seq<Section>)
    requires forall i, j :: 0 <= i < j < |secs| ==> secs[i] != secs[j]
    ensures Distinct(KeysOf(secs))
    ensures forall i :: 0 <= i < |KeysOf(secs)| ==> |KeysOf(secs)[i]| >= 3 && KeyTag(KeysOf(secs)[i]) in TagsOf(secs)
  {
    if secs != [] {
      var s, rest := secs[0], secs[1..];
      KeysOfDistinct(rest);
      SectionFacts(s);
      forall t | t in rest
        ensures Tag(t) != Tag(s)
      {
        TagsDiffer(t, s);
      }
      PrefixSection(s, KeysOf(rest), TagsOf(rest));
      assert TagsOf(rest) + {Tag(s)} == TagsOf(secs);
    }
  }

  /** The keys of a section in the list are among the keys of the list. */
  lemma {:induction false} KeysOfContains(secs: seq<Section>, s: Section)
    requires s in secs
    ensures forall k :: k in SectionKeys(s) ==> k in KeysOf(secs)
  {
    if secs[0] != s {
      KeysOfContains(secs[1..], s);
    }
  }

  /** Every key of every section is in the shared key column. */
  lemma SectionKeysListed(s: Section)
    ensures forall k :: k in SectionKeys(s) ==> k in TranslationKeys()
  {
    KeysOfContains(AllSections, s);
  }

  /** Each table lists the shared key column, in order, with non-empty texts. */
  lemma TableFacts(lang: Language)
    ensures Keys(Table(lang)) == TranslationKeys()
    ensures TextsNonEmpty(Table(lang))
  {
    EntriesFacts(lang, AllSections);
  }

  /** The shared key column lists 45 distinct keys. */
  lemma TranslationKeysDistinct()
    ensures |TranslationKeys()| == 45
    ensures Distinct(TranslationKeys())
  {
    KeysOfDistinct(AllSections);
  }

  /** Both tables have exactly the same 45 keys, and no key is listed twice. */
  lemma TablesAgree(lang: Language)
    ensures Keys(Table(lang)) == Keys(Table(Pt)) == Keys(Table(En))
    ensures |Table(lang)| == 45
    ensures DistinctKeys(Table(lang))
  {
    TableFacts(Pt);
    TableFacts(En);
    TranslationKeysDistinct();
    var t := Table(lang);
    forall i, j | 0 <= i < j < |t|
      ensures t[i].0 != t[j].0
    {
      assert Keys(t)[i] == t[i].0 && Keys(t)[j] == t[j].0;
    }
  }

  /**
   * `table[key] || key`: the table's entry when it is present and truthy,
   * otherwise the key itself. Never fails; the result is either the key or the
   * text the table lists for that key, and is never empty for a non-empty key.
   */
  function Resolve(entries: seq<Entry>, key: string): (r: string)
    ensures r == key || exists i :: 0 <= i < |entries| && entries[i] == (key, r)
    ensures key != "" ==> r != ""
  {
    LookupSound(entries, key);
    match Lookup(entries, key)
    case Some(v) => if Truthy(v) then v else key
    case None => key
  }

  /**
   * t(key) = translations[language][key] || key: a key neither table lists
   * comes back unchanged, a listed key yields a text paired with it, and a
   * non-empty key never yields "".
   */
  function Translate(lang: Language, key: string): (r: string)
    ensures key !in TranslationKeys() ==> r == key
    ensures r == key || exists i :: 0 <= i < |Table(lang)| && Table(lang)[i] == (key, r)
    ensures key != "" ==> r != ""
  {
    TableFacts(lang);
    LookupSound(Table(lang), key);
    Resolve(Table(lang), key)
  }

  /** A key the active table lists translates to the text listed for it, which is never empty. */
  lemma TranslateListedKey(lang: Language, i: nat)
    requires i < |Table(lang)|
    ensures Translate(lang, Table(lang)[i].0) == Table(lang)[i].1
    ensures Translate(lang, Table(lang)[i].0) != ""
  {
    TablesAgree(lang);
    TableFacts(lang);
    LookupListed(Table(lang), i);
  }

  /** A key neither table lists translates to itself, in either language. */
  lemma TranslateUnlistedKey(lang: Language, key: string)
    requires key !in TranslationKeys()
    ensures Translate(lang, key) == key
  {
    TableFacts(lang);
    LookupSound(Table(lang), key);
  }

  /** A key the tables list translates to the text the active table lists for it. */
  lemma TranslateKnownKey(lang: Language, key: string)
    requires key in TranslationKeys()
    ensures exists i :: 0 <= i < |Table(lang)| && Table(lang)[i] == (key, Translate(lang, key))
    ensures Translate(lang, key) != ""
  {
    TableFacts(lang);
    var i :| 0 <= i < |Keys(Table(lang))| && Keys(Table(lang))[i] == key;
    TranslateListedKey(lang, i);
  }

  /**
   * The language state of the provider: starts at Portuguese and changes only
   * through SetLanguage. The tables are constants, so the state is the flag alone.
   */
  class LanguageProvider {
    var language: Language

    constructor ()
      ensures language == Pt
    {
      language := Pt;
    }

    /** The context's `t`, bound to the current language. */
    function T(key: string): (r: string)
      reads this
      ensures key !in TranslationKeys() ==> r == key
      ensures r == key || exists i :: 0 <= i < |Table(language)| && Table(language)[i] == (key, r)
      ensures key != "" ==> r != ""
    {
      Translate(language, key)
    }

    method SetLanguage(lang: Language)
      modifies this
      ensures language == lang
      ensures forall key :: T(key) == Translate(lang, key)
    {
      language := lang;
    }
  }

  /** Switching from Portuguese to English and back gives every key its original text again. */
  method SwitchRoundTrip(provider: LanguageProvider)
    requires provider.language == Pt
    modifies provider
    ensures provider.language == Pt
    ensures forall key :: provider.T(key) == old(provider.T(key))
  {
    provider.SetLanguage(En);
    provider.SetLanguage(Pt);
  }

  const OutsideProviderError := "useLanguage must be used within a LanguageProvider"

  /** useLanguage(): the provider's context, or an error when no provider encloses the caller. */
  function UseLanguage(provider: LanguageProvider?): (r: Result<LanguageProvider, string>)
    ensures r.Success? <==> provider != null
    ensures r.Success? ==> r.value == provider
    ensures r.Failure? ==> r.error == OutsideProviderError
  {
    if provider == null then Failure(OutsideProviderError) else Success(provider)
  }
}
