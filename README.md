# Restaurant site core, modelled in Dafny

The site is a bilingual (Portuguese/English) marketing page for a restaurant.
Its behaviour is small but precise, and this project models it:

- **Translation provider** (`language_context.dfy`). Two constant key-to-text tables and a language flag that starts at Portuguese. The resolver `t(key)` returns the active table's text, or else the key itself. The `useLanguage` guard fails outside a provider.
- **Page content** (`app.dfy`). Five section slots (hero, menu, gallery, room, contact), each with a default. A content fetch either replaces its own slot with the normalised document or throws and leaves everything as it was. The opening hours and hero phrases are projected onto the active language, and two render guards decide whether the menu link and the hours appear.
- **Image carousel** (`image_carousel.dfy`). The slide index and its `nextSlide`/`prevSlide` updaters. This includes the empty image list, where JavaScript's `% 0` gives NaN.
- **Forms** (`form_submission.dfy`, `reservation_form.dfy`, `contact_form.dfy`). The reservation form and the contact form each hold a field record and a status text. `handleChange` replaces one field. `handleSubmit` shows "Sending...", posts the fields plus an access key, and ends on one of three outcomes. The status and payload logic is the same in both components, so it is modelled once.

Supporting modules: `wrappers.dfy` (Option, Result) and `js.dfy` (JavaScript string truthiness: only `""` is falsy).

## Model

| member | source | states |
|---|---|---|
| LanguageContext.LanguageProvider.constructor | src/contexts/LanguageContext.tsx:145 | the initial language is Portuguese |
| LanguageContext.TablesAgree | src/contexts/LanguageContext.tsx:11-140 | the pt and en tables have the same 45 keys, in the same order, with no key listed twice |
| LanguageContext.TableFacts | src/contexts/LanguageContext.tsx:11-140 | each table's keys are exactly the 45 translation keys, and every text in it is non-empty |
| LanguageContext.TranslationKeysDistinct | src/contexts/LanguageContext.tsx:11-140 | there are 45 translation keys and they are pairwise different |
| LanguageContext.LookupSound | src/contexts/LanguageContext.tsx:148 | the table lookup finds a value exactly when the key is one of the table's keys, and the value it finds is listed with that key |
| LanguageContext.Resolve | src/contexts/LanguageContext.tsx:148 | `table[key] \|\| key` never fails; it gives the key or a text listed for the key, and never "" for a non-empty key |
| LanguageContext.TranslateListedKey | src/contexts/LanguageContext.tsx:147-149 | a key the active table lists translates to exactly that table's text, which is non-empty |
| LanguageContext.TranslateKnownKey | src/contexts/LanguageContext.tsx:147-149 | every translation key translates, in either language, to the text the active table pairs with it, which is non-empty |
| LanguageContext.Translate | src/contexts/LanguageContext.tsx:147-149 | `t` never fails: an unlisted key comes back unchanged, a listed key yields a text the active table pairs with it, and a non-empty key never yields "" |
| LanguageContext.LanguageProvider.T | src/contexts/LanguageContext.tsx:147-149 | the context's `t` in the current language: same guarantees as Translate |
| LanguageContext.TranslateUnlistedKey | src/contexts/LanguageContext.tsx:148 | a key neither table lists translates to itself |
| LanguageContext.LanguageProvider.SetLanguage | src/contexts/LanguageContext.tsx:145-149 | after setLanguage, `t` is the resolver of the chosen language for every key |
| LanguageContext.SwitchRoundTrip | src/contexts/LanguageContext.tsx:145-149 | switching pt to en and back leaves every `t(key)` as it was |
| LanguageContext.UseLanguage | src/contexts/LanguageContext.tsx:158-163 | useLanguage gives the context exactly when a provider encloses the caller, and fails with the provider error otherwise |
| App.Page.constructor | src/App.tsx:20-40 | before any fetch completes every slot holds its default: empty texts, empty image lists, empty hours |
| App.Page.FetchHeroData | src/App.tsx:86-105 | a successful fetch stores the two phrases; a throw leaves the hero slot as it was; the other four slots never change |
| App.Page.FetchMenuData | src/App.tsx:108-135 | a successful fetch stores the normalised menu; a throw leaves the menu slot as it was; the other four slots never change |
| App.Page.FetchGalleryData | src/App.tsx:138-168 | a successful fetch stores the title and the mapped images; a throw leaves the gallery slot as it was; the other slots never change |
| App.Page.FetchRoomData | src/App.tsx:171-199 | a successful fetch stores the mapped images; a throw leaves the room slot as it was; the other slots never change |
| App.Page.FetchContactInfo | src/App.tsx:202-225 | a successful fetch stores phone, email and hours; a throw leaves the contact slot as it was; the other slots never change |
| App.MenuFrom | src/App.tsx:122-127 | the stored PDF url is truthy exactly when the document's url is present and truthy, and then equals it; title and description are copied |
| App.GalleryImages | src/App.tsx:153-156 | the image list keeps its length and order; each url is `urlFor(asset)` and each alt is copied |
| App.RoomImages | src/App.tsx:185-188 | the image list keeps its length and order; each url is `urlFor(asset)`; the caption is the document's caption when truthy, otherwise "" |
| App.GalleryImagesAppend | src/App.tsx:153-156 | normalising a concatenated list normalises each part, in order |
| App.RoomImagesAppend | src/App.tsx:185-188 | normalising a concatenated list normalises each part, in order |
| App.PickAll | src/App.tsx:230-235 | every entry projected onto the language, with length and order kept |
| App.GetTranslatedHours | src/App.tsx:227-236 | null exactly for an empty list; otherwise a list of the same length whose entry i is `hours[i].pt` in Portuguese and `hours[i].en` otherwise |
| App.ShowsHours | src/App.tsx:442 | the hours guard holds, in either language, exactly when getTranslatedHours returns a list, so the guarded `.map` never meets null |
| App.ShowsMenuLink | src/App.tsx:293 | `menuData.pdfUrl && …` renders the link exactly for a non-empty URL |
| App.Pick | src/App.tsx:231-234 | Portuguese selects the `pt` version and English the `en` version, as `phrase[language]` and the hours ternary do |
| App.HeroFrom | src/App.tsx:95-98 | the hero slot takes the document's two phrases as they come |
| App.GalleryFrom | src/App.tsx:158-161 | the gallery slot takes the document's title and its normalised image list |
| App.RoomFrom | src/App.tsx:190-192 | the room slot takes the normalised image list |
| App.ContactFrom | src/App.tsx:214-218 | the contact slot takes phone, email and hours as they come |
| App.MenuLinkShown | src/App.tsx:293 | the menu link renders exactly when the fetched PDF url is present and non-empty, and never for the default menu |
| App.HoursExample | src/App.tsx:227-236 | one entry gives its Portuguese text in pt and its English text in en; an empty list gives null |
| App.Page.HeroLines | src/App.tsx:253-255 | the hero shows the phrases of the active language, reading the slot without changing it |
| App.Page.RenderedHours | src/App.tsx:442 | the rendered hours are the translated hours when the list is non-empty, and nothing otherwise |
| ImageCarousel.Carousel.constructor | src/components/ImageCarousel.tsx:10 | the index starts at 0, and the timer starts with the first render's image count |
| ImageCarousel.JsRem | src/components/ImageCarousel.tsx:20 | JavaScript `%`: NaN exactly for a zero divisor, the ordinary remainder for a non-negative dividend |
| ImageCarousel.Next | src/components/ImageCarousel.tsx:14 | with images, nextSlide from an index in range yields `(i+1) mod n`, again in range; an index at or beyond the count only grows by one; NaN stays NaN |
| ImageCarousel.Prev | src/components/ImageCarousel.tsx:20 | with images, prevSlide from an index in range yields `(i-1+n) mod n`, again in range; with no images, or from NaN, it yields NaN; from an index at or beyond a positive count it steps back into range |
| ImageCarousel.Carousel.SetImages | src/App.tsx:327 | a re-render with another `images` prop (src/App.tsx:327 and 368) changes the count and keeps the index state and the running timer as they were |
| ImageCarousel.Carousel.Restart | src/components/ImageCarousel.tsx:24-27 | the timer is restarted, with the current image count, exactly when the index changed |
| ImageCarousel.Carousel.Tick | src/components/ImageCarousel.tsx:24-27 | a timer tick applies nextSlide with the image count the timer captured; it keeps the index in range when that count is the current one |
| ImageCarousel.StaleTimerStep | src/components/ImageCarousel.tsx:14-27 | mounted with no images and then given one image, the first tick moves the index to 1, out of range, and the next to 2 |
| ImageCarousel.NextPrevInverse | src/components/ImageCarousel.tsx:14-20 | nextSlide then prevSlide restores the index, and so does the reverse order |
| ImageCarousel.NextNCyclic | src/components/ImageCarousel.tsx:14 | k nextSlides from i land on `(i+k) mod n` |
| ImageCarousel.NextNFullTurn | src/components/ImageCarousel.tsx:14 | n nextSlides return to the starting index |
| ImageCarousel.NextNBeyond | src/components/ImageCarousel.tsx:14 | an index at or beyond the count only ever grows by one per nextSlide and never wraps |
| ImageCarousel.EmptyCarousel | src/components/ImageCarousel.tsx:12-22 | with no images nextSlide takes 0 to 1, prevSlide gives NaN, and NaN stays NaN |
| ImageCarousel.Carousel.NextSlide | src/components/ImageCarousel.tsx:12-16 | the index becomes nextSlide of the old index, and an index in range stays in range; a changed index restarts the timer with the current count |
| ImageCarousel.Carousel.PrevSlide | src/components/ImageCarousel.tsx:18-22 | the index becomes prevSlide of the old index, and an index in range stays in range; a changed index restarts the timer with the current count |
| FormSubmission.StatusAfter | src/components/ReservationForm.tsx:31-40 | success gives the success text; a rejection gives the endpoint's message when truthy, otherwise the fallback text; a throw gives the submission-error text; never "" |
| FormSubmission.StatusOutcomes | src/components/ContactForm.tsx:32-41 | the status is one of the three texts or the rejection's own message; outside rejections a reset comes exactly with the success text; a rejection carrying the success text shows it without a reset |
| FormSubmission.ResetIssued | src/components/ReservationForm.tsx:33 | a reset always comes with the success text; without one, the status is another text unless the endpoint rejected with that very text |
| FormSubmission.Pairs | src/components/ReservationForm.tsx:18-20 | the form's fields in document order, each with its current value |
| FormSubmission.Payload | src/components/ReservationForm.tsx:18-21 | the fields in order, then `access_key` as the last pair |
| FormSubmission.DecodePairs | src/components/ContactForm.tsx:19-21 | decoding the field pairs gives back exactly the listed fields with their values |
| FormSubmission.PayloadRoundTrip | src/components/ContactForm.tsx:19-22 | decoding the posted body gives the field record plus the access key |
| ReservationForm.Form.constructor | src/components/ReservationForm.tsx:6-12 | name, date and time start as "", guests as "2", the status as ""; the record is valid |
| ReservationForm.Form.HandleChange | src/components/ReservationForm.tsx:43-50 | exactly the named field takes the new value, every other field and the status are unchanged, and a valid record stays valid |
| ReservationForm.Form.HandleSubmit | src/components/ReservationForm.tsx:14-21 | runs only once the required name, date and time are filled in (lines 65, 84, 102); the status becomes "Sending..." before the request, and the body decodes to the fields plus the access key |
| ReservationForm.Form.ReceiveResponse | src/components/ReservationForm.tsx:22-40 | the status becomes the outcome of the response; a reset is issued on success only; the fields are not touched |
| ReservationForm.GuestOptions | src/components/ReservationForm.tsx:124-127 | eight options with counts 1..8 and values "1".."8"; the label is `form.person` exactly for 1, `form.people` otherwise |
| ReservationForm.GuestValuesDistinct | src/components/ReservationForm.tsx:124-127 | the eight values differ pairwise, and the initial "2" is one of them |
| ReservationForm.GuestLabelsListed | src/components/ReservationForm.tsx:124-127 | both label keys are translation keys |
| ReservationForm.Digit | src/components/ReservationForm.tsx:125 | the one-character numeral of the option's number |
| ContactForm.Form.constructor | src/components/ContactForm.tsx:6-13 | all five fields and the status start as ""; the record is valid |
| ContactForm.Form.HandleChange | src/components/ContactForm.tsx:44-53 | exactly the named field takes the new value, every other field and the status are unchanged, and a valid record stays valid |
| ContactForm.Form.HandleSubmit | src/components/ContactForm.tsx:15-22 | runs only once all five required controls are filled in (lines 69, 87, 105, 130, 148), so never with the placeholder reason; the status becomes "Sending..." before the request, and the body decodes to the fields plus the access key |
| ContactForm.Form.ReceiveResponse | src/components/ContactForm.tsx:23-41 | the status becomes the outcome of the response; a reset is issued on success only; the fields are left as entered |
| ContactForm.ReasonOptions | src/components/ContactForm.tsx:110-115 | the placeholder option "" first, then one option per reason with label `form.reason.<reason>` |
| ContactForm.ReasonValuesExactly | src/components/ContactForm.tsx:110-115 | the reason is one of "", general, group, private, feedback, partnership, and the initial "" is among them |
| ContactForm.ReasonLabelsListed | src/components/ContactForm.tsx:110-115 | every option's label key is a translation key |

## Left out

- Network and asynchrony: `client.fetch`, the POST to the form endpoint, `useEffect` scheduling and the order in which sections load. Each call is one atomic outcome given as a parameter: the document, or a throw.
- Document shapes: a fetched document is taken to have every field the query projects. A null document or a missing `images` array makes the handler throw, and is modelled as the throw outcome. The `alt` and `hours` values are passed through as they come.
- A contact document without `hours` is not modelled. The handler stores `data.hours` without reading it (src/App.tsx:214-218), so the slot takes a null list; the render then throws at `contactInfo.hours.length` (src/App.tsx:442) instead of keeping the old slot. The model's `hours` is always a list.
- `urlFor(asset).url()` is a function parameter; the Sanity client configuration is not part of this model.
- The access key literal is a parameter of HandleSubmit.
- The endpoint's reply is reduced to `Ok`, `Rejected(message)` or `Threw`, after `response.json()` has been awaited.
- A successful submission calls `form.reset()` on the DOM only and leaves the React field record as it was (src/components/ReservationForm.tsx:33, src/components/ContactForm.tsx:34). The call is reported as an event (the `resetIssued` result).
- LanguageContext.Resolve: a key inherited from JavaScript's object prototype (such as "constructor") would index a non-string value. The model treats every unlisted key as absent.
- DOM and event wiring: the Escape and click-outside listeners, body overflow, the never-opened `isMenuOpen` modal, and scroll-to-section arithmetic.
- The timer's clock: when a tick fires is not modelled. `Carousel.Tick` is one tick, using the image count of the render in which the index last changed (src/components/ImageCarousel.tsx:24-27).
- The effect of `currentIndex` on the page: the index is never passed to the carousel widget (src/components/ImageCarousel.tsx:31-42 sets no selected item), which keeps its own position. The index arithmetic proved here has no visible effect.
- ContactForm.Form.HandleSubmit: the browser also checks that the `type="email"` control (src/components/ContactForm.tsx:84) holds a well-formed address; that check is not modelled, only that the field is non-empty.
- The Navbar, LanguageSwitcher and Footer markup: their buttons call `setLanguage`, and most of their texts go through `t`. A few texts are chosen from `language` directly and do not use the tables: the Navbar's booking button (src/components/Navbar.tsx:93) and the gallery heading (src/App.tsx:322). The Footer's unused copy of `getTranslatedHours` is not part of this model.
- getTranslatedHours returns null, not `[]`, for an empty list (src/App.tsx:228), and the guard at src/App.tsx:442 then hides the hours.
