# Bhagyashree Earthmovers: a Dafny model of the site's core

This project models the business logic of the Bhagyashree Earthmovers web site.
It covers the Express/Mongoose backend and the React frontend.

- **Projects.** The `Project` document has field validators. A save-time hook keeps the legacy single `image` in step with the `images` list. The model also covers the derived primary image and the `addImage`/`removeImage` instance methods. The image validator returns `undefined` when neither field was sent, which Mongoose counts as a pass, so such a project is saved with no image and its carousel is empty.
- **The contact document.** This is the single `ContactInfo` document with its four sub-item arrays: phones, addresses, working hours and social media links. The model covers:
  - its schema defaults and `required`/enum rules;
  - the controller handlers that create, read, append to, update by id and delete by id, each answering with an HTTP status;
  - `formatForFrontend`.
- **Administrator accounts.** Registration is open only while no administrator exists. Login answers one generic failure.
- **The footer.** Getters pick the first active phone, address or link of a kind, or fall back to hard-coded values. The working-hours table is built by a loop.
- **The machinery section.** It has call and WhatsApp numbers, an availability badge and a fallback equipment list.
- **The "trusted by" section.** Each project card has an image carousel: its index arithmetic, its buttons, dots and autoplay. The section also covers the five projects shown, the carousel's image fallback and the icon per project type.
- **The admin service editor.** Its form state and feature-list edits, and what a submission sends.
- **Toast notifications.** Toasts are added with fresh ids, removed by id and styled per type.
- **Equipment specification templates.** A lookup table with a fallback.

Each source file is one module, except `backend/models/ContactMethod.js`: its schema is `ContactSchema` and its `formatForFrontend` method is `ContactFormat`.

- State that the source changes in place becomes a class:
  - `ProjectDocument`, the Mongoose document;
  - `ContactStore`, the database holding at most one contact document and the id counter;
  - `AdminStore`;
  - `ImageCarousel`, `ServiceForm` and `ToastList`, which model React state.
- Pure choices and folds are functions.
- The properties the code relies on are lemmas: validity preserved by every handler, round trips, "last entry wins", idempotence, and order preservation.

Conventions:

- An optional string the source tests for truthiness holds `""` when unset.
- A field a request body may leave out is an `Option`.
- The shared helpers live in `Seqs` (sequence search, filter and fold) and `Strings` (JavaScript's `trim`, whitespace and digit stripping, lower-casing, capitalising, and the `||` fallback).

## Model

| member | source | states |
|---|---|---|
| Projects.Cast | backend/models/Project.js:3-76 | A new document has `name`, `location`, `description`, `clientName`, `duration` and a sent legacy `image` trimmed, leaves an unsent `image` unset, and keeps `projectType`, `year` and `projectValue` as sent. A supplied `status`, `featured`, `images` or `tags` is kept; a missing one defaults to "Completed", not featured, an empty list and no tags |
| Projects.NoViolationsIffValid | backend/models/Project.js:4-68 | `validate()` reports no failure exactly when every path's validator passes |
| Projects.ValidMeans | backend/models/Project.js:4-68 | Valid means all of: name non-empty and at most 100 characters; location present; type one of the four project types; description non-empty and at most 500 characters; year exactly four digits; an image in `image` or `images`, or `image` never set (the validator's `undefined` result passes); status in the enum; project value not negative |
| Projects.ImageCheck | backend/models/Project.js:40-50 | The image check fails exactly when `images` is empty and `image` was set to "". It passes exactly when there is an image in either field or `image` was never set |
| Projects.CastImageCheck | backend/models/Project.js:35-50 | A body with neither image field is stored with no image and passes the image check. A blank `image` with no `images` fails it with "At least one image is required" |
| Projects.DefaultsAreValid | backend/models/Project.js:52-60 | A body without status or featured is stored as a completed, non-featured project, and that status passes the enum |
| Projects.SyncRules | backend/models/Project.js:97-107 | The hook copies a set `image` into an empty list. It copies the trimmed first list entry into an unset or empty `image`. A project with no image anywhere is left alone |
| Projects.SyncFillsBoth | backend/models/Project.js:97-107 | After the hook, a project with an image anywhere has one in both fields, unless the only source is a blank first URL |
| Projects.SyncBlankFirstUrl | backend/models/Project.js:35-38 | A blank first URL trims to "" and leaves `image` falsy |
| Projects.SyncKeepsBothSet | backend/models/Project.js:97-107 | A project with both fields set is untouched, even when `image` differs from `images[0]` |
| Projects.SyncAllowsDifferentPrimary | backend/models/Project.js:97-107 | The hook does not enforce `image == images[0]` |
| Projects.SyncIdempotent | backend/models/Project.js:97-107 | Running the hook twice equals running it once |
| Projects.SyncPreservesValidity | backend/models/Project.js:40-50 | The hook never changes whether a document validates, so it does not matter that validation runs before it |
| Projects.SyncPreservesPrimary | backend/models/Project.js:89-107 | The `primaryImage` virtual is the same before and after the hook |
| Projects.SavedPrimaryIsFirst | backend/models/Project.js:89-94 | A valid saved project has a non-empty `images` list exactly when it had an image in either field, and then the list's first element is the primary image. A project saved without one is left as it was and has no primary image |
| Projects.WithoutUrl | backend/models/Project.js:129-134 | `removeImage`'s list holds no occurrence of the URL and every other URL of the old list exactly as many times as before |
| Projects.WithoutUrlAppend | backend/models/Project.js:131 | Removing a URL works piecewise on any split of the list, so the kept URLs stay in their order |
| Projects.WithoutAbsentUrl | backend/models/Project.js:131 | Removing a URL the list does not hold leaves the list as it is |
| Projects.RemoveLastImageRestored | backend/models/Project.js:129-134 | Removing the only image when it is also `image` is undone by the hook |
| Projects.RemovePrimaryLeavesImage | backend/models/Project.js:129-134 | Removing the primary URL leaves `image` pointing at a URL no longer in `images` |
| Projects.ProjectDocument.constructor | backend/models/Project.js:3-76 | A new document holds the cast body |
| Projects.ProjectDocument.PreSave | backend/models/Project.js:97-107 | The fields after the hook are the synced value of the fields before it |
| Projects.ProjectDocument.Save | backend/models/Project.js:40-107 | An invalid document answers its violations and is unchanged. A valid one is synced and stays valid |
| Projects.ProjectDocument.AddImage | backend/models/Project.js:121-127 | The URL is appended. The save succeeds exactly when the extended document is valid, and then the hook has run. A failed save leaves the appended list in memory |
| Projects.ProjectDocument.RemoveImage | backend/models/Project.js:129-134 | The list becomes `WithoutUrl` of the old one. The save succeeds exactly when the reduced document is valid, and `image` changes only through the hook |
| ContactSchema.NewPhone | backend/models/ContactMethod.js:4-27 | A pushed phone gets its id and the defaults: country code "+91", active, display order 0 |
| ContactSchema.NewAddress | backend/models/ContactMethod.js:29-69 | A pushed address defaults to type "main", country "India" and active |
| ContactSchema.NewHours | backend/models/ContactMethod.js:71-90 | A pushed working-hours entry defaults to not closed |
| ContactSchema.NewSocial | backend/models/ContactMethod.js:92-108 | A pushed social link defaults to active |
| ContactSchema.MergePhoneFields | backend/controllers/contactMethodController.js:145 | A merge keeps the id and overrides exactly the fields the body carries. The number is trimmed |
| ContactSchema.MergeNumberOnly | backend/controllers/contactMethodController.js:145 | A body with only a number changes only the number |
| ContactSchema.MergePhoneEmptyBody | backend/controllers/contactMethodController.js:145 | An empty body leaves a stored phone unchanged |
| ContactSchema.MergeAddressEmptyBody | backend/controllers/contactMethodController.js:145 | An empty body leaves a stored address unchanged |
| ContactSchema.MergeHoursEmptyBody | backend/controllers/contactMethodController.js:145 | An empty body leaves a stored working-hours entry unchanged |
| ContactSchema.MergeSocialEmptyBody | backend/controllers/contactMethodController.js:145 | An empty body leaves a stored social link unchanged |
| ContactSchema.MergeEmptyBody | backend/controllers/contactMethodController.js:145 | An empty body leaves each kind of sub-item unchanged |
| ContactSchema.NewAddressDefaults | backend/models/ContactMethod.js:29-59 | Without a type and a country, an address is a main address in India, and "main" is in the enum |
| ContactSchema.NewPhoneNeedsTypeAndNumber | backend/models/ContactMethod.js:4-14 | A valid pushed phone came from a body with a type and a number that is not blank after trimming |
| ContactSchema.NormalizeEmail | backend/models/ContactMethod.js:117-122 | The stored business email holds no upper-case letter, starts and ends with a non-whitespace character, and is no longer than what was sent |
| ContactSchema.NormalizeEmailIdempotent | backend/models/ContactMethod.js:117-122 | Passing a stored email through the setters again changes nothing |
| ContactSchema.CreateFrom | backend/controllers/contactMethodController.js:32 | A document created from a body has no sub-items |
| ContactSchema.CreateFromFields | backend/controllers/contactMethodController.js:32 | A created document holds the trimmed name, the lower-cased trimmed email and every other body field as sent; a missing field is "", `isActive` true and `version` 1 |
| ContactSchema.CreateFromValid | backend/models/ContactMethod.js:110-122 | A created document is valid exactly when the body carries a non-blank business name and email |
| ContactSchema.ApplyPatch | backend/controllers/contactMethodController.js:35-39 | An update of the scalar fields leaves all four arrays unchanged |
| ContactSchema.ApplyPatchFields | backend/controllers/contactMethodController.js:35-39 | A field the body sets is stored through its setter (trimmed name, lower-cased trimmed email, others as sent); a field it leaves out keeps its stored value |
| ContactSchema.ApplyPatchValid | backend/controllers/contactMethodController.js:26-46 | An update that passes the update validators keeps a valid document valid |
| ContactSchema.DefaultContactInfoValid | backend/controllers/contactMethodController.js:3-23 | The default document created on first read passes validation |
| ContactSchema.ItemOnlyDocumentInvalid | backend/models/ContactMethod.js:112-122 | A document without a business name or email fails validation |
| ContactFormat.FirstNumber | backend/models/ContactMethod.js:180-182 | The number of the first phone of that type, active or not, or "" exactly when no phone has that type |
| ContactFormat.MainAddressView | backend/models/ContactMethod.js:188-195 | null exactly when no address is of type main. Otherwise the fields of the first main address |
| ContactFormat.FormatForFrontend | backend/models/ContactMethod.js:176-212 | The three phone fields are the first number of each type and the address is the first main address. The support and sales emails fall back to the business email. The hours and links objects have exactly the listed days and platforms as keys |
| ContactFormat.FormatValidDocument | backend/models/ContactMethod.js:183-186 | For a valid document both fallback emails are non-empty. A phone field is non-empty exactly when some phone has that type |
| ContactFormat.FormatIgnoresIsActive | backend/models/ContactMethod.js:180 | A deactivated primary phone is still shown |
| ContactFormat.HoursLastEntryWins | backend/models/ContactMethod.js:197-205 | A repeated day keeps the hours of its last entry |
| ContactFormat.SocialLastEntryWins | backend/models/ContactMethod.js:207-210 | A repeated platform keeps the URL of its last entry |
| ContactController.ParseArrayName | backend/controllers/contactMethodController.js:131-139 | Each of the four array names yields its own array; any other name is kept as a field that is not an array |
| ContactController.AppendedFrame | backend/controllers/contactMethodController.js:49-126 | A push grows only the named array, by one item at its end, keeps its earlier items, and the new last item is the body as the sub-schema casts it |
| ContactController.AppendedValid | backend/controllers/contactMethodController.js:49-126 | Saving after a push onto a valid document succeeds exactly when the new item is valid |
| ContactController.AppendedFresh | backend/controllers/contactMethodController.js:49-126 | An item keyed by the counter keeps all ids distinct and below the next counter |
| ContactController.ReplaceById | backend/controllers/contactMethodController.js:138-145 | No replacement happens exactly when no item has the id |
| ContactController.ReplaceByIdFrame | backend/controllers/contactMethodController.js:138-145 | Only the first item with the id is replaced by its merge. The length and every other item are kept |
| ContactController.ReplaceByIdFresh | backend/controllers/contactMethodController.js:138-145 | A merge that keeps the id keeps ids fresh |
| ContactController.UpdateItemFrame | backend/controllers/contactMethodController.js:129-152 | The update finds no item exactly when the named array lacks the id. Otherwise only that array changes, with the same length |
| ContactController.UpdatePhoneItem | backend/controllers/contactMethodController.js:138-145 | The first phone with the id becomes its merge with the body. Phones with another id are unchanged |
| ContactController.UpdateItemFresh | backend/controllers/contactMethodController.js:129-152 | An update keeps ids fresh |
| ContactController.DeleteItemFrame | backend/controllers/contactMethodController.js:154-172 | A delete changes only the named array and never grows it. It keeps a valid document valid and its ids fresh |
| ContactController.DeletePhoneExactlyOne | backend/controllers/contactMethodController.js:163-165 | With fresh ids, a delete removes exactly the one phone with the id, keeping the others in order, or nothing when no phone has it |
| ContactController.DeleteAddressExactlyOne | backend/controllers/contactMethodController.js:163-165 | The same for addresses |
| ContactController.DeleteHoursExactlyOne | backend/controllers/contactMethodController.js:163-165 | The same for working-hours entries |
| ContactController.DeleteSocialExactlyOne | backend/controllers/contactMethodController.js:163-165 | The same for social links |
| ContactController.AddThenDelete | backend/controllers/contactMethodController.js:49-172 | Pushing an item and then deleting it by its id gives back the document |
| ContactController.MergePhoneNumberStable | backend/controllers/contactMethodController.js:145 | A repeated update leaves the stored number as the first update set it |
| ContactController.MergePhoneIdempotent | backend/controllers/contactMethodController.js:145 | Sending the same update twice stores the same phone as sending it once |
| ContactController.ItemOnlyCreateFails | backend/controllers/contactMethodController.js:49-60 | With no document, the created document holds only the new item and never passes validation |
| ContactController.AddOutcomeCases | backend/controllers/contactMethodController.js:49-126 | Without a document an add answers 400 and stores nothing. With one, it answers 201 with the pushed document when the item is valid, and 400 with nothing changed otherwise |
| ContactController.AddOutcomeValid | backend/controllers/contactMethodController.js:49-126 | Every add keeps the stored document valid with fresh ids |
| ContactController.UpdateOutcome | backend/controllers/contactMethodController.js:129-152 | No document answers 404 "Contact info not found" and a non-array field 400. No item with the id answers 404 "Item not found". Otherwise the merged document is stored and answered with 200 when it validates, and nothing changes with 400 when it does not |
| ContactController.UpdateOutcomeValid | backend/controllers/contactMethodController.js:129-152 | Every update keeps the store valid. A 200 answer changes only the named array and keeps its length |
| ContactController.DeleteOutcome | backend/controllers/contactMethodController.js:154-172 | No document answers 404 and a non-array field 400, each with nothing changed. Otherwise the document with the id filtered out of the named array is stored and answered with 200 |
| ContactController.DeleteOutcomeValid | backend/controllers/contactMethodController.js:154-172 | A delete keeps the store valid, so its save never fails |
| ContactController.ContactStore.constructor | backend/controllers/contactMethodController.js:3-23 | The store starts empty and valid |
| ContactController.ContactStore.GetContactInfo | backend/controllers/contactMethodController.js:3-23 | Answers 200 with the stored document. It creates and stores the default document first when there is none |
| ContactController.ContactStore.UpdateContactInfo | backend/controllers/contactMethodController.js:26-46 | Creates from the body or applies it as an update. Answers 400 with nothing changed when validation fails. Keeps the store valid |
| ContactController.ContactStore.AddItem | backend/controllers/contactMethodController.js:49-126 | The new state and answer are the add outcome, and the store stays valid |
| ContactController.ContactStore.AddPhone | backend/controllers/contactMethodController.js:49-66 | `addPhone` is the add outcome on the phones array |
| ContactController.ContactStore.AddAddress | backend/controllers/contactMethodController.js:69-86 | `addAddress` is the add outcome on the addresses array |
| ContactController.ContactStore.AddWorkingHours | backend/controllers/contactMethodController.js:89-106 | `addWorkingHours` is the add outcome on the working-hours array |
| ContactController.ContactStore.AddSocialMedia | backend/controllers/contactMethodController.js:109-126 | `addSocialMedia` is the add outcome on the social media array |
| ContactController.ContactStore.UpdateArrayItem | backend/controllers/contactMethodController.js:129-152 | The new state and answer are the update outcome, and the store stays valid |
| ContactController.ContactStore.DeleteArrayItem | backend/controllers/contactMethodController.js:154-172 | The new state and answer are the delete outcome, and the store stays valid |
| ContactController.ReadTwice | backend/controllers/contactMethodController.js:3-23 | A second read answers 200 with the same document as the first |
| ContactController.AddPhoneThenDelete | backend/controllers/contactMethodController.js:49-66 | Adding a valid phone answers 201. Deleting it by its new id answers 200 with the original document |
| Auth.Hash | backend/controllers/authController.js:40 | The digest records the salt it was made with and at most the first 72 characters of the password |
| Auth.HashMatches | backend/controllers/authController.js:13 | A password matches its own hash under any salt. Another password matches exactly when its first 72 characters agree, so for passwords of at most 72 characters only the same one matches |
| Auth.Significant | backend/controllers/authController.js:13 | bcrypt uses at most the first 72 characters of a password: shorter ones whole, longer ones cut to 72 |
| Auth.LongPasswordsCollide | backend/controllers/authController.js:13 | Two long passwords that share their first 72 characters match each other's hash |
| Auth.AdminStore.constructor | backend/controllers/authController.js:25 | The store holds the given administrators |
| Auth.AdminStore.Register | backend/controllers/authController.js:22-54 | 403 with nothing changed once an admin exists, checked before the body. 400 without an email or password. Otherwise exactly one local admin with the hashed password, answering 201 with a session and the registered email |
| Auth.AdminStore.Login | backend/controllers/authController.js:5-20 | Succeeds exactly when the first admin with that email is local and the password matches, and then opens that admin's session. Every failure is the same 401 "Invalid credentials" |
| Auth.RegisterTwice | backend/controllers/authController.js:25-28 | Only the first registration succeeds, and the store keeps one admin |
| Auth.RegisterThenLogin | backend/controllers/authController.js:5-54 | The registered credentials log in. The same email with a password that differs within the first 72 characters gets 401 |
| Footer.ActivePhone | frontend/src/components/Footer.jsx:62 | None exactly when no phone of the type is active. Otherwise the first active phone of the type |
| Footer.PrimaryPhone | frontend/src/components/Footer.jsx:60-64 | The fallback "+91 7620382150" without a document or an active primary phone. Otherwise the first active primary phone as "code number" |
| Footer.WhatsAppPhone | frontend/src/components/Footer.jsx:66-70 | The fallback without an active WhatsApp phone. Otherwise the first one's number with non-digits removed |
| Footer.WhatsAppAllDigits | frontend/src/components/Footer.jsx:66-70 | The WhatsApp number is all digits in every branch, and non-empty unless it comes from a stored number |
| Footer.BusinessEmail | frontend/src/components/Footer.jsx:72-74 | Never empty. The stored email when set, else the fallback address |
| Footer.SupportEmail | frontend/src/components/Footer.jsx:157-159 | Never empty. The support email when set, else the business email shown |
| Footer.EmergencyContact | frontend/src/components/Footer.jsx:151-155 | The first active emergency phone, else what `getPrimaryPhone` shows |
| Footer.DialNumber | frontend/src/components/Footer.jsx:162-165 | The dialled number holds no whitespace |
| Footer.DialDisplayedPhone | frontend/src/components/Footer.jsx:163 | A displayed phone is dialled as its country code joined to its number when neither holds whitespace |
| Footer.MainAddress | frontend/src/components/Footer.jsx:76-86 | The fallback text exactly when no address is active and main. Otherwise the first such address's line1, its line2 or "India - 415108", and its map link or the Google Maps home page |
| Footer.FormattedHoursStep | frontend/src/components/Footer.jsx:101-105 | One more entry: an open one overwrites its day's span, a closed one changes nothing |
| Footer.BuildFormattedHours | frontend/src/components/Footer.jsx:96-105 | The loop builds the table of the last open span per day |
| Footer.GetWorkingHours | frontend/src/components/Footer.jsx:88-115 | The default lines without a document. Otherwise the summary of the built table |
| Footer.TableEntry | frontend/src/components/Footer.jsx:101-105 | A day is in a folded table exactly when an entry names it, and then it holds the span of the last such entry |
| Footer.DayEntry | frontend/src/components/Footer.jsx:101-105 | A day is in the hours table exactly when it has an open entry, and then it holds the last one's span |
| Footer.WeekdayUsesMonday | frontend/src/components/Footer.jsx:108-112 | The weekday line shows the last open Monday span or the default. No other weekday is consulted |
| Footer.WeekendUsesSunday | frontend/src/components/Footer.jsx:109-113 | The weekend line shows the last open Sunday span or "By Appointment" |
| Footer.ClosedEntryKeepsEarlierHours | frontend/src/components/Footer.jsx:102 | A closed entry does not clear earlier open hours |
| Footer.SocialLinks | frontend/src/components/Footer.jsx:117-149 | The four default links without a document. Otherwise no more links than entries |
| Footer.SocialLinksFromActive | frontend/src/components/Footer.jsx:137-148 | Every link is built from an active entry |
| Footer.SocialLinksCoverActive | frontend/src/components/Footer.jsx:137-148 | Every active entry gives a link |
| Footer.SocialLinksAppend | frontend/src/components/Footer.jsx:137-148 | Links keep entry order: an appended active entry adds its link at the end, and an inactive one adds nothing |
| Footer.SocialLabelCapitalised | frontend/src/components/Footer.jsx:141 | The label is the platform name with its first letter upper-cased |
| Machinery.CallPhone | frontend/src/components/MachinerySection.jsx:106-108 | The first active primary phone when one exists, else the first active phone. None exactly when no phone is active |
| Machinery.WhatsAppPhone | frontend/src/components/MachinerySection.jsx:106-109 | The first active WhatsApp phone when one exists, else the call phone |
| Machinery.Dialled | frontend/src/components/MachinerySection.jsx:112-113 | The dialled string holds no whitespace |
| Machinery.ContactNumbers | frontend/src/components/MachinerySection.jsx:98-115 | Both numbers are the fallback while loading or without phones. Otherwise they dial the chosen phones. Neither holds whitespace |
| Machinery.NoActivePhoneDialsFallback | frontend/src/components/MachinerySection.jsx:106-113 | Without an active phone both buttons dial "+918208584646" |
| Machinery.DialledJoins | frontend/src/components/MachinerySection.jsx:112-113 | A phone whose code and number are set and free of whitespace is dialled as the two joined |
| Machinery.FallbackPhoneChoices | frontend/src/components/MachinerySection.jsx:66-71 | Of the fallback phones, calls use the primary one and WhatsApp the WhatsApp one |
| Machinery.ChosenPhonesDial | frontend/src/components/MachinerySection.jsx:108-113 | The buttons dial each chosen phone's code joined to its number |
| Machinery.FallbackPhonesDialFallback | frontend/src/components/MachinerySection.jsx:66-71 | The phones assumed after a failed request dial the same fallback number from both buttons |
| Machinery.FallbackLiteralsNoSpace | frontend/src/components/MachinerySection.jsx:68-69 | The fallback code and number hold no whitespace |
| Machinery.FallbackNumberJoins | frontend/src/components/MachinerySection.jsx:101 | The fallback number is "+91" joined to the fallback local number |
| Machinery.ShownMachinery | frontend/src/components/MachinerySection.jsx:86 | The fetched list when non-empty, else exactly the fallback list. Never empty |
| Machinery.AvailabilityRules | frontend/src/components/MachinerySection.jsx:17-54 | A missing `available` counts as available and only an explicit false does not. The fallback list has four machines and only the third is unavailable |
| TrustedBy.Next | frontend/src/components/TrustedBy.jsx:12-15 | The next index is in range: one more, or 0 after the last image |
| TrustedBy.Prev | frontend/src/components/TrustedBy.jsx:17-20 | The previous index is in range: one less, or the last image from 0 |
| TrustedBy.PrevNextInverse | frontend/src/components/TrustedBy.jsx:12-20 | Previous undoes next, and next undoes previous |
| TrustedBy.Steps | frontend/src/components/TrustedBy.jsx:22-27 | Any number of autoplay steps keeps the index in range |
| TrustedBy.StepsAdvance | frontend/src/components/TrustedBy.jsx:22-27 | Within one round, k steps move k places forward, wrapping once |
| TrustedBy.FullCycle | frontend/src/components/TrustedBy.jsx:22-27 | As many steps as images return to the starting image |
| TrustedBy.ImageCarousel.constructor | frontend/src/components/TrustedBy.jsx:9-10 | A carousel starts on the first image |
| TrustedBy.ImageCarousel.Shown | frontend/src/components/TrustedBy.jsx:29 | Nothing is rendered exactly when there are no images. Otherwise the image at the current index |
| TrustedBy.ImageCarousel.NextImage | frontend/src/components/TrustedBy.jsx:12-15 | The index moves to the next one |
| TrustedBy.ImageCarousel.PrevImage | frontend/src/components/TrustedBy.jsx:17-20 | The index moves to the previous one |
| TrustedBy.ImageCarousel.Tick | frontend/src/components/TrustedBy.jsx:22-27 | One autoplay tick moves to the next index |
| TrustedBy.ImageCarousel.GoTo | frontend/src/components/TrustedBy.jsx:73-76 | A dot selects its own image |
| TrustedBy.Autoplay | frontend/src/components/TrustedBy.jsx:22-27 | After k ticks the index is k steps on. After as many ticks as images it is back where it started |
| TrustedBy.TopProjects | frontend/src/components/TrustedBy.jsx:169 | At most five projects, a prefix of the fetched list, and all of them when fewer than five |
| TrustedBy.CarouselImages | frontend/src/components/TrustedBy.jsx:396 | A missing list becomes the single legacy image. A present list, even an empty one, is used as it is |
| TrustedBy.SavedProjectHasCarousel | frontend/src/components/TrustedBy.jsx:396 | A project saved through validation and the hook gives its carousel an image exactly when it had one in either field. One saved with `image` never set and no `images` gives an empty carousel |
| TrustedBy.IconForType | frontend/src/components/TrustedBy.jsx:245-253 | Each of Industrial, Residential and Infrastructure has its own icon. Commercial and every unknown type get Building2 |
| AdminServices.WithoutIndex | frontend/src/components/AdminServices.jsx:61 | The list without the element at the index. An index outside the list removes nothing |
| AdminServices.RemovedFeature | frontend/src/components/AdminServices.jsx:60-63 | Never empty. The element removed, or one empty row when none would be left |
| AdminServices.ChangedFeature | frontend/src/components/AdminServices.jsx:53-57 | A copy of the same length with only the indexed row replaced |
| AdminServices.SentFeatures | frontend/src/components/AdminServices.jsx:117 | Exactly the non-blank rows are sent |
| AdminServices.SentIffNotBlank | frontend/src/components/AdminServices.jsx:117 | A row is sent exactly when it holds a non-whitespace character |
| AdminServices.SentKeepsOrder | frontend/src/components/AdminServices.jsx:117 | Sent rows keep their order |
| AdminServices.AllFilledAllSent | frontend/src/components/AdminServices.jsx:117 | A list of filled rows is sent whole |
| AdminServices.EmptyRowNotSent | frontend/src/components/AdminServices.jsx:59-117 | An added empty row is never sent |
| AdminServices.ServiceForm.constructor | frontend/src/components/AdminServices.jsx:84 | The form starts blank with one empty row |
| AdminServices.ServiceForm.OpenCreate | frontend/src/components/AdminServices.jsx:82-87 | A blank form with one empty row, editing nothing |
| AdminServices.ServiceForm.OpenEdit | frontend/src/components/AdminServices.jsx:89-99 | The service's fields, with one empty row when it has no features |
| AdminServices.ServiceForm.AddFeature | frontend/src/components/AdminServices.jsx:59 | One empty row at the end, other fields kept |
| AdminServices.ServiceForm.RemoveFeature | frontend/src/components/AdminServices.jsx:60-63 | The removed-feature list, and the list never empties |
| AdminServices.ServiceForm.ChangeFeature | frontend/src/components/AdminServices.jsx:53-57 | Only the indexed row changes |
| AdminServices.ServiceForm.Submit | frontend/src/components/AdminServices.jsx:109-130 | Refused exactly when the title or description is empty. Otherwise the fields and the sent rows, tagged with the edited service for a PUT |
| AdminServices.AddRowThenSubmit | frontend/src/components/AdminServices.jsx:59-117 | Adding a row does not change what a submission sends |
| Toasts.StyleFor | frontend/src/context/ToastContext.jsx:16-39 | Each of the three other types has its own icon. Every unknown type gets the info style |
| Toasts.ScheduledRemoval | frontend/src/context/ToastContext.jsx:81-91 | A removal is scheduled after 5000 ms by default, after a positive duration, and never otherwise |
| Toasts.WithoutToast | frontend/src/context/ToastContext.jsx:96-98 | No toast with the id remains. Every other toast is kept |
| Toasts.RemoveExactlyOne | frontend/src/context/ToastContext.jsx:96-98 | With distinct ids, removal drops exactly the toast with the id, or nothing |
| Toasts.RemoveTwice | frontend/src/context/ToastContext.jsx:87-98 | The timer of a toast already closed removes nothing more |
| Toasts.AddThenRemove | frontend/src/context/ToastContext.jsx:81-98 | Removing the toast just added restores the list |
| Toasts.ToastList.constructor | frontend/src/context/ToastContext.jsx:79 | The list starts empty |
| Toasts.ToastList.AddToast | frontend/src/context/ToastContext.jsx:81-94 | Appends one toast with a fresh id, default type "info", and returns the id. Ids stay distinct |
| Toasts.ToastList.RemoveToast | frontend/src/context/ToastContext.jsx:96-98 | The list without the id, ids still distinct |
| Toasts.ToastList.Success | frontend/src/context/ToastContext.jsx:101 | Appends a success toast with a fresh id |
| Toasts.ToastList.Error | frontend/src/context/ToastContext.jsx:102 | Appends an error toast with a fresh id |
| Toasts.ToastList.Warning | frontend/src/context/ToastContext.jsx:103 | Appends a warning toast with a fresh id |
| Toasts.ToastList.Info | frontend/src/context/ToastContext.jsx:104 | Appends an info toast with a fresh id |
| Toasts.ShowThenClose | frontend/src/context/ToastContext.jsx:81-105 | Showing a toast and closing it leaves the list as before |
| SpecConfig.GetSpecDetailsAsWritten | frontend/src/config/specConfig.js:50-55 | The lookup as written: a table key gives its template, an inherited member name gives a function, and any other key falls back |
| SpecConfig.AsWrittenToStringHasNoLabel | frontend/src/config/specConfig.js:50-55 | "toString" gets a function rather than a template |
| SpecConfig.GetSpecDetails | frontend/src/config/specConfig.js:50-55 | The template for a table key. Otherwise the key as its own label with the Settings icon |
| SpecConfig.SpecDetailsTotal | frontend/src/config/specConfig.js:50-55 | Every key gets a template, and an unknown key shows as itself |
| SpecConfig.CorrectedAgreesOffPrototype | frontend/src/config/specConfig.js:50-55 | The corrected lookup agrees with the code as written on every key that is not an inherited member name |
| SpecConfig.TableKeysNotInherited | frontend/src/config/specConfig.js:3-48 | No table key is an inherited member name |
| SpecConfig.TemplateLabels | frontend/src/config/specConfig.js:3-48 | The labels of the eleven templates |

## Left out

- **Excluded by design.** The model leaves out:
  - HTTP transport, cookies and JWT issuing;
  - logout and the `/me` route;
  - database I/O and its failures;
  - timers, including the toast timeout and the four-second interval, which become explicit steps;
  - `Date.now()` and `Math.random()`;
  - file uploads and previews;
  - rendering;
  - concurrency between requests.
- Auth.Hash: bcrypt's cipher is not reproduced. The hash is an ideal function of the first 72 characters of the password, with the salt as a parameter. bcryptjs counts 72 UTF-8 bytes, not characters; the two agree on ASCII passwords.
- Auth.AdminStore.Login: a body without an email or password is modelled as empty strings. The code would query with an undefined email, and bcrypt would throw on an undefined password. That 500 path is not modelled.
- Auth.AdminStore.Register: the 409 duplicate check is modelled as a lookup. It never finds an admin, because registration is refused once any admin exists, so the 409 answer is not part of the contract.
- **Character and number semantics.**
  - Strings.Lower: only the ASCII letters A-Z are lower-cased. JavaScript's `toLowerCase` also maps non-ASCII letters.
  - ContactSchema.NormalizeEmail inherits this: an email with a non-ASCII capital letter keeps it in the model.
  - Footer.SocialLabelCapitalised: `toUpperCase` is likewise modelled on ASCII letters only. Platform names come from the schema's enum, which is all ASCII.
  - Projects.Cast: `projectValue` is a JavaScript Number, modelled as an integer, so fractional values are not represented. The same holds for a phone's `displayOrder` and the document's `version` in ContactSchema.
- **Response and error details.**
  - Error message texts carried by 400 answers are not modelled, except the project validator messages.
  - Response-shape normalisation in the frontend (`data.equipment || data.data`) is not modelled.
  - The coordinates and `lastUpdated`, `createdBy` and timestamps fields are not modelled.
  - String lengths are counted in characters, not UTF-16 code units.
- **Request bodies.**
  - A body field naming `_id` is not modelled; sub-item ids come from a counter.
  - ContactController.ContactStore.UpdateContactInfo: an update body carrying whole arrays is not modelled. Only the scalar fields of the document are updatable.
- ContactFormat.FormatForFrontend is modelled as the schema method. No controller in the core calls it.
- The project controller's update path, `findByIdAndUpdate`, bypasses the save hook and full validation. It is not part of this model. Only `save()`, `addImage` and `removeImage` are.
- Projects.Cast: an `image` sent as JSON `null` is not modelled. The validator would return `null`, which fails, while the model has only sent strings and an absent field. The admin form sends multipart fields, which are strings or absent.
- TrustedBy.ImageCarousel.Tick: on an empty carousel the interval computes `NaN`, and nothing is rendered. The model requires at least one image.
- **Index preconditions.**
  - AdminServices.ServiceForm.ChangeFeature requires an index inside the list. The inputs rendered are the only callers.
  - AdminServices.ChangedFeature has the same requirement.
- AdminServices: the image file and its preview are not modelled, and neither is `handleChange` for the text fields. `closeModal` is not modelled; it resets like OpenCreate.
- **Inherited property names.**
  - Toasts.StyleFor: a toast type naming an inherited object property, such as "toString", would read a function from `config`. No caller passes one: toasts come only from the four helpers and the "info" default. The model maps every unknown type to the info style.
  - Footer.IconFor: the same applies to the icon map. Platform names are limited by the schema's enum.
- Toast ids are modelled as consecutive naturals. The `Date.now() + Math.random()` ids are assumed distinct.
- Machinery: the booking message texts and the animated counters are not modelled.

## Findings

| source | as written | input that shows it | evidently intended | confidence | as-written member | corrected member |
|---|---|---|---|---|---|---|
| frontend/src/config/specConfig.js:50-55 | `SPEC_TEMPLATES[type] \|\| {label: type, icon: Settings}` also reads members inherited from `Object.prototype` | `getSpecDetails("toString")` returns a function, so the label read from it is undefined and no icon is found | look up only the table's own keys, and fall back to the key itself with the Settings icon | not executed | SpecConfig.AsWrittenToStringHasNoLabel | SpecConfig.GetSpecDetails |
