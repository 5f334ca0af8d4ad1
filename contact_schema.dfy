/** The ContactInfo document and its four kinds of sub-item (phones, addresses,
    working hours, social media links): enumerations, defaults, `required`
    rules and setters (backend/models/ContactMethod.js). Every sub-item carries
    its own id. Optional strings hold "" when unset. */
module ContactSchema {
  import opened Seqs
  import opened Strings

  const PhoneTypes: set<string> := {"primary", "secondary", "whatsapp", "emergency", "sales", "support"}
  const AddressTypes: set<string> := {"main", "branch", "warehouse"}
  const Days: set<string> := {"monday", "tuesday", "wednesday", "thursday", "friday", "saturday", "sunday"}
  const Platforms: set<string> := {"facebook", "twitter", "instagram", "linkedin", "youtube", "whatsapp", "telegram"}

  const DefaultCountryCode := "+91"
  const DefaultAddressType := "main"
  const DefaultCountry := "India"

  datatype Phone = Phone(
    id: nat, phoneType: string, number: string, countryCode: string, isActive: bool, displayOrder: int)

  datatype Address = Address(
    id: nat, addressType: string, name: string, line1: string, line2: string, city: string,
    state: string, postalCode: string, country: string, googleMapsUrl: string, isActive: bool)

  datatype Hours = Hours(
    id: nat, day: string, openTime: string, closeTime: string, isClosed: bool, note: string)

  datatype Social = Social(
    id: nat, platform: string, url: string, icon: string, displayName: string, isActive: bool)

  function PhoneId(p: Phone): nat { p.id }
  function AddressId(a: Address): nat { a.id }
  function HoursId(h: Hours): nat { h.id }
  function SocialId(s: Social): nat { s.id }

  /** A request body for a sub-item: one entry per field any sub-item schema knows
      (`kind` is the JSON field `type`); None is a field the body leaves out.
      Fields no schema knows are dropped by Mongoose's strict mode and are not kept. */
  datatype Body = Body(
    kind: Option<string>, number: Option<string>, countryCode: Option<string>,
    isActive: Option<bool>, displayOrder: Option<int>,
    name: Option<string>, line1: Option<string>, line2: Option<string>, city: Option<string>,
    state: Option<string>, postalCode: Option<string>, country: Option<string>,
    googleMapsUrl: Option<string>,
    day: Option<string>, openTime: Option<string>, closeTime: Option<string>,
    isClosed: Option<bool>, note: Option<string>,
    platform: Option<string>, url: Option<string>, icon: Option<string>, displayName: Option<string>)

  const EmptyBody := Body(None, None, None, None, None, None, None, None, None, None, None, None,
                          None, None, None, None, None, None, None, None, None, None)

  // A pushed body becomes a sub-document: absent fields take their defaults
  // ("" for fields without one) and `number` goes through its `trim` setter.

  function NewPhone(id: nat, b: Body): (p: Phone)
    ensures p.id == id
    ensures b.countryCode.None? ==> p.countryCode == DefaultCountryCode
    ensures b.isActive.None? ==> p.isActive
    ensures b.displayOrder.None? ==> p.displayOrder == 0
  {
    Phone(id, b.kind.GetOr(""), Trim(b.number.GetOr("")), b.countryCode.GetOr(DefaultCountryCode),
          b.isActive.GetOr(true), b.displayOrder.GetOr(0))
  }

  function NewAddress(id: nat, b: Body): (a: Address)
    ensures a.id == id
    ensures b.kind.None? ==> a.addressType == DefaultAddressType
    ensures b.country.None? ==> a.country == DefaultCountry
    ensures b.isActive.None? ==> a.isActive
  {
    Address(id, b.kind.GetOr(DefaultAddressType), b.name.GetOr(""), b.line1.GetOr(""), b.line2.GetOr(""),
            b.city.GetOr(""), b.state.GetOr(""), b.postalCode.GetOr(""), b.country.GetOr(DefaultCountry),
            b.googleMapsUrl.GetOr(""), b.isActive.GetOr(true))
  }

  function NewHours(id: nat, b: Body): (h: Hours)
    ensures h.id == id
    ensures b.isClosed.None? ==> !h.isClosed
  {
    Hours(id, b.day.GetOr(""), b.openTime.GetOr(""), b.closeTime.GetOr(""), b.isClosed.GetOr(false),
          b.note.GetOr(""))
  }

  function NewSocial(id: nat, b: Body): (s: Social)
    ensures s.id == id
    ensures b.isActive.None? ==> s.isActive
  {
    Social(id, b.platform.GetOr(""), b.url.GetOr(""), b.icon.GetOr(""), b.displayName.GetOr(""),
           b.isActive.GetOr(true))
  }

  // `{ ...item.toObject(), ...body }`: the body's fields override, every other
  // field (the id included) keeps its value; the result is cast again, so
  // `number` is trimmed again.

  function MergePhone(p: Phone, b: Body): Phone {
    Phone(p.id, b.kind.GetOr(p.phoneType), Trim(b.number.GetOr(p.number)), b.countryCode.GetOr(p.countryCode),
          b.isActive.GetOr(p.isActive), b.displayOrder.GetOr(p.displayOrder))
  }

  function MergeAddress(a: Address, b: Body): Address {
    Address(a.id, b.kind.GetOr(a.addressType), b.name.GetOr(a.name), b.line1.GetOr(a.line1),
            b.line2.GetOr(a.line2), b.city.GetOr(a.city), b.state.GetOr(a.state),
            b.postalCode.GetOr(a.postalCode), b.country.GetOr(a.country),
            b.googleMapsUrl.GetOr(a.googleMapsUrl), b.isActive.GetOr(a.isActive))
  }

  function MergeHours(h: Hours, b: Body): Hours {
    Hours(h.id, b.day.GetOr(h.day), b.openTime.GetOr(h.openTime), b.closeTime.GetOr(h.closeTime),
          b.isClosed.GetOr(h.isClosed), b.note.GetOr(h.note))
  }

  function MergeSocial(s: Social, b: Body): Social {
    Social(s.id, b.platform.GetOr(s.platform), b.url.GetOr(s.url), b.icon.GetOr(s.icon),
           b.displayName.GetOr(s.displayName), b.isActive.GetOr(s.isActive))
  }

  /** Merging keeps the id, overrides exactly the fields the body carries and keeps
      the rest; a phone's number is stored trimmed. */
  lemma MergePhoneFields(p: Phone, b: Body)
    requires p.number == Trim(p.number)
    ensures MergePhone(p, b).id == p.id
    ensures MergePhone(p, b).phoneType == (if b.kind.Some? then b.kind.value else p.phoneType)
    ensures MergePhone(p, b).number == (if b.number.Some? then Trim(b.number.value) else p.number)
    ensures MergePhone(p, b).countryCode == (if b.countryCode.Some? then b.countryCode.value else p.countryCode)
    ensures MergePhone(p, b).isActive == (if b.isActive.Some? then b.isActive.value else p.isActive)
    ensures MergePhone(p, b).displayOrder == (if b.displayOrder.Some? then b.displayOrder.value else p.displayOrder)
  {
  }

  /** A body that carries only a new number changes only the number. */
  lemma MergeNumberOnly(p: Phone, number: string)
    requires number == Trim(number)
    ensures MergePhone(p, EmptyBody.(number := Some(number))) == p.(number := number)
  {
  }

  /** An empty body leaves a stored phone as it is (its number is already trimmed). */
  lemma MergePhoneEmptyBody(p: Phone)
    requires p.number == Trim(p.number)
    ensures MergePhone(p, EmptyBody) == p
  {
  }

  /** An empty body leaves a stored address as it is. */
  lemma MergeAddressEmptyBody(a: Address)
    ensures MergeAddress(a, EmptyBody) == a
  {
  }

  /** An empty body leaves a stored working-hours entry as it is. */
  lemma MergeHoursEmptyBody(h: Hours)
    ensures MergeHours(h, EmptyBody) == h
  {
  }

  /** An empty body leaves a stored social link as it is. */
  lemma MergeSocialEmptyBody(s: Social)
    ensures MergeSocial(s, EmptyBody) == s
  {
  }

  /** An empty body leaves a stored item of every kind as it is. */
  lemma MergeEmptyBody(p: Phone, a: Address, h: Hours, s: Social)
    requires p.number == Trim(p.number)
    ensures MergePhone(p, EmptyBody) == p
    ensures MergeAddress(a, EmptyBody) == a
    ensures MergeHours(h, EmptyBody) == h
    ensures MergeSocial(s, EmptyBody) == s
  {
    MergePhoneEmptyBody(p);
    MergeAddressEmptyBody(a);
    MergeHoursEmptyBody(h);
    MergeSocialEmptyBody(s);
  }

  // The validators of each sub-schema: `required` rejects "", an enumeration
  // rejects any other value ("" included).

  predicate PhoneValid(p: Phone) {
    p.phoneType in PhoneTypes && p.number != ""
  }

  predicate AddressValid(a: Address) {
    && a.addressType in AddressTypes
    && a.name != "" && a.line1 != "" && a.city != "" && a.state != "" && a.postalCode != ""
  }

  predicate HoursValid(h: Hours) {
    h.day in Days && h.openTime != "" && h.closeTime != ""
  }

  predicate SocialValid(s: Social) {
    s.platform in Platforms && s.url != ""
  }

  /** A body with no `type` and no `country` gets a main address in India. */
  lemma NewAddressDefaults(id: nat, b: Body)
    requires b.kind.None? && b.country.None?
    ensures NewAddress(id, b).addressType == "main" && NewAddress(id, b).country == "India"
    ensures NewAddress(id, b).addressType in AddressTypes
  {
  }

  /** A phone body without a type or a number is rejected. */
  lemma NewPhoneNeedsTypeAndNumber(id: nat, b: Body)
    ensures PhoneValid(NewPhone(id, b)) ==> b.kind.Some? && b.number.Some? && Trim(b.number.value) != ""
  {
  }

  datatype ContactInfo = ContactInfo(
    businessName: string,
    businessEmail: string,
    website: string,
    phones: seq<Phone>,
    addresses: seq<Address>,
    workingHours: seq<Hours>,
    socialMedia: seq<Social>,
    emergencyContact: string,
    supportEmail: string,
    salesEmail: string,
    gstNumber: string,
    cinNumber: string,
    isActive: bool,
    version: int)

  /** The `businessEmail` setters: lower-cased, then trimmed. */
  function NormalizeEmail(s: string): (r: string)
    ensures r == [] || (!IsSpace(r[0]) && !IsSpace(r[|r| - 1]))
    ensures forall i :: 0 <= i < |r| ==> !('A' <= r[i] <= 'Z')
    ensures |r| <= |s|
  {
    TrimKeepsChars(Lower(s));
    Trim(Lower(s))
  }

  /** Storing an already stored email through the setters changes nothing. */
  lemma NormalizeEmailIdempotent(s: string)
    ensures NormalizeEmail(NormalizeEmail(s)) == NormalizeEmail(s)
  {
    var r := NormalizeEmail(s);
    LowerKeepsLower(r);
    TrimIdempotent(Lower(s));
  }

  /** A whole document passes `validate()`. */
  predicate ContactValid(c: ContactInfo) {
    && c.businessName != "" && c.businessEmail != ""
    && (forall j :: 0 <= j < |c.phones| ==> PhoneValid(c.phones[j]))
    && (forall j :: 0 <= j < |c.addresses| ==> AddressValid(c.addresses[j]))
    && (forall j :: 0 <= j < |c.workingHours| ==> HoursValid(c.workingHours[j]))
    && (forall j :: 0 <= j < |c.socialMedia| ==> SocialValid(c.socialMedia[j]))
  }

  /** The scalar fields a whole-document update may carry. */
  datatype Patch = Patch(
    businessName: Option<string>, businessEmail: Option<string>, website: Option<string>,
    emergencyContact: Option<string>, supportEmail: Option<string>, salesEmail: Option<string>,
    gstNumber: Option<string>, cinNumber: Option<string>, isActive: Option<bool>, version: Option<int>)

  /** `ContactInfo.create(body)`: a new document with no sub-items and the defaults of
      `isActive` and `version`. */
  function CreateFrom(b: Patch): (c: ContactInfo)
    ensures c.phones == [] && c.addresses == [] && c.workingHours == [] && c.socialMedia == []
  {
    ContactInfo(Trim(b.businessName.GetOr("")), NormalizeEmail(b.businessEmail.GetOr("")), b.website.GetOr(""),
                [], [], [], [], b.emergencyContact.GetOr(""), b.supportEmail.GetOr(""), b.salesEmail.GetOr(""),
                b.gstNumber.GetOr(""), b.cinNumber.GetOr(""), b.isActive.GetOr(true), b.version.GetOr(1))
  }

  /** Which body field each field of a created document holds: the name through the
      `trim` setter, the email through the lower-case and `trim` setters, every other
      field as sent, and "" (or `isActive` true, `version` 1) when the body leaves it out. */
  lemma CreateFromFields(b: Patch)
    ensures var c := CreateFrom(b);
      && c.businessName == Trim(b.businessName.GetOr(""))
      && c.businessEmail == NormalizeEmail(b.businessEmail.GetOr(""))
      && c.website == b.website.GetOr("") && c.emergencyContact == b.emergencyContact.GetOr("")
      && c.supportEmail == b.supportEmail.GetOr("") && c.salesEmail == b.salesEmail.GetOr("")
      && c.gstNumber == b.gstNumber.GetOr("") && c.cinNumber == b.cinNumber.GetOr("")
      && c.isActive == b.isActive.GetOr(true) && c.version == b.version.GetOr(1)
  {
  }

  /** A document created from a body is valid exactly when the body names the business and its email. */
  lemma CreateFromValid(b: Patch)
    ensures ContactValid(CreateFrom(b)) <==>
      b.businessName.Some? && Trim(b.businessName.value) != "" &&
      b.businessEmail.Some? && NormalizeEmail(b.businessEmail.value) != ""
  {
  }

  /** The fields of the update overwrite the stored ones, through the setters. */
  function ApplyPatch(c: ContactInfo, b: Patch): (r: ContactInfo)
    ensures r.phones == c.phones && r.addresses == c.addresses
    ensures r.workingHours == c.workingHours && r.socialMedia == c.socialMedia
  {
    ContactInfo(
      match b.businessName case Some(s) => Trim(s) case None => c.businessName,
      match b.businessEmail case Some(s) => NormalizeEmail(s) case None => c.businessEmail,
      b.website.GetOr(c.website), c.phones, c.addresses, c.workingHours, c.socialMedia,
      b.emergencyContact.GetOr(c.emergencyContact), b.supportEmail.GetOr(c.supportEmail),
      b.salesEmail.GetOr(c.salesEmail), b.gstNumber.GetOr(c.gstNumber), b.cinNumber.GetOr(c.cinNumber),
      b.isActive.GetOr(c.isActive), b.version.GetOr(c.version))
  }

  /** Which value each field holds after an update: a field the body sets is stored
      through its setter, a field it leaves out keeps the stored value. */
  lemma ApplyPatchFields(c: ContactInfo, b: Patch)
    ensures var r := ApplyPatch(c, b);
      && r.businessName == (if b.businessName.Some? then Trim(b.businessName.value) else c.businessName)
      && r.businessEmail == (if b.businessEmail.Some? then NormalizeEmail(b.businessEmail.value) else c.businessEmail)
      && r.website == (if b.website.Some? then b.website.value else c.website)
      && r.emergencyContact == (if b.emergencyContact.Some? then b.emergencyContact.value else c.emergencyContact)
      && r.supportEmail == (if b.supportEmail.Some? then b.supportEmail.value else c.supportEmail)
      && r.salesEmail == (if b.salesEmail.Some? then b.salesEmail.value else c.salesEmail)
      && r.gstNumber == (if b.gstNumber.Some? then b.gstNumber.value else c.gstNumber)
      && r.cinNumber == (if b.cinNumber.Some? then b.cinNumber.value else c.cinNumber)
      && r.isActive == (if b.isActive.Some? then b.isActive.value else c.isActive)
      && r.version == (if b.version.Some? then b.version.value else c.version)
  {
  }

  /** Update validators (`runValidators: true`) check only the paths the update sets. */
  predicate PatchValid(b: Patch) {
    && (b.businessName.Some? ==> Trim(b.businessName.value) != "")
    && (b.businessEmail.Some? ==> NormalizeEmail(b.businessEmail.value) != "")
  }

  /** An update that passes the update validators keeps a valid document valid. */
  lemma ApplyPatchValid(c: ContactInfo, b: Patch)
    requires ContactValid(c) && PatchValid(b)
    ensures ContactValid(ApplyPatch(c, b))
  {
  }

  /** The document `getContactInfo` creates when there is none. */
  const DefaultContactInfo := ContactInfo(
    "Bhagyashree Earthmovers", "info@bhagyashreeearthmovers.com", "", [], [], [], [], "", "", "", "", "", true, 1)

  /** The default document passes validation, so creating it cannot fail. */
  lemma DefaultContactInfoValid()
    ensures ContactValid(DefaultContactInfo)
  {
  }

  /** A document created without a business name or email is rejected; this is why
      adding a sub-item before any document exists always fails. */
  lemma ItemOnlyDocumentInvalid(c: ContactInfo)
    requires c.businessName == "" || c.businessEmail == ""
    ensures !ContactValid(c)
  {
  }
}
