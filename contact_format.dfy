/** `formatForFrontend`: the flat view of the contact document that the site's
    pages read. Every field is a "first matching entry, else a fallback" choice or
    a fold into an object in which a later entry overwrites an earlier one. */
module ContactFormat {
  import opened Seqs
  import opened Strings
  import opened ContactSchema

  datatype AddressView = AddressView(
    line1: string, line2: string, city: string, state: string, postalCode: string, mapsUrl: string)

  datatype HoursView = HoursView(openTime: string, closeTime: string, isClosed: bool, note: string)

  datatype Formatted = Formatted(
    primaryPhone: string,
    secondaryPhone: string,
    whatsappPhone: string,
    emergencyContact: string,
    businessEmail: string,
    supportEmail: string,
    salesEmail: string,
    address: Option<AddressView>,
    workingHours: map<string, HoursView>,
    socialLinks: map<string, string>)

  /** `j` is the first phone whose type is `kind`. */
  predicate FirstOfKind(phones: seq<Phone>, kind: string, j: int) {
    && 0 <= j < |phones| && phones[j].phoneType == kind
    && forall i :: 0 <= i < j ==> phones[i].phoneType != kind
  }

  /** `j` is the first address whose type is "main". */
  predicate FirstMain(addresses: seq<Address>, j: int) {
    && 0 <= j < |addresses| && addresses[j].addressType == "main"
    && forall i :: 0 <= i < j ==> addresses[i].addressType != "main"
  }

  /** `phones.find(p => p.type === kind)?.number || ''`: the number of the first phone
      of that type, whether or not it is active, or '' when there is none. */
  function FirstNumber(phones: seq<Phone>, kind: string): (r: string)
    ensures || (exists j :: FirstOfKind(phones, kind, j) && r == phones[j].number)
            || (r == [] && forall j :: 0 <= j < |phones| ==> phones[j].phoneType != kind)
  {
    var i := FindIndex(phones, (p: Phone) => p.phoneType == kind);
    if i == -1 then "" else
      assert FirstOfKind(phones, kind, i);
      phones[i].number
  }

  function ViewOfAddress(a: Address): AddressView {
    AddressView(a.line1, a.line2, a.city, a.state, a.postalCode, a.googleMapsUrl)
  }

  function ViewOfHours(h: Hours): HoursView {
    HoursView(h.openTime, h.closeTime, h.isClosed, h.note)
  }

  /** The first main address, or null. */
  function MainAddressView(addresses: seq<Address>): (r: Option<AddressView>)
    ensures r.None? <==> forall j :: 0 <= j < |addresses| ==> addresses[j].addressType != "main"
    ensures r.Some? ==> exists j :: FirstMain(addresses, j) && r.value == ViewOfAddress(addresses[j])
  {
    var i := FindIndex(addresses, (a: Address) => a.addressType == "main");
    if i == -1 then None else
      assert FirstMain(addresses, i);
      Some(ViewOfAddress(addresses[i]))
  }

  function DayOf(h: Hours): string { h.day }
  function PlatformOf(s: Social): string { s.platform }
  function UrlOf(s: Social): string { s.url }

  function FormatForFrontend(c: ContactInfo): (r: Formatted)
    ensures r.primaryPhone == FirstNumber(c.phones, "primary")
    ensures r.secondaryPhone == FirstNumber(c.phones, "secondary")
    ensures r.whatsappPhone == FirstNumber(c.phones, "whatsapp")
    ensures r.address == MainAddressView(c.addresses)
    ensures r.businessEmail == c.businessEmail
    ensures r.emergencyContact == c.emergencyContact
    ensures c.supportEmail != [] ==> r.supportEmail == c.supportEmail
    ensures c.supportEmail == [] ==> r.supportEmail == c.businessEmail
    ensures c.salesEmail != [] ==> r.salesEmail == c.salesEmail
    ensures c.salesEmail == [] ==> r.salesEmail == c.businessEmail
    ensures r.workingHours.Keys == set j | 0 <= j < |c.workingHours| :: c.workingHours[j].day
    ensures r.socialLinks.Keys == set j | 0 <= j < |c.socialMedia| :: c.socialMedia[j].platform
  {
    Formatted(
      FirstNumber(c.phones, "primary"),
      FirstNumber(c.phones, "secondary"),
      FirstNumber(c.phones, "whatsapp"),
      OrElse(c.emergencyContact, ""),
      c.businessEmail,
      OrElse(c.supportEmail, c.businessEmail),
      OrElse(c.salesEmail, c.businessEmail),
      MainAddressView(c.addresses),
      Collect(c.workingHours, DayOf, ViewOfHours),
      Collect(c.socialMedia, PlatformOf, UrlOf))
  }

  /** For a document that passes validation, the e-mail fields are never empty and a
      phone field is empty exactly when no phone has that type. */
  lemma FormatValidDocument(c: ContactInfo, kind: string)
    requires ContactValid(c)
    ensures FormatForFrontend(c).supportEmail != [] && FormatForFrontend(c).salesEmail != []
    ensures FirstNumber(c.phones, kind) != [] <==> exists j :: 0 <= j < |c.phones| && c.phones[j].phoneType == kind
  {
  }

  /** The phone fields ignore `isActive`: a deactivated primary phone is still shown. */
  lemma FormatIgnoresIsActive(c: ContactInfo, id: nat, number: string, countryCode: string, order: int)
    requires c.phones == [Phone(id, "primary", number, countryCode, false, order)]
    ensures FormatForFrontend(c).primaryPhone == number
  {
    var r := FormatForFrontend(c).primaryPhone;
    assert !(r == [] && forall j :: 0 <= j < |c.phones| ==> c.phones[j].phoneType != "primary");
  }

  /** A repeated day keeps the hours of its last entry. */
  lemma HoursLastEntryWins(c: ContactInfo, day: string)
    requires day in FormatForFrontend(c).workingHours
    ensures LastIndex(c.workingHours, (h: Hours) => DayOf(h) == day) >= 0
    ensures FormatForFrontend(c).workingHours[day]
         == ViewOfHours(c.workingHours[LastIndex(c.workingHours, (h: Hours) => DayOf(h) == day)])
  {
    CollectLastWins(c.workingHours, DayOf, ViewOfHours, day, (h: Hours) => DayOf(h) == day);
  }

  /** A repeated platform keeps the url of its last entry. */
  lemma SocialLastEntryWins(c: ContactInfo, platform: string)
    requires platform in FormatForFrontend(c).socialLinks
    ensures LastIndex(c.socialMedia, (s: Social) => PlatformOf(s) == platform) >= 0
    ensures FormatForFrontend(c).socialLinks[platform]
         == c.socialMedia[LastIndex(c.socialMedia, (s: Social) => PlatformOf(s) == platform)].url
  {
    CollectLastWins(c.socialMedia, PlatformOf, UrlOf, platform, (s: Social) => PlatformOf(s) == platform);
  }
}
