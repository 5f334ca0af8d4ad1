/** The footer's getters over the contact document it fetched (`None` while nothing
    was fetched or the request failed). Each getter picks the first active entry of
    a kind, or falls back to a hard-coded value. */
module Footer {
  import opened Seqs
  import opened Strings
  import opened ContactSchema

  const FallbackPhone := "+91 7620382150"
  const FallbackWhatsApp := "917620382150"
  const FallbackEmail := "bhagyashreeearthmovers@gmail.com"
  const FallbackAddress := "Karad, Maharashtra"
  const DefaultLine2 := "India - 415108"
  const DefaultMapsUrl := "https://maps.google.com"
  const DefaultWeekdayHours := "8:00 AM - 8:00 PM"
  const ByAppointment := "By Appointment"

  predicate ActiveOfKind(p: Phone, kind: string) {
    p.phoneType == kind && p.isActive
  }

  /** `j` is the first active phone of that type. */
  predicate FirstActive(phones: seq<Phone>, kind: string, j: int) {
    && 0 <= j < |phones| && ActiveOfKind(phones[j], kind)
    && forall i :: 0 <= i < j ==> !ActiveOfKind(phones[i], kind)
  }

  /** `phones.find(phone => phone.type === kind && phone.isActive)`. */
  function ActivePhone(phones: seq<Phone>, kind: string): (r: Option<Phone>)
    ensures r.None? <==> forall j :: 0 <= j < |phones| ==> !ActiveOfKind(phones[j], kind)
    ensures r.Some? ==> exists j :: FirstActive(phones, kind, j) && r.value == phones[j]
  {
    var i := FindIndex(phones, (p: Phone) => ActiveOfKind(p, kind));
    if i == -1 then None else
      assert FirstActive(phones, kind, i);
      Some(phones[i])
  }

  /** `${countryCode || '+91'} ${number}`. */
  function Display(p: Phone): string {
    OrElse(p.countryCode, DefaultCountryCode) + " " + p.number
  }

  /** `getPrimaryPhone`. */
  function PrimaryPhone(info: Option<ContactInfo>): (r: string)
    ensures info.None? ==> r == FallbackPhone
    ensures info.Some? && ActivePhone(info.value.phones, "primary").None? ==> r == FallbackPhone
    ensures info.Some? && ActivePhone(info.value.phones, "primary").Some? ==>
      exists j :: FirstActive(info.value.phones, "primary", j) && r == Display(info.value.phones[j])
  {
    match info
    case None => FallbackPhone
    case Some(c) =>
      match ActivePhone(c.phones, "primary")
      case Some(p) => Display(p)
      case None => FallbackPhone
  }

  /** `getWhatsAppPhone`: the number of the first active WhatsApp phone with every
      non-digit removed. */
  function WhatsAppPhone(info: Option<ContactInfo>): (r: string)
    ensures info.None? ==> r == FallbackWhatsApp
    ensures info.Some? && ActivePhone(info.value.phones, "whatsapp").None? ==> r == FallbackWhatsApp
    ensures info.Some? && ActivePhone(info.value.phones, "whatsapp").Some? ==>
      exists j :: FirstActive(info.value.phones, "whatsapp", j) && r == KeepDigits(info.value.phones[j].number)
  {
    match info
    case None => FallbackWhatsApp
    case Some(c) =>
      match ActivePhone(c.phones, "whatsapp")
      case Some(p) => KeepDigits(p.number)
      case None => FallbackWhatsApp
  }

  /** The WhatsApp number is made of digits only, whichever branch produced it. */
  lemma WhatsAppAllDigits(info: Option<ContactInfo>)
    ensures AllDigits(WhatsAppPhone(info))
    ensures |WhatsAppPhone(info)| > 0 || (info.Some? && ActivePhone(info.value.phones, "whatsapp").Some?)
  {
    if WhatsAppPhone(info) == FallbackWhatsApp {
      assert AllDigits(FallbackWhatsApp);
    }
  }

  /** `getBusinessEmail`. */
  function BusinessEmail(info: Option<ContactInfo>): (r: string)
    ensures r != []
    ensures info.Some? && info.value.businessEmail != [] ==> r == info.value.businessEmail
    ensures info.None? || info.value.businessEmail == [] ==> r == FallbackEmail
  {
    match info
    case None => FallbackEmail
    case Some(c) => OrElse(c.businessEmail, FallbackEmail)
  }

  /** `getSupportEmail`: the support address, else the business address, else the
      hard-coded one; never empty. */
  function SupportEmail(info: Option<ContactInfo>): (r: string)
    ensures r != []
    ensures info.Some? && info.value.supportEmail != [] ==> r == info.value.supportEmail
    ensures info.None? || info.value.supportEmail == [] ==> r == BusinessEmail(info)
  {
    match info
    case None => BusinessEmail(info)
    case Some(c) => OrElse(c.supportEmail, BusinessEmail(info))
  }

  /** `getEmergencyContact`: the first active emergency phone, else whatever
      `getPrimaryPhone` shows. */
  function EmergencyContact(info: Option<ContactInfo>): (r: string)
    ensures info.None? || ActivePhone(info.value.phones, "emergency").None? ==> r == PrimaryPhone(info)
    ensures info.Some? && ActivePhone(info.value.phones, "emergency").Some? ==>
      exists j :: FirstActive(info.value.phones, "emergency", j) && r == Display(info.value.phones[j])
  {
    match info
    case None => PrimaryPhone(info)
    case Some(c) =>
      match ActivePhone(c.phones, "emergency")
      case Some(p) => Display(p)
      case None => PrimaryPhone(info)
  }

  /** The number dialled by the call buttons: the shown number with all whitespace removed. */
  function DialNumber(shown: string): (r: string)
    ensures NoSpace(r)
  {
    StripSpaces(shown)
  }

  /** A shown phone is dialled as its country code and number joined, when neither
      holds whitespace. */
  lemma DialDisplayedPhone(p: Phone)
    requires NoSpace(OrElse(p.countryCode, DefaultCountryCode)) && NoSpace(p.number)
    ensures DialNumber(Display(p)) == OrElse(p.countryCode, DefaultCountryCode) + p.number
  {
    var cc := OrElse(p.countryCode, DefaultCountryCode);
    assert Display(p) == cc + (" " + p.number);
    StripSpacesAppend(cc, " " + p.number);
    StripSpacesAppend(" ", p.number);
    StripSpacesNoSpace(cc);
    StripSpacesNoSpace(p.number);
  }

  /** What `getMainAddress` returns: a plain string, or an object with three lines. */
  datatype AddressDisplay = PlainText(text: string) | Lines(line1: string, line2: string, mapsUrl: string)

  predicate ActiveMain(a: Address) {
    a.addressType == "main" && a.isActive
  }

  /** `getMainAddress`: the first active main address with defaults for the second
      line and the map link; otherwise the fallback text. */
  function MainAddress(info: Option<ContactInfo>): (r: AddressDisplay)
    ensures r.PlainText? <==> info.None? || forall j :: 0 <= j < |info.value.addresses| ==> !ActiveMain(info.value.addresses[j])
    ensures r.PlainText? ==> r.text == FallbackAddress
    ensures r.Lines? ==> r.line2 != [] && r.mapsUrl != []
    ensures r.Lines? ==> exists j ::
      && 0 <= j < |info.value.addresses| && ActiveMain(info.value.addresses[j])
      && (forall i :: 0 <= i < j ==> !ActiveMain(info.value.addresses[i]))
      && r.line1 == info.value.addresses[j].line1
      && r.line2 == OrElse(info.value.addresses[j].line2, DefaultLine2)
      && r.mapsUrl == OrElse(info.value.addresses[j].googleMapsUrl, DefaultMapsUrl)
  {
    match info
    case None => PlainText(FallbackAddress)
    case Some(c) =>
      var i := FindIndex(c.addresses, ActiveMain);
      if i == -1 then PlainText(FallbackAddress)
      else
        var a := c.addresses[i];
        Lines(a.line1, OrElse(a.line2, DefaultLine2), OrElse(a.googleMapsUrl, DefaultMapsUrl))
  }

  predicate IsOpen(h: Hours) {
    !h.isClosed
  }

  function DayOf(h: Hours): string { h.day }

  /** `${openTime} - ${closeTime}`. */
  function Span(h: Hours): string {
    h.openTime + " - " + h.closeTime
  }

  /** The `formattedHours` object after the loop: each day that has an open entry,
      mapped to the span of its last open entry (a missing key stands for `null`). */
  function FormattedHours(hours: seq<Hours>): map<string, string> {
    Collect(Filter(hours, IsOpen), DayOf, Span)
  }

  /** One more entry: an open one overwrites its day, a closed one changes nothing. */
  lemma FormattedHoursStep(hours: seq<Hours>, h: Hours)
    ensures IsOpen(h) ==> FormattedHours(hours + [h]) == FormattedHours(hours)[h.day := Span(h)]
    ensures !IsOpen(h) ==> FormattedHours(hours + [h]) == FormattedHours(hours)
  {
    FilterAppend(hours, [h], IsOpen);
    var f := Filter(hours, IsOpen);
    if IsOpen(h) {
      assert Filter([h], IsOpen) == [h];
      assert (f + [h])[..|f|] == f;
    } else {
      assert Filter([h], IsOpen) == [];
      assert f + [] == f;
    }
  }

  /** The loop of `getWorkingHours` over the listed entries. */
  method BuildFormattedHours(hours: seq<Hours>) returns (m: map<string, string>)
    ensures m == FormattedHours(hours)
  {
    m := map[];
    for i := 0 to |hours|
      invariant m == FormattedHours(hours[..i])
    {
      FormattedHoursStep(hours[..i], hours[i]);
      assert hours[..i + 1] == hours[..i] + [hours[i]];
      if !hours[i].isClosed {
        m := m[hours[i].day := Span(hours[i])];
      }
    }
    assert hours[..|hours|] == hours;
  }

  datatype HoursText = HoursText(weekday: string, weekend: string)

  /** The two lines `getWorkingHours` shows for the formatted table. */
  function Summary(m: map<string, string>): HoursText {
    var weekday := OrElse(if "monday" in m then m["monday"] else "", DefaultWeekdayHours);
    var weekend := if "sunday" in m then m["sunday"] else ByAppointment;
    HoursText("Mon - Sat: " + weekday, "Sunday: " + weekend)
  }

  const DefaultHoursText := HoursText("Mon - Sat: 8:00 AM - 8:00 PM", "Sunday: By Appointment")

  /** `getWorkingHours`. */
  method GetWorkingHours(info: Option<ContactInfo>) returns (r: HoursText)
    ensures info.None? ==> r == DefaultHoursText
    ensures info.Some? ==> r == Summary(FormattedHours(info.value.workingHours))
  {
    if info.None? {
      return DefaultHoursText;
    }
    var m := BuildFormattedHours(info.value.workingHours);
    r := Summary(m);
  }

  /** In a table folded from a list of entries, a day is present exactly when some entry
      names it, and then it holds the span of the last such entry. */
  lemma TableEntry(f: seq<Hours>, day: string)
    ensures var last := LastIndex(f, (h: Hours) => DayOf(h) == day);
      && (last == -1 <==> day !in Collect(f, DayOf, Span))
      && (last >= 0 ==> Collect(f, DayOf, Span)[day] == Span(f[last]))
  {
    if day in Collect(f, DayOf, Span) {
      CollectLastWins(f, DayOf, Span, day, (h: Hours) => DayOf(h) == day);
    } else {
      forall j | 0 <= j < |f| ensures DayOf(f[j]) != day {
        assert DayOf(f[j]) in Collect(f, DayOf, Span);
      }
    }
  }

  /** A day is in the formatted table exactly when it has an open entry, and then it
      holds the span of the last one. */
  lemma DayEntry(hours: seq<Hours>, day: string)
    ensures var f := Filter(hours, IsOpen);
      var last := LastIndex(f, (h: Hours) => DayOf(h) == day);
      && (last == -1 <==> day !in FormattedHours(hours))
      && (last >= 0 ==> FormattedHours(hours)[day] == Span(f[last]))
  {
    TableEntry(Filter(hours, IsOpen), day);
  }

  /** The weekday line shows the last open Monday entry, or the default hours; no
      other weekday is consulted. */
  lemma WeekdayUsesMonday(hours: seq<Hours>)
    ensures var f := Filter(hours, IsOpen);
      var mon := LastIndex(f, (h: Hours) => DayOf(h) == "monday");
      && (mon == -1 ==> Summary(FormattedHours(hours)).weekday == "Mon - Sat: " + DefaultWeekdayHours)
      && (mon >= 0 ==> Summary(FormattedHours(hours)).weekday == "Mon - Sat: " + Span(f[mon]))
  {
    DayEntry(hours, "monday");
    var f := Filter(hours, IsOpen);
    var mon := LastIndex(f, (h: Hours) => DayOf(h) == "monday");
    if mon >= 0 {
      assert |Span(f[mon])| >= 3;
    }
  }

  /** The weekend line shows the last open Sunday entry, or "By Appointment". */
  lemma WeekendUsesSunday(hours: seq<Hours>)
    ensures var f := Filter(hours, IsOpen);
      var sun := LastIndex(f, (h: Hours) => DayOf(h) == "sunday");
      && (sun == -1 ==> Summary(FormattedHours(hours)).weekend == "Sunday: " + ByAppointment)
      && (sun >= 0 ==> Summary(FormattedHours(hours)).weekend == "Sunday: " + Span(f[sun]))
  {
    DayEntry(hours, "sunday");
  }

  /** A closed entry does not clear earlier open hours for its day. */
  lemma ClosedEntryKeepsEarlierHours(hours: seq<Hours>, h: Hours)
    requires h.isClosed
    ensures Summary(FormattedHours(hours + [h])) == Summary(FormattedHours(hours))
  {
    FormattedHoursStep(hours, h);
  }

  datatype Icon = FacebookIcon | TwitterIcon | InstagramIcon | LinkedinIcon | GlobeIcon | MessageCircleIcon

  datatype Link = Link(icon: Icon, caption: string, href: string, color: string)

  /** The icon map; `telegram` maps to `MessageSquare`, an alias of `MessageCircle`. */
  function IconFor(platform: string): Icon {
    if platform == "facebook" then FacebookIcon
    else if platform == "twitter" then TwitterIcon
    else if platform == "instagram" then InstagramIcon
    else if platform == "linkedin" then LinkedinIcon
    else if platform == "whatsapp" || platform == "telegram" then MessageCircleIcon
    else GlobeIcon
  }

  function ColorFor(platform: string): string {
    if platform == "facebook" then "hover:bg-blue-600"
    else if platform == "twitter" then "hover:bg-sky-500"
    else if platform == "instagram" then "hover:bg-pink-600"
    else if platform == "linkedin" then "hover:bg-blue-700"
    else "hover:bg-gray-600"
  }

  function ToLink(s: Social): Link {
    Link(IconFor(s.platform), Capitalize(s.platform), s.url, ColorFor(s.platform))
  }

  predicate IsActiveSocial(s: Social) {
    s.isActive
  }

  const DefaultLinks := [
    Link(FacebookIcon, "Facebook", "#", "hover:bg-blue-600"),
    Link(TwitterIcon, "Twitter", "#", "hover:bg-sky-500"),
    Link(InstagramIcon, "Instagram", "#", "hover:bg-pink-600"),
    Link(LinkedinIcon, "LinkedIn", "#", "hover:bg-blue-700")]

  /** `getSocialLinks`. */
  function SocialLinks(info: Option<ContactInfo>): (r: seq<Link>)
    ensures info.None? ==> r == DefaultLinks
    ensures info.Some? ==> |r| <= |info.value.socialMedia|
  {
    match info
    case None => DefaultLinks
    case Some(c) => MapSeq(Filter(c.socialMedia, IsActiveSocial), ToLink)
  }

  /** Every link comes from an active entry, and links to its url. */
  lemma SocialLinksFromActive(c: ContactInfo)
    ensures forall j :: 0 <= j < |SocialLinks(Some(c))| ==>
      exists k :: 0 <= k < |c.socialMedia| && c.socialMedia[k].isActive && SocialLinks(Some(c))[j] == ToLink(c.socialMedia[k])
  {
    var f := Filter(c.socialMedia, IsActiveSocial);
    var links := MapSeq(f, ToLink);
    assert SocialLinks(Some(c)) == links;
    forall j | 0 <= j < |links|
      ensures exists k :: 0 <= k < |c.socialMedia| && c.socialMedia[k].isActive && links[j] == ToLink(c.socialMedia[k])
    {
      assert IsActiveSocial(f[j]);
      var k :| 0 <= k < |c.socialMedia| && c.socialMedia[k] == f[j];
    }
  }

  /** Every active entry gives a link. */
  lemma SocialLinksCoverActive(c: ContactInfo)
    ensures forall k :: 0 <= k < |c.socialMedia| && c.socialMedia[k].isActive ==> ToLink(c.socialMedia[k]) in SocialLinks(Some(c))
  {
    var f := Filter(c.socialMedia, IsActiveSocial);
    var links := MapSeq(f, ToLink);
    assert SocialLinks(Some(c)) == links;
    forall k | 0 <= k < |c.socialMedia| && c.socialMedia[k].isActive
      ensures ToLink(c.socialMedia[k]) in links
    {
      assert IsActiveSocial(c.socialMedia[k]);
      var i :| 0 <= i < |f| && f[i] == c.socialMedia[k];
      assert links[i] == ToLink(f[i]);
    }
  }

  /** Order is kept: an entry added at the end adds its link at the end when it is
      active, and nothing otherwise. */
  lemma SocialLinksAppend(c: ContactInfo, s: Social)
    ensures SocialLinks(Some(c.(socialMedia := c.socialMedia + [s])))
         == SocialLinks(Some(c)) + (if s.isActive then [ToLink(s)] else [])
  {
    FilterAppend(c.socialMedia, [s], IsActiveSocial);
    var f := Filter(c.socialMedia, IsActiveSocial);
    var g := Filter([s], IsActiveSocial);
    MapSeqAppend(f, g, ToLink);
    if s.isActive {
      assert g == [s];
    } else {
      assert g == [];
    }
  }

  /** For a platform the schema accepts, the caption (the `label` field) is the platform name with its first
      letter upper-cased. */
  lemma SocialLabelCapitalised(s: Social)
    requires s.platform in Platforms
    ensures ToLink(s).caption[1..] == s.platform[1..]
    ensures 'A' <= ToLink(s).caption[0] <= 'Z'
  {
    assert 'a' <= s.platform[0] <= 'z';
  }
}
