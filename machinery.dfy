/** The machinery section: the call and WhatsApp numbers its booking buttons use,
    and the availability badge of each machine with the list shown when the
    equipment request returns nothing. */
module Machinery {
  import opened Seqs
  import opened Strings
  import opened ContactSchema

  const FallbackNumber := "+918208584646"
  const FallbackLocalNumber := "8208584646"

  /** The phones assumed when the contact request fails. */
  const FallbackContactPhones := [
    Phone(0, "primary", FallbackLocalNumber, DefaultCountryCode, true, 0),
    Phone(1, "whatsapp", FallbackLocalNumber, DefaultCountryCode, true, 0)]

  predicate IsActivePhone(p: Phone) {
    p.isActive
  }

  function ActivePhones(phones: seq<Phone>): seq<Phone> {
    Filter(phones, IsActivePhone)
  }

  predicate IsPrimary(p: Phone) {
    p.phoneType == "primary"
  }

  predicate IsWhatsApp(p: Phone) {
    p.phoneType == "whatsapp"
  }

  predicate ActivePrimary(p: Phone) {
    p.isActive && IsPrimary(p)
  }

  predicate ActiveWhatsApp(p: Phone) {
    p.isActive && IsWhatsApp(p)
  }

  /** The phone behind the call button: the first active primary phone, else the
      first active phone of any type, else none. */
  function CallPhone(phones: seq<Phone>): (r: Option<Phone>)
    ensures r.Some? ==> r.value in phones && r.value.isActive
    ensures r.None? <==> forall j :: 0 <= j < |phones| ==> !phones[j].isActive
    ensures (exists j :: 0 <= j < |phones| && ActivePrimary(phones[j])) ==>
      exists j :: IsFirst(phones, ActivePrimary, j) && r == Some(phones[j])
    ensures (forall j :: 0 <= j < |phones| ==> !ActivePrimary(phones[j])) && r.Some? ==>
      exists j :: IsFirst(phones, IsActivePhone, j) && r == Some(phones[j])
  {
    var active := ActivePhones(phones);
    FindIndexInFilter(phones, IsActivePhone, IsPrimary, ActivePrimary);
    FilterFirst(phones, IsActivePhone);
    var kp, ka := FindIndex(phones, ActivePrimary), FindIndex(phones, IsActivePhone);
    assert kp != -1 ==> IsFirst(phones, ActivePrimary, kp);
    assert ka != -1 ==> IsFirst(phones, IsActivePhone, ka);
    match Find(active, IsPrimary)
    case Some(p) => Some(p)
    case None => if |active| > 0 then Some(active[0]) else None
  }

  /** The phone behind the WhatsApp button: the first active WhatsApp phone, else the
      same phone as the call button. */
  function WhatsAppPhone(phones: seq<Phone>): (r: Option<Phone>)
    ensures r.Some? ==> r.value in phones && r.value.isActive
    ensures (exists j :: 0 <= j < |phones| && ActiveWhatsApp(phones[j])) ==>
      exists j :: IsFirst(phones, ActiveWhatsApp, j) && r == Some(phones[j])
    ensures (forall j :: 0 <= j < |phones| ==> !ActiveWhatsApp(phones[j])) ==> r == CallPhone(phones)
  {
    var active := ActivePhones(phones);
    FindIndexInFilter(phones, IsActivePhone, IsWhatsApp, ActiveWhatsApp);
    var kw := FindIndex(phones, ActiveWhatsApp);
    assert kw != -1 ==> IsFirst(phones, ActiveWhatsApp, kw);
    match Find(active, IsWhatsApp)
    case Some(p) => Some(p)
    case None => CallPhone(phones)
  }

  /** `${phone?.countryCode || '+91'}${phone?.number || '8208584646'}` with every
      whitespace character removed. */
  function Dialled(p: Option<Phone>): (r: string)
    ensures NoSpace(r)
  {
    var countryCode := if p.Some? then p.value.countryCode else "";
    var number := if p.Some? then p.value.number else "";
    StripSpaces(OrElse(countryCode, DefaultCountryCode) + OrElse(number, FallbackLocalNumber))
  }

  datatype Numbers = Numbers(phone: string, whatsapp: string)

  /** `getContactNumbers`: `phones` is `contactInfo?.phones`, absent when nothing was
      fetched; `loading` is the contact request still running. */
  function ContactNumbers(phones: Option<seq<Phone>>, loading: bool): (r: Numbers)
    ensures NoSpace(r.phone) && NoSpace(r.whatsapp)
    ensures phones.None? || loading ==> r == Numbers(FallbackNumber, FallbackNumber)
    ensures phones.Some? && !loading ==>
      r.phone == Dialled(CallPhone(phones.value)) && r.whatsapp == Dialled(WhatsAppPhone(phones.value))
  {
    if phones.None? || loading then
      assert NoSpace(FallbackNumber);
      Numbers(FallbackNumber, FallbackNumber)
    else
      Numbers(Dialled(CallPhone(phones.value)), Dialled(WhatsAppPhone(phones.value)))
  }

  /** Without an active phone both buttons dial the fallback number. */
  lemma NoActivePhoneDialsFallback(phones: seq<Phone>)
    requires forall j :: 0 <= j < |phones| ==> !phones[j].isActive
    ensures ContactNumbers(Some(phones), false) == Numbers(FallbackNumber, FallbackNumber)
  {
    assert CallPhone(phones).None?;
    assert DefaultCountryCode + FallbackLocalNumber == FallbackNumber;
    assert NoSpace(FallbackNumber);
    StripSpacesNoSpace(FallbackNumber);
  }

  /** A chosen phone whose country code and number hold no whitespace is dialled as the
      two joined. */
  lemma DialledJoins(p: Phone)
    requires p.countryCode != [] && p.number != [] && NoSpace(p.countryCode) && NoSpace(p.number)
    ensures Dialled(Some(p)) == p.countryCode + p.number
  {
    var s := p.countryCode + p.number;
    assert NoSpace(s) by {
      forall i | 0 <= i < |s| ensures !IsSpace(s[i]) {
        if i >= |p.countryCode| {
          assert s[i] == p.number[i - |p.countryCode|];
        }
      }
    }
    StripSpacesNoSpace(s);
  }

  /** Of the fallback phones, the call button takes the primary one and the WhatsApp
      button the WhatsApp one. */
  lemma FallbackPhoneChoices()
    ensures CallPhone(FallbackContactPhones) == Some(FallbackContactPhones[0])
    ensures WhatsAppPhone(FallbackContactPhones) == Some(FallbackContactPhones[1])
  {
    var f := FallbackContactPhones;
    assert ActivePrimary(f[0]) && ActiveWhatsApp(f[1]) && !ActiveWhatsApp(f[0]);
  }

  /** With the call and WhatsApp phones chosen and free of whitespace, the buttons dial
      each one's country code joined to its number. */
  lemma ChosenPhonesDial(phones: seq<Phone>, p: Phone, w: Phone)
    requires CallPhone(phones) == Some(p) && WhatsAppPhone(phones) == Some(w)
    requires p.countryCode != [] && p.number != [] && NoSpace(p.countryCode) && NoSpace(p.number)
    requires w.countryCode != [] && w.number != [] && NoSpace(w.countryCode) && NoSpace(w.number)
    ensures ContactNumbers(Some(phones), false) == Numbers(p.countryCode + p.number, w.countryCode + w.number)
  {
    DialledJoins(p);
    DialledJoins(w);
  }

  /** The fallback phones, used when the contact request fails, dial the fallback
      number from both buttons. */
  lemma FallbackPhonesDialFallback()
    ensures ContactNumbers(Some(FallbackContactPhones), false) == Numbers(FallbackNumber, FallbackNumber)
  {
    FallbackPhoneChoices();
    FallbackLiteralsNoSpace();
    ChosenPhonesDial(FallbackContactPhones, FallbackContactPhones[0], FallbackContactPhones[1]);
    FallbackNumberJoins();
  }

  /** The default country code and the local fallback number hold no whitespace. */
  lemma FallbackLiteralsNoSpace()
    ensures NoSpace(DefaultCountryCode) && NoSpace(FallbackLocalNumber)
  {
    VisibleAsciiNoSpace(DefaultCountryCode);
    VisibleAsciiNoSpace(FallbackLocalNumber);
  }

  /** The fallback number is the default country code joined to the local fallback number. */
  lemma FallbackNumberJoins()
    ensures DefaultCountryCode + FallbackLocalNumber == FallbackNumber
  {
  }

  /** An equipment record as the section reads it; `available` may be missing. */
  datatype Machine = Machine(name: string, category: string, available: Option<bool>)

  /** `machine.available !== false`: only an explicit false marks a machine unavailable. */
  predicate IsAvailable(m: Machine) {
    m.available != Some(false)
  }

  const FallbackMachinery := [
    Machine("JCB NXT 205 Excavator", "Excavator", Some(true)),
    Machine("Tata Hitachi EX 200", "Excavator", Some(true)),
    Machine("Hyundai R210", "Excavator", Some(false)),
    Machine("Kubota U30 Mini", "Mini Excavator", Some(true))]

  /** The list shown: the fetched equipment, or the fallback list when it is empty. */
  function ShownMachinery(fetched: seq<Machine>): (r: seq<Machine>)
    ensures |r| > 0
    ensures fetched != [] ==> r == fetched
    ensures fetched == [] ==> r == FallbackMachinery
  {
    if |fetched| > 0 then fetched else FallbackMachinery
  }

  /** A missing `available` counts as available; the fallback list shows four machines,
      of which the third alone is unavailable. */
  lemma AvailabilityRules(name: string, category: string)
    ensures IsAvailable(Machine(name, category, None))
    ensures !IsAvailable(Machine(name, category, Some(false)))
    ensures |ShownMachinery([])| == 4
    ensures forall j :: 0 <= j < 4 ==> (IsAvailable(ShownMachinery([])[j]) <==> j != 2)
  {
  }
}
