/** The contact controller: a single contact document whose four sub-item arrays
    (`phones`, `addresses`, `workingHours`, `socialMedia`) are appended to, updated
    by id and filtered by id. Each handler reads the document, changes it, saves it
    (which validates the whole document) and answers with an HTTP status. */
module ContactController {
  import opened Seqs
  import opened Strings
  import opened ContactSchema

  /** The `arrayName` route parameter: one of the four array fields, or anything
      else, on which the handler throws and answers 400. */
  datatype ArrayName = PhonesArray | AddressesArray | WorkingHoursArray | SocialMediaArray | OtherField(name: string)

  function ParseArrayName(s: string): (r: ArrayName)
    ensures r.OtherField? <==> s !in {"phones", "addresses", "workingHours", "socialMedia"}
    ensures r.OtherField? ==> r.name == s
    ensures r == PhonesArray <==> s == "phones"
    ensures r == AddressesArray <==> s == "addresses"
    ensures r == WorkingHoursArray <==> s == "workingHours"
    ensures r == SocialMediaArray <==> s == "socialMedia"
  {
    if s == "phones" then PhonesArray
    else if s == "addresses" then AddressesArray
    else if s == "workingHours" then WorkingHoursArray
    else if s == "socialMedia" then SocialMediaArray
    else OtherField(s)
  }

  /** A handler's answer: the document with 200 or 201, a 404 with its message, or a
      400 carrying the text of the validation or type error (not modelled). */
  datatype Reply = Ok(code: nat, info: ContactInfo) | NotFound(message: string) | BadRequest

  const ContactNotFound := "Contact info not found"
  const ItemNotFound := "Item not found"

  /** Sub-item ids are handed out from a counter, as fresh ids. */
  predicate IdsFresh(c: ContactInfo, n: nat) {
    && KeysFresh(c.phones, PhoneId, n)
    && KeysFresh(c.addresses, AddressId, n)
    && KeysFresh(c.workingHours, HoursId, n)
    && KeysFresh(c.socialMedia, SocialId, n)
  }

  /** `d` equals `c` except perhaps in the named array. */
  predicate SameExcept(c: ContactInfo, d: ContactInfo, name: ArrayName) {
    match name
    case PhonesArray => d == c.(phones := d.phones)
    case AddressesArray => d == c.(addresses := d.addresses)
    case WorkingHoursArray => d == c.(workingHours := d.workingHours)
    case SocialMediaArray => d == c.(socialMedia := d.socialMedia)
    case OtherField(_) => d == c
  }

  /** The number of items in the named array. */
  function Count(c: ContactInfo, name: ArrayName): nat {
    match name
    case PhonesArray => |c.phones|
    case AddressesArray => |c.addresses|
    case WorkingHoursArray => |c.workingHours|
    case SocialMediaArray => |c.socialMedia|
    case OtherField(_) => 0
  }

  /** The item a push of `b` adds, as the sub-schema casts it, is valid. */
  predicate NewItemValid(name: ArrayName, id: nat, b: Body) {
    match name
    case PhonesArray => PhoneValid(NewPhone(id, b))
    case AddressesArray => AddressValid(NewAddress(id, b))
    case WorkingHoursArray => HoursValid(NewHours(id, b))
    case SocialMediaArray => SocialValid(NewSocial(id, b))
    case OtherField(_) => false
  }

  /** `contactInfo[name].push(body)`. */
  function Appended(c: ContactInfo, name: ArrayName, id: nat, b: Body): ContactInfo
    requires !name.OtherField?
  {
    match name
    case PhonesArray => c.(phones := c.phones + [NewPhone(id, b)])
    case AddressesArray => c.(addresses := c.addresses + [NewAddress(id, b)])
    case WorkingHoursArray => c.(workingHours := c.workingHours + [NewHours(id, b)])
    case SocialMediaArray => c.(socialMedia := c.socialMedia + [NewSocial(id, b)])
  }

  /** An append grows only the named array, by one item at its end: the body as the
      sub-schema casts it. */
  lemma AppendedFrame(c: ContactInfo, name: ArrayName, id: nat, b: Body)
    requires !name.OtherField?
    ensures SameExcept(c, Appended(c, name, id, b), name)
    ensures Count(Appended(c, name, id, b), name) == Count(c, name) + 1
    ensures name == PhonesArray ==> Appended(c, name, id, b).phones[..|c.phones|] == c.phones
    ensures name == AddressesArray ==> Appended(c, name, id, b).addresses[..|c.addresses|] == c.addresses
    ensures name == WorkingHoursArray ==> Appended(c, name, id, b).workingHours[..|c.workingHours|] == c.workingHours
    ensures name == SocialMediaArray ==> Appended(c, name, id, b).socialMedia[..|c.socialMedia|] == c.socialMedia
    ensures name == PhonesArray ==> Appended(c, name, id, b).phones[|c.phones|] == NewPhone(id, b)
    ensures name == AddressesArray ==> Appended(c, name, id, b).addresses[|c.addresses|] == NewAddress(id, b)
    ensures name == WorkingHoursArray ==> Appended(c, name, id, b).workingHours[|c.workingHours|] == NewHours(id, b)
    ensures name == SocialMediaArray ==> Appended(c, name, id, b).socialMedia[|c.socialMedia|] == NewSocial(id, b)
  {
  }

  /** Saving after an append to a valid document succeeds exactly when the new item is valid. */
  lemma AppendedValid(c: ContactInfo, name: ArrayName, id: nat, b: Body)
    requires !name.OtherField? && ContactValid(c)
    ensures ContactValid(Appended(c, name, id, b)) <==> NewItemValid(name, id, b)
  {
    AppendedFrame(c, name, id, b);
  }

  /** An item keyed by the counter keeps the ids fresh for the next counter value. */
  lemma AppendedFresh(c: ContactInfo, name: ArrayName, n: nat, b: Body)
    requires !name.OtherField? && IdsFresh(c, n)
    ensures IdsFresh(Appended(c, name, n, b), n + 1)
  {
    match name
    case PhonesArray =>
      KeysFreshAppend(c.phones, PhoneId, n, NewPhone(n, b));
      KeysFreshRaise(c, n);
    case AddressesArray =>
      KeysFreshAppend(c.addresses, AddressId, n, NewAddress(n, b));
      KeysFreshRaise(c, n);
    case WorkingHoursArray =>
      KeysFreshAppend(c.workingHours, HoursId, n, NewHours(n, b));
      KeysFreshRaise(c, n);
    case SocialMediaArray =>
      KeysFreshAppend(c.socialMedia, SocialId, n, NewSocial(n, b));
      KeysFreshRaise(c, n);
  }

  lemma KeysFreshRaise(c: ContactInfo, n: nat)
    requires IdsFresh(c, n)
    ensures IdsFresh(c, n + 1)
  {
  }

  /** `array.findIndex(item => item._id === k)`, then `array[i] = merge(array[i])`;
      None when no item has that id. */
  function ReplaceById<T>(s: seq<T>, id: T -> nat, k: nat, merge: T -> T): (r: Option<seq<T>>)
    ensures r.None? <==> forall j :: 0 <= j < |s| ==> id(s[j]) != k
  {
    var i := FindIndex(s, x => id(x) == k);
    if i == -1 then None else Some(s[i := merge(s[i])])
  }

  /** The replacement touches only the first item with that id: the length and every
      other item are unchanged. */
  lemma ReplaceByIdFrame<T>(s: seq<T>, id: T -> nat, k: nat, merge: T -> T)
    requires ReplaceById(s, id, k, merge).Some?
    ensures var i := FindIndex(s, x => id(x) == k);
      && 0 <= i && id(s[i]) == k
      && |ReplaceById(s, id, k, merge).value| == |s|
      && ReplaceById(s, id, k, merge).value[i] == merge(s[i])
      && forall j :: 0 <= j < |s| && j != i ==> ReplaceById(s, id, k, merge).value[j] == s[j]
  {
  }

  /** A merge that keeps the id keeps the ids fresh. */
  lemma ReplaceByIdFresh<T>(s: seq<T>, id: T -> nat, n: nat, k: nat, merge: T -> T)
    requires KeysFresh(s, id, n) && ReplaceById(s, id, k, merge).Some?
    requires forall x :: id(merge(x)) == id(x)
    ensures KeysFresh(ReplaceById(s, id, k, merge).value, id, n)
  {
    var i := FindIndex(s, x => id(x) == k);
    KeysFreshUpdate(s, id, n, i, merge(s[i]));
  }

  /** `array[i] = { ...array[i].toObject(), ...body }` on the named array. */
  function UpdateItem(c: ContactInfo, name: ArrayName, k: nat, b: Body): Option<ContactInfo>
    requires !name.OtherField?
  {
    match name
    case PhonesArray =>
      (match ReplaceById(c.phones, PhoneId, k, p => MergePhone(p, b))
       case None => None
       case Some(s) => Some(c.(phones := s)))
    case AddressesArray =>
      (match ReplaceById(c.addresses, AddressId, k, a => MergeAddress(a, b))
       case None => None
       case Some(s) => Some(c.(addresses := s)))
    case WorkingHoursArray =>
      (match ReplaceById(c.workingHours, HoursId, k, h => MergeHours(h, b))
       case None => None
       case Some(s) => Some(c.(workingHours := s)))
    case SocialMediaArray =>
      (match ReplaceById(c.socialMedia, SocialId, k, x => MergeSocial(x, b))
       case None => None
       case Some(s) => Some(c.(socialMedia := s)))
  }

  /** The update finds no item exactly when no item of the named array has that id;
      otherwise it changes only that array and keeps its length. */
  lemma UpdateItemFrame(c: ContactInfo, name: ArrayName, k: nat, b: Body)
    requires !name.OtherField?
    ensures name == PhonesArray ==>
      (UpdateItem(c, name, k, b).None? <==> forall j :: 0 <= j < |c.phones| ==> c.phones[j].id != k)
    ensures name == AddressesArray ==>
      (UpdateItem(c, name, k, b).None? <==> forall j :: 0 <= j < |c.addresses| ==> c.addresses[j].id != k)
    ensures name == WorkingHoursArray ==>
      (UpdateItem(c, name, k, b).None? <==> forall j :: 0 <= j < |c.workingHours| ==> c.workingHours[j].id != k)
    ensures name == SocialMediaArray ==>
      (UpdateItem(c, name, k, b).None? <==> forall j :: 0 <= j < |c.socialMedia| ==> c.socialMedia[j].id != k)
    ensures UpdateItem(c, name, k, b).Some? ==>
      SameExcept(c, UpdateItem(c, name, k, b).value, name) && Count(UpdateItem(c, name, k, b).value, name) == Count(c, name)
  {
  }

  /** The phone with id `k` is the only one that changes, and it becomes the merge of
      its old fields with the body's. */
  lemma UpdatePhoneItem(c: ContactInfo, k: nat, b: Body, j: nat)
    requires UpdateItem(c, PhonesArray, k, b).Some? && j < |c.phones|
    ensures c.phones[j].id == k && (forall i :: 0 <= i < j ==> c.phones[i].id != k) ==>
      UpdateItem(c, PhonesArray, k, b).value.phones[j] == MergePhone(c.phones[j], b)
    ensures c.phones[j].id != k ==> UpdateItem(c, PhonesArray, k, b).value.phones[j] == c.phones[j]
  {
    ReplaceByIdFrame(c.phones, PhoneId, k, p => MergePhone(p, b));
  }

  /** With fresh ids, an update keeps them fresh. */
  lemma UpdateItemFresh(c: ContactInfo, name: ArrayName, n: nat, k: nat, b: Body)
    requires !name.OtherField? && IdsFresh(c, n) && UpdateItem(c, name, k, b).Some?
    ensures IdsFresh(UpdateItem(c, name, k, b).value, n)
  {
    match name
    case PhonesArray => ReplaceByIdFresh(c.phones, PhoneId, n, k, p => MergePhone(p, b));
    case AddressesArray => ReplaceByIdFresh(c.addresses, AddressId, n, k, a => MergeAddress(a, b));
    case WorkingHoursArray => ReplaceByIdFresh(c.workingHours, HoursId, n, k, h => MergeHours(h, b));
    case SocialMediaArray => ReplaceByIdFresh(c.socialMedia, SocialId, n, k, x => MergeSocial(x, b));
  }

  /** `contactInfo[name] = contactInfo[name].filter(item => item._id !== k)`. */
  function DeleteItem(c: ContactInfo, name: ArrayName, k: nat): ContactInfo
    requires !name.OtherField?
  {
    match name
    case PhonesArray => c.(phones := Filter(c.phones, (p: Phone) => p.id != k))
    case AddressesArray => c.(addresses := Filter(c.addresses, (a: Address) => a.id != k))
    case WorkingHoursArray => c.(workingHours := Filter(c.workingHours, (h: Hours) => h.id != k))
    case SocialMediaArray => c.(socialMedia := Filter(c.socialMedia, (s: Social) => s.id != k))
  }

  /** Deleting changes only the named array, keeps a valid document valid and its ids
      fresh, and the array loses no item that does not carry the id. */
  lemma DeleteItemFrame(c: ContactInfo, name: ArrayName, n: nat, k: nat)
    requires !name.OtherField?
    ensures SameExcept(c, DeleteItem(c, name, k), name)
    ensures Count(DeleteItem(c, name, k), name) <= Count(c, name)
    ensures ContactValid(c) ==> ContactValid(DeleteItem(c, name, k))
    ensures IdsFresh(c, n) ==> IdsFresh(DeleteItem(c, name, k), n)
  {
    if IdsFresh(c, n) {
      match name
      case PhonesArray => KeysFreshFilter(c.phones, PhoneId, n, (p: Phone) => p.id != k);
      case AddressesArray => KeysFreshFilter(c.addresses, AddressId, n, (a: Address) => a.id != k);
      case WorkingHoursArray => KeysFreshFilter(c.workingHours, HoursId, n, (h: Hours) => h.id != k);
      case SocialMediaArray => KeysFreshFilter(c.socialMedia, SocialId, n, (s: Social) => s.id != k);
    }
  }

  /** With fresh ids, deleting a phone removes exactly the one with that id, keeping
      the others in order, and leaves the document as it was when none has it. */
  lemma DeletePhoneExactlyOne(c: ContactInfo, n: nat, k: nat)
    requires IdsFresh(c, n)
    ensures (forall j :: 0 <= j < |c.phones| ==> c.phones[j].id != k) ==> DeleteItem(c, PhonesArray, k) == c
    ensures forall i :: 0 <= i < |c.phones| && c.phones[i].id == k ==>
      DeleteItem(c, PhonesArray, k).phones == c.phones[..i] + c.phones[i + 1..]
  {
    FilterKeyDropsOne(c.phones, PhoneId, n, k, (p: Phone) => p.id != k);
  }

  /** With fresh ids, deleting an address removes exactly the one with that id, keeping
      the others in order, and leaves the document as it was when none has it. */
  lemma DeleteAddressExactlyOne(c: ContactInfo, n: nat, k: nat)
    requires IdsFresh(c, n)
    ensures (forall j :: 0 <= j < |c.addresses| ==> c.addresses[j].id != k) ==> DeleteItem(c, AddressesArray, k) == c
    ensures forall i :: 0 <= i < |c.addresses| && c.addresses[i].id == k ==>
      DeleteItem(c, AddressesArray, k).addresses == c.addresses[..i] + c.addresses[i + 1..]
  {
    FilterKeyDropsOne(c.addresses, AddressId, n, k, (a: Address) => a.id != k);
  }

  /** With fresh ids, deleting a working-hours entry removes exactly the one with that id, keeping
      the others in order, and leaves the document as it was when none has it. */
  lemma DeleteHoursExactlyOne(c: ContactInfo, n: nat, k: nat)
    requires IdsFresh(c, n)
    ensures (forall j :: 0 <= j < |c.workingHours| ==> c.workingHours[j].id != k) ==> DeleteItem(c, WorkingHoursArray, k) == c
    ensures forall i :: 0 <= i < |c.workingHours| && c.workingHours[i].id == k ==>
      DeleteItem(c, WorkingHoursArray, k).workingHours == c.workingHours[..i] + c.workingHours[i + 1..]
  {
    FilterKeyDropsOne(c.workingHours, HoursId, n, k, (h: Hours) => h.id != k);
  }

  /** With fresh ids, deleting a social link removes exactly the one with that id, keeping
      the others in order, and leaves the document as it was when none has it. */
  lemma DeleteSocialExactlyOne(c: ContactInfo, n: nat, k: nat)
    requires IdsFresh(c, n)
    ensures (forall j :: 0 <= j < |c.socialMedia| ==> c.socialMedia[j].id != k) ==> DeleteItem(c, SocialMediaArray, k) == c
    ensures forall i :: 0 <= i < |c.socialMedia| && c.socialMedia[i].id == k ==>
      DeleteItem(c, SocialMediaArray, k).socialMedia == c.socialMedia[..i] + c.socialMedia[i + 1..]
  {
    FilterKeyDropsOne(c.socialMedia, SocialId, n, k, (s: Social) => s.id != k);
  }

  /** Appending an item and then deleting it by its id gives back the document. */
  lemma AddThenDelete(c: ContactInfo, name: ArrayName, n: nat, b: Body)
    requires !name.OtherField? && IdsFresh(c, n)
    ensures DeleteItem(Appended(c, name, n, b), name, n) == c
  {
    match name
    case PhonesArray =>
      FilterFreshKey(c.phones, PhoneId, n, NewPhone(n, b), (p: Phone) => p.id != n);
    case AddressesArray =>
      FilterFreshKey(c.addresses, AddressId, n, NewAddress(n, b), (a: Address) => a.id != n);
    case WorkingHoursArray =>
      FilterFreshKey(c.workingHours, HoursId, n, NewHours(n, b), (h: Hours) => h.id != n);
    case SocialMediaArray =>
      FilterFreshKey(c.socialMedia, SocialId, n, NewSocial(n, b), (s: Social) => s.id != n);
  }

  /** A phone's number is stable under a repeated update. */
  lemma MergePhoneNumberStable(p: Phone, b: Body)
    ensures MergePhone(MergePhone(p, b), b).number == MergePhone(p, b).number
  {
    if b.number.None? {
      TrimIdempotent(p.number);
    }
  }

  /** Sending the same update body twice stores the same phone as sending it once. */
  lemma MergePhoneIdempotent(p: Phone, b: Body)
    ensures MergePhone(MergePhone(p, b), b) == MergePhone(p, b)
  {
    MergePhoneNumberStable(p, b);
  }

  /** The body of a create without a business name or email. */
  const NoFields := Patch(None, None, None, None, None, None, None, None, None, None)

  /** With no document, an add creates one holding only the new item; it lacks the
      required business name and email, so it never passes validation. */
  lemma ItemOnlyCreateFails(name: ArrayName, id: nat, b: Body)
    requires !name.OtherField?
    ensures !ContactValid(Appended(CreateFrom(NoFields), name, id, b))
  {
    var created := CreateFrom(NoFields);
    assert created.businessName == Trim("") == "";
    ItemOnlyDocumentInvalid(Appended(created, name, id, b));
  }

  /** What is stored passed validation, and its ids are distinct and below the counter. */
  predicate StoreValid(doc: Option<ContactInfo>, n: nat) {
    doc.Some? ==> ContactValid(doc.value) && IdsFresh(doc.value, n)
  }

  /** A valid document with no sub-items is a valid store, whatever the counter. */
  lemma EmptyArraysStoreValid(c: ContactInfo, n: nat)
    requires ContactValid(c)
    requires c.phones == [] && c.addresses == [] && c.workingHours == [] && c.socialMedia == []
    ensures StoreValid(Some(c), n)
  {
  }

  /** An update that passes the update validators keeps the store valid. */
  lemma PatchedStoreValid(c: ContactInfo, b: Patch, n: nat)
    requires StoreValid(Some(c), n) && PatchValid(b)
    ensures StoreValid(Some(ApplyPatch(c, b)), n)
  {
    ApplyPatchValid(c, b);
  }

  /** What a handler leaves behind: the stored document, the id counter and the answer. */
  datatype Outcome = Outcome(doc: Option<ContactInfo>, nextId: nat, reply: Reply)

  /** The four add handlers: with no document, create one holding only the new item;
      otherwise push the body onto the named array. Either way the document is saved,
      and a failed validation answers 400 and stores nothing. */
  function AddOutcome(doc: Option<ContactInfo>, n: nat, name: ArrayName, b: Body): Outcome
    requires !name.OtherField?
  {
    var d := Appended(if doc.Some? then doc.value else CreateFrom(NoFields), name, n, b);
    if ContactValid(d) then Outcome(Some(d), n + 1, Ok(201, d)) else Outcome(doc, n, BadRequest)
  }

  /** An add stores a document only when there was one and the new item is valid, and
      then it is the old document with the item pushed onto the named array. */
  lemma AddOutcomeCases(doc: Option<ContactInfo>, n: nat, name: ArrayName, b: Body)
    requires !name.OtherField? && StoreValid(doc, n)
    ensures doc.None? ==> AddOutcome(doc, n, name, b) == Outcome(None, n, BadRequest)
    ensures doc.Some? && NewItemValid(name, n, b) ==>
      var d := Appended(doc.value, name, n, b);
      AddOutcome(doc, n, name, b) == Outcome(Some(d), n + 1, Ok(201, d))
    ensures doc.Some? && !NewItemValid(name, n, b) ==>
      AddOutcome(doc, n, name, b) == Outcome(doc, n, BadRequest)
  {
    if doc.None? {
      ItemOnlyCreateFails(name, n, b);
    } else {
      AppendedValid(doc.value, name, n, b);
    }
  }

  /** An add keeps the store valid. */
  lemma AddOutcomeValid(doc: Option<ContactInfo>, n: nat, name: ArrayName, b: Body)
    requires !name.OtherField? && StoreValid(doc, n)
    ensures StoreValid(AddOutcome(doc, n, name, b).doc, AddOutcome(doc, n, name, b).nextId)
  {
    if doc.None? {
      ItemOnlyCreateFails(name, n, b);
    } else {
      AppendedFresh(doc.value, name, n, b);
    }
  }

  /** `updateArrayItem`: 404 without a document, 400 for a name that is not an array,
      404 when no item has the id; otherwise merge the body over the item and save,
      answering 400 and storing nothing when validation fails. */
  function UpdateOutcome(doc: Option<ContactInfo>, n: nat, name: ArrayName, k: nat, b: Body): (o: Outcome)
    ensures o.nextId == n
    ensures o.doc != doc ==> o.reply.Ok? && o.reply.code == 200 && o.doc == Some(o.reply.info)
    ensures doc.None? ==> o == Outcome(doc, n, NotFound(ContactNotFound))
    ensures doc.Some? && name.OtherField? ==> o == Outcome(doc, n, BadRequest)
    ensures doc.Some? && !name.OtherField? && UpdateItem(doc.value, name, k, b).None? ==>
      o == Outcome(doc, n, NotFound(ItemNotFound))
    ensures doc.Some? && !name.OtherField? && UpdateItem(doc.value, name, k, b).Some? ==>
      var d := UpdateItem(doc.value, name, k, b).value;
      o == if ContactValid(d) then Outcome(Some(d), n, Ok(200, d)) else Outcome(doc, n, BadRequest)
  {
    match doc
    case None => Outcome(doc, n, NotFound(ContactNotFound))
    case Some(c) =>
      if name.OtherField? then Outcome(doc, n, BadRequest)
      else
        match UpdateItem(c, name, k, b)
        case None => Outcome(doc, n, NotFound(ItemNotFound))
        case Some(d) => if ContactValid(d) then Outcome(Some(d), n, Ok(200, d)) else Outcome(doc, n, BadRequest)
  }

  /** An update keeps the store valid, and a successful one changes only the named
      array, keeping its length. */
  lemma UpdateOutcomeValid(doc: Option<ContactInfo>, n: nat, name: ArrayName, k: nat, b: Body)
    requires StoreValid(doc, n)
    ensures StoreValid(UpdateOutcome(doc, n, name, k, b).doc, n)
    ensures UpdateOutcome(doc, n, name, k, b).reply.Ok? ==>
      doc.Some? && SameExcept(doc.value, UpdateOutcome(doc, n, name, k, b).reply.info, name)
      && Count(UpdateOutcome(doc, n, name, k, b).reply.info, name) == Count(doc.value, name)
  {
    if doc.Some? && !name.OtherField? && UpdateItem(doc.value, name, k, b).Some? {
      UpdateItemFresh(doc.value, name, n, k, b);
      UpdateItemFrame(doc.value, name, k, b);
    }
  }

  /** `deleteArrayItem`: 404 without a document, 400 for a name that is not an array,
      otherwise keep the items with another id and save. */
  function DeleteOutcome(doc: Option<ContactInfo>, n: nat, name: ArrayName, k: nat): (o: Outcome)
    ensures o.nextId == n
    ensures doc.None? ==> o == Outcome(doc, n, NotFound(ContactNotFound))
    ensures doc.Some? && name.OtherField? ==> o == Outcome(doc, n, BadRequest)
    ensures doc.Some? && !name.OtherField? ==>
      var d := DeleteItem(doc.value, name, k);
      o == Outcome(Some(d), n, Ok(200, d))
  {
    match doc
    case None => Outcome(doc, n, NotFound(ContactNotFound))
    case Some(c) =>
      if name.OtherField? then Outcome(doc, n, BadRequest)
      else
        var d := DeleteItem(c, name, k);
        Outcome(Some(d), n, Ok(200, d))
  }

  /** A delete keeps the store valid, so its save never fails. */
  lemma DeleteOutcomeValid(doc: Option<ContactInfo>, n: nat, name: ArrayName, k: nat)
    requires StoreValid(doc, n)
    ensures StoreValid(DeleteOutcome(doc, n, name, k).doc, n)
  {
    if doc.Some? && !name.OtherField? {
      DeleteItemFrame(doc.value, name, n, k);
    }
  }

  /** The document store: at most one contact document, and the counter from which
      sub-item ids are drawn. */
  class ContactStore {
    var doc: Option<ContactInfo>
    var nextId: nat

    predicate Valid()
      reads this
    {
      StoreValid(doc, nextId)
    }

    constructor()
      ensures Valid() && doc.None? && nextId == 0
    {
      doc := None;
      nextId := 0;
    }

    /** `getContactInfo`: the stored document, or the default one, created and stored first. */
    method GetContactInfo() returns (r: Reply)
      requires Valid()
      modifies this
      ensures Valid() && nextId == old(nextId)
      ensures old(doc).Some? ==> doc == old(doc) && r == Ok(200, doc.value)
      ensures old(doc).None? ==> doc == Some(DefaultContactInfo) && r == Ok(200, DefaultContactInfo)
    {
      if doc.None? {
        DefaultContactInfoValid();
        doc := Some(DefaultContactInfo);
      }
      r := Ok(200, doc.value);
    }

    /** `updateContactInfo`: create from the body when there is no document, otherwise
        set the body's fields with the update validators run; 400 when validation fails. */
    method UpdateContactInfo(b: Patch) returns (r: Reply)
      requires Valid()
      modifies this
      ensures Valid() && nextId == old(nextId)
      ensures old(doc).None? && ContactValid(CreateFrom(b)) ==>
        doc == Some(CreateFrom(b)) && r == Ok(200, CreateFrom(b))
      ensures old(doc).Some? && PatchValid(b) ==>
        doc == Some(ApplyPatch(old(doc).value, b)) && r == Ok(200, doc.value)
      ensures (old(doc).None? && !ContactValid(CreateFrom(b))) || (old(doc).Some? && !PatchValid(b)) ==>
        doc == old(doc) && r == BadRequest
    {
      match doc
      case None =>
        var created := CreateFrom(b);
        if ContactValid(created) {
          EmptyArraysStoreValid(created, nextId);
          doc := Some(created);
          r := Ok(200, created);
        } else {
          r := BadRequest;
        }
      case Some(c) =>
        if PatchValid(b) {
          PatchedStoreValid(c, b, nextId);
          var updated := ApplyPatch(c, b);
          doc := Some(updated);
          r := Ok(200, updated);
        } else {
          r := BadRequest;
        }
    }

    /** The shared body of the four add handlers. */
    method AddItem(name: ArrayName, b: Body) returns (r: Reply)
      requires Valid() && !name.OtherField?
      modifies this
      ensures Outcome(doc, nextId, r) == AddOutcome(old(doc), old(nextId), name, b)
      ensures Valid()
    {
      var o := AddOutcome(doc, nextId, name, b);
      AddOutcomeValid(doc, nextId, name, b);
      doc, nextId, r := o.doc, o.nextId, o.reply;
    }

    /** `addPhone`. */
    method AddPhone(b: Body) returns (r: Reply)
      requires Valid()
      modifies this
      ensures Outcome(doc, nextId, r) == AddOutcome(old(doc), old(nextId), PhonesArray, b)
      ensures Valid()
    {
      r := AddItem(PhonesArray, b);
    }

    /** `addAddress`. */
    method AddAddress(b: Body) returns (r: Reply)
      requires Valid()
      modifies this
      ensures Outcome(doc, nextId, r) == AddOutcome(old(doc), old(nextId), AddressesArray, b)
      ensures Valid()
    {
      r := AddItem(AddressesArray, b);
    }

    /** `addWorkingHours`. */
    method AddWorkingHours(b: Body) returns (r: Reply)
      requires Valid()
      modifies this
      ensures Outcome(doc, nextId, r) == AddOutcome(old(doc), old(nextId), WorkingHoursArray, b)
      ensures Valid()
    {
      r := AddItem(WorkingHoursArray, b);
    }

    /** `addSocialMedia`. */
    method AddSocialMedia(b: Body) returns (r: Reply)
      requires Valid()
      modifies this
      ensures Outcome(doc, nextId, r) == AddOutcome(old(doc), old(nextId), SocialMediaArray, b)
      ensures Valid()
    {
      r := AddItem(SocialMediaArray, b);
    }

    /** `updateArrayItem`. */
    method UpdateArrayItem(name: ArrayName, itemId: nat, b: Body) returns (r: Reply)
      requires Valid()
      modifies this
      ensures Outcome(doc, nextId, r) == UpdateOutcome(old(doc), old(nextId), name, itemId, b)
      ensures Valid()
    {
      var o := UpdateOutcome(doc, nextId, name, itemId, b);
      UpdateOutcomeValid(doc, nextId, name, itemId, b);
      doc, r := o.doc, o.reply;
    }

    /** `deleteArrayItem`. */
    method DeleteArrayItem(name: ArrayName, itemId: nat) returns (r: Reply)
      requires Valid()
      modifies this
      ensures Outcome(doc, nextId, r) == DeleteOutcome(old(doc), old(nextId), name, itemId)
      ensures Valid()
    {
      var o := DeleteOutcome(doc, nextId, name, itemId);
      DeleteOutcomeValid(doc, nextId, name, itemId);
      doc, r := o.doc, o.reply;
    }
  }

  /** A second read answers with the document the first one created or found. */
  method ReadTwice(store: ContactStore) returns (first: Reply, second: Reply)
    requires store.Valid()
    modifies store
    ensures first == second && first.Ok? && first.code == 200
  {
    first := store.GetContactInfo();
    second := store.GetContactInfo();
  }

  /** Adding a valid phone to a stored document and deleting it again by the id it got
      gives back the document the store held. */
  method AddPhoneThenDelete(store: ContactStore, b: Body) returns (added: Reply, deleted: Reply)
    requires store.Valid() && store.doc.Some? && PhoneValid(NewPhone(store.nextId, b))
    modifies store
    ensures added.Ok? && added.code == 201
    ensures deleted == Ok(200, old(store.doc).value)
  {
    var n := store.nextId;
    var c := store.doc.value;
    AddOutcomeCases(store.doc, n, PhonesArray, b);
    added := store.AddPhone(b);
    AddThenDelete(c, PhonesArray, n, b);
    deleted := store.DeleteArrayItem(PhonesArray, n);
  }
}
