/** The Project document: its field validators, the legacy single `image` kept in
    step with the `images` list by a save-time hook, the derived primary image,
    and the two instance methods that change the list (backend/models/Project.js). */
module Projects {
  import opened Seqs
  import opened Strings

  const ProjectTypes: set<string> := {"Industrial", "Residential", "Infrastructure", "Commercial"}
  const Statuses: set<string> := {"Completed", "In Progress", "Upcoming"}
  const DefaultStatus := "Completed"
  const NameMaxLength := 100
  const DescriptionMaxLength := 500

  /** Every field of a project except the two image fields. Optional strings
      hold "" when unset: the only checks on them are `required` and truthiness
      tests, which treat "" and a missing value alike. */
  datatype Details = Details(
    name: string,
    location: string,
    projectType: string,
    description: string,
    year: string,
    status: string,
    featured: bool,
    clientName: string,
    projectValue: Option<int>,
    duration: string,
    tags: seq<string>)

  /** A stored project: `image` is the legacy single URL, None while it was never
      set (JavaScript's `undefined`), and `images` the ordered list of URLs. */
  datatype Project = Project(details: Details, image: Option<string>, images: seq<string>)

  /** A request body as handed to `new Project(body)`: None is a field the body leaves out. */
  datatype Draft = Draft(
    name: string,
    location: string,
    projectType: string,
    description: string,
    year: string,
    image: Option<string>,
    images: Option<seq<string>>,
    status: Option<string>,
    featured: Option<bool>,
    clientName: string,
    projectValue: Option<int>,
    duration: string,
    tags: Option<seq<string>>)

  /** What the schema does to a body on construction: `trim` setters on the
      trimmed paths, then the defaults of `images`, `status`, `featured` and `tags`. */
  function Cast(d: Draft): (p: Project)
    ensures p.details.name == Trim(d.name) && p.details.description == Trim(d.description)
    ensures p.details.location == Trim(d.location) && p.details.clientName == Trim(d.clientName)
    ensures p.details.duration == Trim(d.duration)
    ensures d.image.None? ==> p.image.None?
    ensures d.image.Some? ==> p.image == Some(Trim(d.image.value))
    ensures p.details.projectType == d.projectType && p.details.year == d.year
    ensures p.details.projectValue == d.projectValue
    ensures d.status.None? ==> p.details.status == DefaultStatus
    ensures d.status.Some? ==> p.details.status == d.status.value
    ensures d.featured.None? ==> !p.details.featured
    ensures d.featured.Some? ==> p.details.featured == d.featured.value
    ensures d.images.None? ==> p.images == []
    ensures d.images.Some? ==> p.images == d.images.value
    ensures d.tags.None? ==> p.details.tags == []
    ensures d.tags.Some? ==> p.details.tags == d.tags.value
  {
    var details := Details(
      Trim(d.name), Trim(d.location), d.projectType, Trim(d.description), d.year,
      match d.status case Some(s) => s case None => DefaultStatus,
      match d.featured case Some(f) => f case None => false,
      Trim(d.clientName), d.projectValue, Trim(d.duration),
      match d.tags case Some(t) => t case None => []);
    var image := match d.image case Some(s) => Some(Trim(s)) case None => None;
    Project(details, image, match d.images case Some(s) => s case None => [])
  }

  /** `/^\d{4}$/`: exactly four decimal digits. */
  predicate YearFormat(year: string) {
    |year| == 4 && AllDigits(year)
  }

  /** JavaScript truthiness of `image`: set, and not "". */
  predicate IsSet(image: Option<string>) {
    image.Some? && image.value != ""
  }

  /** Some image in either field. */
  predicate HasImage(image: Option<string>, images: seq<string>) {
    |images| > 0 || IsSet(image)
  }

  /** The verdict of the `images` validator, `v.length > 0 || this.image`. On an
      empty list its value is `image` itself; Mongoose counts an `undefined`
      result as a pass, so only an `image` set to "" fails. */
  predicate ImagesPass(image: Option<string>, images: seq<string>) {
    |images| > 0 || image != Some("")
  }

  // One function per validated path: the message of the first validator that
  // fails on it, or None. A `required` string validator rejects "".

  function NameError(name: string): Option<string> {
    if name == "" then Some("Project name is required")
    else if |name| > NameMaxLength then Some("Project name cannot exceed 100 characters")
    else None
  }

  function LocationError(location: string): Option<string> {
    if location == "" then Some("Project location is required") else None
  }

  function TypeError(projectType: string): Option<string> {
    if projectType == "" then Some("Project type is required")
    else if projectType !in ProjectTypes then Some(projectType + " is not a valid project type")
    else None
  }

  function DescriptionError(description: string): Option<string> {
    if description == "" then Some("Project description is required")
    else if |description| > DescriptionMaxLength then Some("Description cannot exceed 500 characters")
    else None
  }

  function YearError(year: string): Option<string> {
    if year == "" then Some("Project year is required")
    else if !YearFormat(year) then Some("Year must be a 4-digit number")
    else None
  }

  function ImagesError(image: Option<string>, images: seq<string>): Option<string> {
    if !ImagesPass(image, images) then Some("At least one image is required") else None
  }

  function StatusError(status: string): Option<string> {
    if status !in Statuses then Some("`" + status + "` is not a valid enum value for path `status`.")
    else None
  }

  function ProjectValueError(value: Option<int>): Option<string> {
    if value.Some? && value.value < 0 then Some("Path `projectValue` is less than minimum allowed value (0).")
    else None
  }

  /** The messages of the values present, in order. */
  function Present(errors: seq<Option<string>>): (r: seq<string>)
    ensures r == [] <==> forall i :: 0 <= i < |errors| ==> errors[i].None?
  {
    if errors == [] then []
    else (match errors[0] case Some(m) => [m] case None => []) + Present(errors[1..])
  }

  /** The failures `validate()` reports for a project, one per failing path in schema order. */
  function Violations(p: Project): seq<string> {
    var d := p.details;
    Present([NameError(d.name), LocationError(d.location), TypeError(d.projectType),
             DescriptionError(d.description), YearError(d.year), ImagesError(p.image, p.images),
             StatusError(d.status), ProjectValueError(d.projectValue)])
  }

  /** A project passes `validate()` when no path reports a failure. */
  predicate Valid(p: Project) {
    && NameError(p.details.name).None?
    && LocationError(p.details.location).None?
    && TypeError(p.details.projectType).None?
    && DescriptionError(p.details.description).None?
    && YearError(p.details.year).None?
    && ImagesError(p.image, p.images).None?
    && StatusError(p.details.status).None?
    && ProjectValueError(p.details.projectValue).None?
  }

  /** Eight checks report nothing exactly when each of them passes. */
  lemma PresentEight(e0: Option<string>, e1: Option<string>, e2: Option<string>, e3: Option<string>,
                     e4: Option<string>, e5: Option<string>, e6: Option<string>, e7: Option<string>)
    ensures Present([e0, e1, e2, e3, e4, e5, e6, e7]) == [] <==>
      e0.None? && e1.None? && e2.None? && e3.None? && e4.None? && e5.None? && e6.None? && e7.None?
  {
    var errors := [e0, e1, e2, e3, e4, e5, e6, e7];
    assert errors[0] == e0 && errors[1] == e1 && errors[2] == e2 && errors[3] == e3;
    assert errors[4] == e4 && errors[5] == e5 && errors[6] == e6 && errors[7] == e7;
  }

  /** `validate()` reports nothing exactly for a valid project. */
  lemma NoViolationsIffValid(p: Project)
    ensures Violations(p) == [] <==> Valid(p)
  {
    var d := p.details;
    PresentEight(NameError(d.name), LocationError(d.location), TypeError(d.projectType),
                 DescriptionError(d.description), YearError(d.year), ImagesError(p.image, p.images),
                 StatusError(d.status), ProjectValueError(d.projectValue));
  }

  /** The schema's rules, stated field by field. */
  lemma ValidMeans(p: Project)
    ensures Valid(p) <==>
      && p.details.name != "" && |p.details.name| <= NameMaxLength
      && p.details.location != ""
      && p.details.projectType in ProjectTypes
      && p.details.description != "" && |p.details.description| <= DescriptionMaxLength
      && YearFormat(p.details.year)
      && (HasImage(p.image, p.images) || p.image.None?)
      && p.details.status in Statuses
      && (p.details.projectValue.Some? ==> p.details.projectValue.value >= 0)
  {
    assert YearFormat(p.details.year) ==> p.details.year != "";
    assert "" !in ProjectTypes;
  }

  /** The image check rejects a project only when `images` is empty and `image`
      was set to "": a project that never set `image` passes without any image. */
  lemma ImageCheck(image: Option<string>, images: seq<string>)
    ensures ImagesError(image, images).Some? <==> images == [] && image == Some("")
    ensures ImagesError(image, images).None? <==> HasImage(image, images) || image.None?
  {
  }

  /** A body with neither image field is stored without an image and passes the
      image check; a body whose `image` is blank and whose `images` is missing or
      empty fails it. */
  lemma CastImageCheck(d: Draft)
    ensures d.image.None? && d.images.None? ==>
      !HasImage(Cast(d).image, Cast(d).images) && ImagesError(Cast(d).image, Cast(d).images).None?
    ensures d.image.Some? && Trim(d.image.value) == "" && (d.images.None? || d.images == Some([])) ==>
      ImagesError(Cast(d).image, Cast(d).images) == Some("At least one image is required")
  {
  }

  /** A body that leaves out `status` and `featured` is stored as a completed,
      non-featured project, and the default status passes the enum validator. */
  lemma DefaultsAreValid(d: Draft)
    requires d.status.None? && d.featured.None?
    ensures Cast(d).details.status == "Completed" && !Cast(d).details.featured
    ensures StatusError(Cast(d).details.status).None?
  {
  }

  /** The pre-save hook: fill `images` from `image`, then `image` from `images[0]`
      (through the `trim` setter of `image`). */
  function Sync(p: Project): (r: Project)
    ensures r.details == p.details
  {
    var images := if IsSet(p.image) && |p.images| == 0 then [p.image.value] else p.images;
    var image := if |images| > 0 && !IsSet(p.image) then Some(Trim(images[0])) else p.image;
    p.(image := image, images := images)
  }

  /** The `primaryImage` virtual. */
  function Primary(p: Project): Option<string> {
    if |p.images| > 0 then Some(p.images[0]) else p.image
  }

  /** The two sync rules. */
  lemma SyncRules(p: Project)
    ensures IsSet(p.image) && p.images == [] ==> Sync(p).images == [p.image.value] && Sync(p).image == p.image
    ensures p.images != [] && !IsSet(p.image) ==> Sync(p).images == p.images && Sync(p).image == Some(Trim(p.images[0]))
    ensures !HasImage(p.image, p.images) ==> Sync(p) == p
  {
  }

  /** After the hook, a project that had an image in either field has one in both,
      unless the only source is a blank first URL, which trims to "". */
  lemma SyncFillsBoth(p: Project)
    requires IsSet(p.image) || (|p.images| > 0 && Trim(p.images[0]) != "")
    ensures IsSet(Sync(p).image) && |Sync(p).images| > 0
  {
  }

  /** The exception: an unset `image` and a blank first URL leave `image` falsy. */
  lemma SyncBlankFirstUrl(d: Details)
    ensures Sync(Project(d, None, [" "])).image == Some("")
    ensures |Sync(Project(d, None, [" "])).images| == 1
  {
    assert Trim(" ") == "";
  }

  /** A project with both fields set is left alone, even when `image` is not `images[0]`. */
  lemma SyncKeepsBothSet(p: Project)
    requires IsSet(p.image) && |p.images| > 0
    ensures Sync(p) == p
  {
  }

  /** The hook does not force `image == images[0]`. */
  lemma SyncAllowsDifferentPrimary(d: Details)
    ensures Sync(Project(d, Some("a.jpg"), ["b.jpg"])).image != Some(Sync(Project(d, Some("a.jpg"), ["b.jpg"])).images[0])
  {
  }

  /** Running the hook twice is running it once. */
  lemma SyncIdempotent(p: Project)
    ensures Sync(Sync(p)) == Sync(p)
  {
  }

  /** The hook never changes whether the document validates, so it does not
      matter that Mongoose validates before running the hook. */
  lemma SyncPreservesValidity(p: Project)
    ensures Valid(Sync(p)) <==> Valid(p)
  {
    ValidMeans(p);
    ValidMeans(Sync(p));
  }

  /** The hook never changes the primary image. */
  lemma SyncPreservesPrimary(p: Project)
    ensures Primary(Sync(p)) == Primary(p)
  {
  }

  /** After a successful save of a project with an image the primary image is the
      first element of `images`; a project saved without one keeps an empty list
      and no primary image. */
  lemma SavedPrimaryIsFirst(p: Project)
    requires Valid(p)
    ensures |Sync(p).images| > 0 <==> HasImage(p.image, p.images)
    ensures HasImage(p.image, p.images) ==> Primary(Sync(p)) == Some(Sync(p).images[0])
    ensures !HasImage(p.image, p.images) ==> Sync(p) == p && Primary(Sync(p)).None?
  {
    ValidMeans(p);
  }

  /** The `filter` test of `removeImage`: every URL other than `url`. */
  function OtherThan(url: string): string -> bool {
    x => x != url
  }

  /** The list `removeImage` leaves: every occurrence of `url` dropped, every
      other URL kept as often as it occurs. */
  function WithoutUrl(images: seq<string>, url: string): (r: seq<string>)
    ensures forall j :: 0 <= j < |r| ==> r[j] != url && r[j] in images
    ensures forall j :: 0 <= j < |images| && images[j] != url ==> images[j] in r
    ensures multiset(r) == multiset(images)[url := 0]
  {
    FilterWithoutValue(images, url, OtherThan(url));
    Filter(images, OtherThan(url))
  }

  /** `removeImage` keeps the remaining URLs in their order: it works piecewise
      on any split of the list. */
  lemma WithoutUrlAppend(a: seq<string>, b: seq<string>, url: string)
    ensures WithoutUrl(a + b, url) == WithoutUrl(a, url) + WithoutUrl(b, url)
  {
    FilterAppend(a, b, OtherThan(url));
  }

  /** A list without `url` is left as it is. */
  lemma WithoutAbsentUrl(images: seq<string>, url: string)
    requires url !in images
    ensures WithoutUrl(images, url) == images
  {
    FilterKeepsAll(images, OtherThan(url));
  }

  /** Removing the only image when it is also `image` is undone by the hook. */
  lemma RemoveLastImageRestored(d: Details, url: string)
    requires url != ""
    ensures Sync(Project(d, Some(url), WithoutUrl([url], url))) == Project(d, Some(url), [url])
  {
    assert WithoutUrl([url], url) == [];
  }

  /** Removing the URL that is the primary leaves `image` pointing at a URL that is
      no longer in `images`: the hook does not repair it. */
  lemma RemovePrimaryLeavesImage(d: Details)
    ensures Sync(Project(d, Some("a.jpg"), WithoutUrl(["a.jpg", "b.jpg"], "a.jpg"))) == Project(d, Some("a.jpg"), ["b.jpg"])
  {
    assert WithoutUrl(["a.jpg", "b.jpg"], "a.jpg") == ["b.jpg"];
  }

  datatype SaveResult = Saved | Invalid(messages: seq<string>)

  /** A project document in memory: the object the hook and the instance methods update. */
  class ProjectDocument {
    var details: Details
    var image: Option<string>
    var images: seq<string>

    function Value(): Project
      reads this
    {
      Project(details, image, images)
    }

    /** `new Project(body)`. */
    constructor (d: Draft)
      ensures Value() == Cast(d)
    {
      var p := Cast(d);
      details, image, images := p.details, p.image, p.images;
    }

    /** The `pre('save')` hook, assigning the two fields in place. */
    method PreSave()
      modifies this`image, this`images
      ensures Value() == Sync(old(Value()))
    {
      if IsSet(image) && |images| == 0 {
        images := [image.value];
      }
      if |images| > 0 && !IsSet(image) {
        image := Some(Trim(images[0]));
      }
    }

    /** `save()`: validation runs first; only a valid document reaches the hook. */
    method Save() returns (r: SaveResult)
      modifies this`image, this`images
      ensures r == (if Valid(old(Value())) then Saved else Invalid(Violations(old(Value()))))
      ensures r.Saved? ==> Value() == Sync(old(Value())) && Valid(Value())
      ensures r.Invalid? ==> Value() == old(Value())
    {
      NoViolationsIffValid(Value());
      if !Valid(Value()) {
        return Invalid(Violations(Value()));
      }
      SyncPreservesValidity(Value());
      PreSave();
      return Saved;
    }

    /** `addImage(url)`: append, then save. */
    method AddImage(url: string) returns (r: SaveResult)
      modifies this`image, this`images
      ensures r.Saved? <==> Valid(old(Value()).(images := old(images) + [url]))
      ensures r.Saved? ==> Value() == Sync(old(Value()).(images := old(images) + [url]))
      ensures r.Invalid? ==> image == old(image) && images == old(images) + [url]
      ensures |images| == |old(images)| + 1 && images[..|old(images)|] == old(images) && images[|old(images)|] == url
    {
      images := images + [url];
      r := Save();
    }

    /** `removeImage(url)`: drop every occurrence, then save; `image` is never updated
        except by the hook. */
    method RemoveImage(url: string) returns (r: SaveResult)
      modifies this`image, this`images
      ensures r.Saved? <==> Valid(old(Value()).(images := WithoutUrl(old(images), url)))
      ensures r.Saved? ==> Value() == Sync(old(Value()).(images := WithoutUrl(old(images), url)))
      ensures r.Invalid? ==> image == old(image) && images == WithoutUrl(old(images), url)
    {
      images := WithoutUrl(images, url);
      r := Save();
    }
  }
}
