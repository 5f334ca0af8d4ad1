/** The service editor of the admin dashboard: its form state (title, description,
    and a feature list that never becomes empty), the feature-list edits, and what a
    submission sends. The image file and its preview are not part of this model. */
module AdminServices {
  import opened Seqs
  import opened Strings

  /** A service as the list holds it. */
  datatype Service = Service(id: nat, title: string, description: string, features: seq<string>)

  /** What `handleSubmit` sends: the service being edited (a PUT) or none (a POST),
      and the form fields. */
  datatype Submission = Submission(serviceId: Option<nat>, title: string, description: string, features: seq<string>)

  /** `features.filter((_, i) => i !== index)`: the list without the element at `index`;
      an index outside the list removes nothing. */
  function WithoutIndex(features: seq<string>, index: int): (r: seq<string>)
    ensures 0 <= index < |features| ==> r == features[..index] + features[index + 1..]
    ensures !(0 <= index < |features|) ==> r == features
  {
    if features == [] then []
    else if index == 0 then features[1..]
    else [features[0]] + WithoutIndex(features[1..], index - 1)
  }

  /** `removeFeature`'s new list: the element removed, or `['']` when none is left. */
  function RemovedFeature(features: seq<string>, index: int): (r: seq<string>)
    ensures |r| > 0
    ensures 0 <= index < |features| && |features| > 1 ==> r == features[..index] + features[index + 1..]
    ensures 0 <= index < |features| && |features| == 1 ==> r == [""]
    ensures !(0 <= index < |features|) && features != [] ==> r == features
  {
    var rest := WithoutIndex(features, index);
    if |rest| > 0 then rest else [""]
  }

  /** `handleFeatureChange`'s new list: a copy of the list with one element replaced. */
  method ChangedFeature(features: seq<string>, index: nat, value: string) returns (r: seq<string>)
    requires index < |features|
    ensures |r| == |features| && r[index] == value
    ensures forall j :: 0 <= j < |features| && j != index ==> r[j] == features[j]
  {
    var copy := new string[|features|](j requires 0 <= j < |features| => features[j]);
    copy[index] := value;
    r := copy[..];
  }

  /** A feature is sent when `f.trim() !== ''`. */
  predicate IsSent(f: string) {
    Trim(f) != ""
  }

  /** The features a submission sends. */
  function SentFeatures(features: seq<string>): (r: seq<string>)
    ensures forall j :: 0 <= j < |r| ==> IsSent(r[j]) && r[j] in features
    ensures forall j :: 0 <= j < |features| && IsSent(features[j]) ==> features[j] in r
  {
    Filter(features, IsSent)
  }

  /** A feature is sent exactly when it holds a character other than whitespace. */
  lemma SentIffNotBlank(f: string)
    ensures IsSent(f) <==> exists i :: 0 <= i < |f| && !IsSpace(f[i])
  {
    TrimEmptyIffBlank(f);
  }

  /** The sent features keep their order: the features of the first part of the list
      come before those of the second. */
  lemma SentKeepsOrder(a: seq<string>, b: seq<string>)
    ensures SentFeatures(a + b) == SentFeatures(a) + SentFeatures(b)
  {
    FilterAppend(a, b, IsSent);
  }

  /** A list whose every feature is filled in is sent whole. */
  lemma AllFilledAllSent(features: seq<string>)
    requires forall j :: 0 <= j < |features| ==> IsSent(features[j])
    ensures SentFeatures(features) == features
  {
    FilterKeepsAll(features, IsSent);
  }

  /** An empty row left by "add feature" is never sent. */
  lemma EmptyRowNotSent(features: seq<string>)
    ensures SentFeatures(features + [""]) == SentFeatures(features)
  {
    FilterAppend(features, [""], IsSent);
    assert !IsSent("");
  }

  class ServiceForm {
    var title: string
    var description: string
    var features: seq<string>
    /** The service being edited; none while creating one. */
    var editing: Option<nat>

    /** The feature list always shows at least one row. */
    predicate Valid()
      reads this
    {
      |features| > 0
    }

    constructor()
      ensures title == "" && description == "" && features == [""] && editing == None
      ensures Valid()
    {
      title := "";
      description := "";
      features := [""];
      editing := None;
    }

    /** `openCreateModal`: a blank form with one empty feature row. */
    method OpenCreate()
      modifies this
      ensures title == "" && description == "" && features == [""] && editing == None
      ensures Valid()
    {
      title := "";
      description := "";
      features := [""];
      editing := None;
    }

    /** `openEditModal`: the service's fields, and one empty row when it has no features. */
    method OpenEdit(s: Service)
      modifies this
      ensures title == s.title && description == s.description && editing == Some(s.id)
      ensures s.features != [] ==> features == s.features
      ensures s.features == [] ==> features == [""]
      ensures Valid()
    {
      title := s.title;
      description := s.description;
      features := if |s.features| > 0 then s.features else [""];
      editing := Some(s.id);
    }

    /** `addFeature`: one empty row at the end. */
    method AddFeature()
      requires Valid()
      modifies this
      ensures features == old(features) + [""]
      ensures title == old(title) && description == old(description) && editing == old(editing)
      ensures Valid()
    {
      features := features + [""];
    }

    /** `removeFeature`. */
    method RemoveFeature(index: int)
      requires Valid()
      modifies this
      ensures features == RemovedFeature(old(features), index)
      ensures title == old(title) && description == old(description) && editing == old(editing)
      ensures Valid()
    {
      features := RemovedFeature(features, index);
    }

    /** `handleFeatureChange`, called from the row at `index`. */
    method ChangeFeature(index: nat, value: string)
      requires Valid() && index < |features|
      modifies this
      ensures |features| == |old(features)| && features[index] == value
      ensures forall j :: 0 <= j < |features| && j != index ==> features[j] == old(features)[j]
      ensures title == old(title) && description == old(description) && editing == old(editing)
      ensures Valid()
    {
      features := ChangedFeature(features, index, value);
    }

    /** `handleSubmit`: refused while the title or the description is empty; otherwise
        the fields with only the filled-in features. */
    function Submit(): (r: Option<Submission>)
      reads this
      ensures r.None? <==> title == "" || description == ""
      ensures r.Some? ==> r.value == Submission(editing, title, description, SentFeatures(features))
    {
      if title == "" || description == "" then None
      else Some(Submission(editing, title, description, SentFeatures(features)))
    }
  }

  /** Adding a row and submitting sends the same features as submitting straight away. */
  method AddRowThenSubmit(form: ServiceForm) returns (before: Option<Submission>, after: Option<Submission>)
    requires form.Valid()
    modifies form
    ensures before == after
  {
    before := form.Submit();
    form.AddFeature();
    EmptyRowNotSent(old(form.features));
    after := form.Submit();
  }
}
