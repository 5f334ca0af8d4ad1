/** The equipment specification templates: a constant table from a specification key
    to its label and icon, and the lookup that falls back to the key itself with the
    Settings icon. The table is a plain JavaScript object, so an indexed read also sees
    the members every object inherits; the model keeps that behaviour apart from the
    lookup the rest of the frontend relies on. */
module SpecConfig {
  datatype SpecIcon = Weight | Ruler | Settings | Wrench

  /** A template's `label` and `icon`. */
  datatype Template = Template(caption: string, icon: SpecIcon)

  /** `SPEC_TEMPLATES`. */
  const SpecTemplates: map<string, Template> := map[
    "operating_weight" := Template("Operating Weight", Weight),
    "bucket_capacity" := Template("Bucket Capacity", Settings),
    "max_digging_depth" := Template("Max Digging Depth", Ruler),
    "fuel_efficiency" := Template("High Fuel Efficiency", Settings),
    "digging_force" := Template("Strong Digging Force", Wrench),
    "boom_arm" := Template("Heavy-Duty Boom & Arm", Settings),
    "stability" := Template("High Stability", Wrench),
    "tail_swing" := Template("Zero Tail Swing", Settings),
    "compact" := Template("Compact & Maneuverable", Ruler),
    "engine_type" := Template("CEV-V Compliant", Settings),
    "productivity" := Template("High Productivity", Wrench)]

  /** The property names every plain object inherits from `Object.prototype`; reading
      one of them from the table yields a function (or, for `__proto__`, the prototype
      object itself), which is truthy either way. */
  const PrototypeMembers: set<string> := {
    "constructor", "__proto__", "hasOwnProperty", "isPrototypeOf",
    "propertyIsEnumerable", "toLocaleString", "toString", "valueOf",
    "__defineGetter__", "__defineSetter__", "__lookupGetter__", "__lookupSetter__"}

  /** The value `SPEC_TEMPLATES[type] || { label: type, icon: Settings }` evaluates to:
      a template object, or an inherited member (a function, or the prototype object)
      that has neither a label nor an icon. */
  datatype Details = TemplateObject(template: Template) | InheritedMember(name: string)

  /** `getSpecDetails` as written. */
  function GetSpecDetailsAsWritten(key: string): (r: Details)
    ensures key in SpecTemplates ==> r == TemplateObject(SpecTemplates[key])
    ensures key !in SpecTemplates && key in PrototypeMembers ==> r == InheritedMember(key)
    ensures key !in SpecTemplates && key !in PrototypeMembers ==> r == TemplateObject(Template(key, Settings))
  {
    if key in SpecTemplates then TemplateObject(SpecTemplates[key])
    else if key in PrototypeMembers then InheritedMember(key)
    else TemplateObject(Template(key, Settings))
  }

  /** The key "toString" gets back an inherited function rather than a template, so the label the
      caller reads is undefined instead of "toString". */
  lemma AsWrittenToStringHasNoLabel()
    ensures !GetSpecDetailsAsWritten("toString").TemplateObject?
    ensures exists key :: !GetSpecDetailsAsWritten(key).TemplateObject?
  {
    assert "toString" !in SpecTemplates;
    assert !GetSpecDetailsAsWritten("toString").TemplateObject?;
  }

  /** `getSpecDetails` reading only the table's own keys: the template for one of the
      eleven keys, and otherwise the key as its own label with the Settings icon. */
  function GetSpecDetails(key: string): (r: Template)
    ensures key in SpecTemplates ==> r == SpecTemplates[key]
    ensures key !in SpecTemplates ==> r.caption == key && r.icon == Settings
  {
    if key in SpecTemplates then SpecTemplates[key] else Template(key, Settings)
  }

  /** Every key gets a template, and an unknown key is shown as itself. */
  lemma SpecDetailsTotal(key: string)
    ensures GetSpecDetails(key).caption == key || key in SpecTemplates
    ensures key !in SpecTemplates ==> GetSpecDetails(key) == Template(key, Settings)
  {
  }

  /** The corrected lookup agrees with the code as written on every key that is not an
      inherited member name. */
  lemma CorrectedAgreesOffPrototype(key: string)
    requires key !in PrototypeMembers
    ensures GetSpecDetailsAsWritten(key) == TemplateObject(GetSpecDetails(key))
  {
  }

  /** No table key is an inherited member name, so the two lookups agree on every
      template key. */
  lemma TableKeysNotInherited()
    ensures SpecTemplates.Keys !! PrototypeMembers
  {
  }

  /** The labels of the eleven templates. */
  lemma TemplateLabels()
    ensures GetSpecDetails("operating_weight").caption == "Operating Weight"
    ensures GetSpecDetails("bucket_capacity").caption == "Bucket Capacity"
    ensures GetSpecDetails("max_digging_depth").caption == "Max Digging Depth"
    ensures GetSpecDetails("fuel_efficiency").caption == "High Fuel Efficiency"
    ensures GetSpecDetails("digging_force").caption == "Strong Digging Force"
    ensures GetSpecDetails("boom_arm").caption == "Heavy-Duty Boom & Arm"
    ensures GetSpecDetails("stability").caption == "High Stability"
    ensures GetSpecDetails("tail_swing").caption == "Zero Tail Swing"
    ensures GetSpecDetails("compact").caption == "Compact & Maneuverable"
    ensures GetSpecDetails("engine_type").caption == "CEV-V Compliant"
    ensures GetSpecDetails("productivity").caption == "High Productivity"
  {
  }
}
