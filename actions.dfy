/**
 * Template actions and imagemap actions.
 *
 * Every builder checks its input against a rule table first; a failed
 * check aborts the build. Then it reads its fields: an optional field
 * guarded by `isset` falls back to a default, a required field is read
 * without a guard.
 */
module Actions {
  import opened Values
  import opened Validation

  datatype AltUri = AltUri(desktop: Json)

  /** The template actions, one constructor per SDK builder, with the builder's arguments. */
  datatype Action =
    | PostbackAction(labelText: Json, data: Json, displayText: Json)
    | MessageAction(labelText: Json, text: Json)
    | UriAction(labelText: Json, uri: Json, altUri: Option<AltUri>)
    | DatetimePickerAction(labelText: Json, data: Json, mode: Json, initial: Json, max: Json, min: Json)
    | CameraAction(labelText: Json)
    | CameraRollAction(labelText: Json)
    | LocationAction(labelText: Json)

  /** A tappable rectangle of an imagemap. */
  datatype Area = Area(x: Json, y: Json, width: Json, height: Json)

  datatype ImagemapAction =
    | ImagemapUriAction(linkUri: Json, area: Area)
    | ImagemapMessageAction(text: Json, area: Area)

  const ActionTypes: set<string> :=
    {"message", "postback", "uri", "datetimepicker", "camera", "cameraRoll", "location"}

  const DatetimeModes: set<string> := {"date", "time", "datetime"}

  /** How many characters of the URI make the default label. */
  const DefaultLabelLength := 20

  const UriRules: seq<Rule> := [Required, IsString, MaxSize(1000), UriScheme]

  const ActionTable := [FieldRule(["type"], [Required, InSet(ActionTypes)])]

  const PostbackTable := [
    FieldRule(["label"], [MaxSize(20)]),
    FieldRule(["data"], [Required, MaxSize(300)]),
    FieldRule(["displayText"], [Required, MaxSize(300)])
  ]

  const MessageTable := [
    FieldRule(["label"], [MaxSize(20)]),
    FieldRule(["text"], [Required, MaxSize(300)])
  ]

  const UriTable := [
    FieldRule(["label"], [MaxSize(20)]),
    FieldRule(["uri"], UriRules),
    FieldRule(["altUri", "desktop"], [IsString, MaxSize(1000), UriScheme])
  ]

  const DatetimePickerTable := [
    FieldRule(["label"], [MaxSize(20)]),
    FieldRule(["data"], [Required, MaxSize(300)]),
    FieldRule(["mode"], [Required, InSet(DatetimeModes)]),
    FieldRule(["initial"], [Date]),
    FieldRule(["max"], [Date]),
    FieldRule(["min"], [Date])
  ]

  const LabelTable := [FieldRule(["label"], [MaxSize(20)])]

  const AreaRules := [
    FieldRule(["area"], [Required, IsArray]),
    FieldRule(["area", "x"], [Required, IsInteger]),
    FieldRule(["area", "y"], [Required, IsInteger]),
    FieldRule(["area", "width"], [Required, IsInteger]),
    FieldRule(["area", "height"], [Required, IsInteger])
  ]

  const ImagemapUriTable := [FieldRule(["linkUri"], UriRules)] + AreaRules

  const ImagemapMessageTable := [FieldRule(["text"], [Required, MaxSize(400)])] + AreaRules

  /** `$label = ''; if (isset($props['label'])) { $label = $props['label']; }` */
  function LabelOf(props: Json): Json
  {
    FieldOr(props, "label", JString(""))
  }

  /** The first `n` characters of `s`, or all of it when it is shorter. */
  function Prefix(s: string, n: nat): (r: string)
    ensures |r| <= n && r <= s
    ensures |s| <= n ==> r == s
    ensures |s| > n ==> |r| == n
  {
    if |s| <= n then s else s[..n]
  }

  /** substr($v, 0, $n): scalars are cast to a string first; an array is a type error. */
  function Substr(v: Json, n: nat): Result<Json>
  {
    match Stringify(v)
    case Some(s) => Ok(JString(Prefix(s, n)))
    case None => Err(TypeError)
  }

  /** Every key's rule list passes exactly when each of its rules does. */
  predicate Accepted(env: Env, props: Json, table: seq<FieldRule>)
  {
    Validate(env, props, table).Pass?
  }

  /** All the words a `type` check accepts are non-empty and start with a letter. */
  lemma WordsAreWords(values: set<string>)
    requires values <= ActionTypes + DatetimeModes
    ensures forall w :: w in values ==> |w| > 0 && !IsDigit(w[0]) && w[0] != '-'
  {
  }

  // ---- rule tables, read in terms of the input ----

  lemma LabelTableMeans(env: Env, props: Json)
    ensures Accepted(env, props, LabelTable) <==> props.IsArray() && AtMost(props, "label", 20)
  {
    ValidateOne(env, props, FieldRule(["label"], [MaxSize(20)]));
    RuleLine(env, props, "label", MaxSize(20));
  }

  lemma PostbackTableMeans(env: Env, props: Json)
    ensures Accepted(env, props, PostbackTable) <==>
      props.IsArray() && AtMost(props, "label", 20)
      && Given(props, "data") && AtMost(props, "data", 300)
      && Given(props, "displayText") && AtMost(props, "displayText", 300)
  {
    ValidateThree(env, props, FieldRule(["label"], [MaxSize(20)]), FieldRule(["data"], [Required, MaxSize(300)]), FieldRule(["displayText"], [Required, MaxSize(300)]));
    RuleLine(env, props, "label", MaxSize(20));
    RequiredLine(env, props, "data", MaxSize(300));
    RequiredLine(env, props, "displayText", MaxSize(300));
  }

  lemma MessageTableMeans(env: Env, props: Json)
    ensures Accepted(env, props, MessageTable) <==>
      props.IsArray() && AtMost(props, "label", 20) && Given(props, "text") && AtMost(props, "text", 300)
  {
    ValidateTwo(env, props, FieldRule(["label"], [MaxSize(20)]), FieldRule(["text"], [Required, MaxSize(300)]));
    RuleLine(env, props, "label", MaxSize(20));
    RequiredLine(env, props, "text", MaxSize(300));
  }

  /** The value a URI field must hold: a string of at most 1000 characters with one of the four schemes. */
  predicate UriText(v: Json)
  {
    v.JString? && |v.s| <= 1000 && UriSchemeText(v.s)
  }

  lemma UriFieldMeans(env: Env, props: Json, key: string)
    ensures Holds(env, props, FieldRule([key], UriRules)) <==> Given(props, key) && UriText(props.fields[key])
  {
    RequiredThreeLine(env, props, key, IsString, MaxSize(1000), UriScheme);
  }

  /** The nested desktop URI, when it is there and not blank, is a URI text. */
  predicate DesktopUriOk(props: Json)
  {
    props.JObject? && "altUri" in props.fields ==>
      var alt := props.fields["altUri"];
      Skipped(alt, "desktop") || UriText(alt.fields["desktop"])
  }

  lemma UriTableMeans(env: Env, props: Json)
    ensures Accepted(env, props, UriTable) <==>
      props.IsArray() && AtMost(props, "label", 20) && Given(props, "uri") && UriText(props.fields["uri"])
      && DesktopUriOk(props)
  {
    ValidateThree(env, props, FieldRule(["label"], [MaxSize(20)]), FieldRule(["uri"], UriRules), FieldRule(["altUri", "desktop"], [IsString, MaxSize(1000), UriScheme]));
    RuleLine(env, props, "label", MaxSize(20));
    UriFieldMeans(env, props, "uri");
    ThreeRuleNestedLine(env, props, "altUri", "desktop", IsString, MaxSize(1000), UriScheme);
  }

  lemma DatetimePickerTableMeans(env: Env, props: Json)
    ensures Accepted(env, props, DatetimePickerTable) <==>
      props.IsArray() && AtMost(props, "label", 20) && Given(props, "data") && AtMost(props, "data", 300)
      && Given(props, "mode") && OneOf(props, "mode", DatetimeModes)
      && Conforms(env, props, "initial", Date) && Conforms(env, props, "max", Date) && Conforms(env, props, "min", Date)
  {
    ValidateSix(env, props, FieldRule(["label"], [MaxSize(20)]), FieldRule(["data"], [Required, MaxSize(300)]),
                FieldRule(["mode"], [Required, InSet(DatetimeModes)]), FieldRule(["initial"], [Date]),
                FieldRule(["max"], [Date]), FieldRule(["min"], [Date]));
    assert Holds(env, props, FieldRule(["label"], [MaxSize(20)])) <==> AtMost(props, "label", 20) by {
      RuleLine(env, props, "label", MaxSize(20));
    }
    assert Holds(env, props, FieldRule(["data"], [Required, MaxSize(300)])) <==>
           Given(props, "data") && AtMost(props, "data", 300) by {
      RequiredLine(env, props, "data", MaxSize(300));
    }
    assert Holds(env, props, FieldRule(["mode"], [Required, InSet(DatetimeModes)])) <==>
           Given(props, "mode") && OneOf(props, "mode", DatetimeModes) by {
      RequiredLine(env, props, "mode", InSet(DatetimeModes));
    }
    RuleLine(env, props, "initial", Date);
    RuleLine(env, props, "max", Date);
    RuleLine(env, props, "min", Date);
  }

  /** The `area` object is given and its four coordinates are given integers. */
  predicate AreaOk(props: Json)
  {
    Given(props, "area") && props.fields["area"].IsArray() &&
    var area := props.fields["area"];
    Given(area, "x") && IntegerValue(area.fields["x"]) &&
    Given(area, "y") && IntegerValue(area.fields["y"]) &&
    Given(area, "width") && IntegerValue(area.fields["width"]) &&
    Given(area, "height") && IntegerValue(area.fields["height"])
  }

  lemma AreaRulesMean(env: Env, props: Json)
    ensures Accepted(env, props, AreaRules) <==> props.IsArray() && AreaOk(props)
  {
    ValidateFive(env, props, FieldRule(["area"], [Required, IsArray]), FieldRule(["area", "x"], [Required, IsInteger]),
                 FieldRule(["area", "y"], [Required, IsInteger]), FieldRule(["area", "width"], [Required, IsInteger]),
                 FieldRule(["area", "height"], [Required, IsInteger]));
    RequiredLine(env, props, "area", IsArray);
    RequiredNestedLine(env, props, "area", "x", IsInteger);
    RequiredNestedLine(env, props, "area", "y", IsInteger);
    RequiredNestedLine(env, props, "area", "width", IsInteger);
    RequiredNestedLine(env, props, "area", "height", IsInteger);
  }

  lemma ImagemapTableMeans(env: Env, props: Json, first: FieldRule)
    ensures Accepted(env, props, [first] + AreaRules) <==>
      props.IsArray() && Holds(env, props, first) && AreaOk(props)
  {
    ValidateAppend(env, props, [first], AreaRules);
    ValidateOne(env, props, first);
    AreaRulesMean(env, props);
  }

  // ---- builders ----

  /** A postback action: label, data and display text. */
  function CreatePostbackAction(env: Env, props: Json): (r: Result<Action>)
    ensures r.Ok? <==>
      props.IsArray() && AtMost(props, "label", 20)
      && Given(props, "data") && AtMost(props, "data", 300)
      && Given(props, "displayText") && AtMost(props, "displayText", 300)
    ensures r.Ok? ==> r.value == PostbackAction(LabelOf(props), props.fields["data"], props.fields["displayText"])
    ensures r.Err? ==> r.error.Invalid? || r.error == NotAnArray
  {
    PostbackTableMeans(env, props);
    var _ :- Validate(env, props, PostbackTable).Checked();
    var data :- Index(props, "data");
    var displayText :- Index(props, "displayText");
    Ok(PostbackAction(LabelOf(props), data, displayText))
  }

  /** A message action: label and text. */
  function CreateMessageAction(env: Env, props: Json): (r: Result<Action>)
    ensures r.Ok? <==>
      props.IsArray() && AtMost(props, "label", 20) && Given(props, "text") && AtMost(props, "text", 300)
    ensures r.Ok? ==> r.value == MessageAction(LabelOf(props), props.fields["text"])
    ensures r.Err? ==> r.error.Invalid? || r.error == NotAnArray
  {
    MessageTableMeans(env, props);
    var _ :- Validate(env, props, MessageTable).Checked();
    var text :- Index(props, "text");
    Ok(MessageAction(LabelOf(props), text))
  }

  /**
   * A URI action. Without a label it is labelled with the URI's first 20
   * characters. The alternative desktop URI comes from the flat key
   * `altUri.desktop`, while the rule table checks the nested path
   * `altUri` -> `desktop`.
   */
  function CreateUriAction(env: Env, props: Json): (r: Result<Action>)
    ensures r.Ok? <==>
      props.IsArray() && AtMost(props, "label", 20) && Given(props, "uri") && UriText(props.fields["uri"])
      && DesktopUriOk(props)
    ensures r.Ok? ==> r.value.UriAction? && r.value.uri == props.fields["uri"]
    ensures r.Ok? ==>
              r.value.labelText == if IsSet(props, "label") then props.fields["label"]
                                   else JString(Prefix(props.fields["uri"].s, DefaultLabelLength))
    ensures r.Ok? ==>
              r.value.altUri == if IsSet(props, "altUri.desktop") then Some(AltUri(props.fields["altUri.desktop"]))
                                else None
    ensures r.Err? ==> r.error.Invalid? || r.error == NotAnArray
  {
    UriTableMeans(env, props);
    var _ :- Validate(env, props, UriTable).Checked();
    var uri :- Index(props, "uri");
    var defaultLabel :- Substr(uri, DefaultLabelLength);
    var altUri := if IsSet(props, "altUri.desktop") then Some(AltUri(props.fields["altUri.desktop"])) else None;
    Ok(UriAction(FieldOr(props, "label", defaultLabel), uri, altUri))
  }

  /** A date/time picker action; `initial`, `max` and `min` stay null unless given. */
  function CreateDatetimePickerAction(env: Env, props: Json): (r: Result<Action>)
    ensures r.Ok? <==>
      props.IsArray() && AtMost(props, "label", 20) && Given(props, "data") && AtMost(props, "data", 300)
      && Given(props, "mode") && OneOf(props, "mode", DatetimeModes)
      && Conforms(env, props, "initial", Date) && Conforms(env, props, "max", Date) && Conforms(env, props, "min", Date)
    ensures r.Ok? ==> r.value == DatetimePickerAction(LabelOf(props), props.fields["data"], props.fields["mode"],
                                                      Optional(props, "initial"), Optional(props, "max"), Optional(props, "min"))
    ensures r.Err? ==> r.error.Invalid? || r.error == NotAnArray
  {
    DatetimePickerTableMeans(env, props);
    var _ :- Validate(env, props, DatetimePickerTable).Checked();
    var data :- Index(props, "data");
    var mode :- Index(props, "mode");
    Ok(DatetimePickerAction(LabelOf(props), data, mode, Optional(props, "initial"), Optional(props, "max"), Optional(props, "min")))
  }

  /** A camera action: a label only. */
  function CreateCameraAction(env: Env, props: Json): (r: Result<Action>)
    ensures r.Ok? <==> props.IsArray() && AtMost(props, "label", 20)
    ensures r.Ok? ==> r.value == CameraAction(LabelOf(props))
    ensures r.Err? ==> r.error.Invalid? || r.error == NotAnArray
  {
    LabelTableMeans(env, props);
    var _ :- Validate(env, props, LabelTable).Checked();
    Ok(CameraAction(LabelOf(props)))
  }

  /** A camera-roll action: a label only. */
  function CreateCameraRollAction(env: Env, props: Json): (r: Result<Action>)
    ensures r.Ok? <==> props.IsArray() && AtMost(props, "label", 20)
    ensures r.Ok? ==> r.value == CameraRollAction(LabelOf(props))
    ensures r.Err? ==> r.error.Invalid? || r.error == NotAnArray
  {
    LabelTableMeans(env, props);
    var _ :- Validate(env, props, LabelTable).Checked();
    Ok(CameraRollAction(LabelOf(props)))
  }

  /** A location action: a label only. */
  function CreateLocationAction(env: Env, props: Json): (r: Result<Action>)
    ensures r.Ok? <==> props.IsArray() && AtMost(props, "label", 20)
    ensures r.Ok? ==> r.value == LocationAction(LabelOf(props))
    ensures r.Err? ==> r.error.Invalid? || r.error == NotAnArray
  {
    LabelTableMeans(env, props);
    var _ :- Validate(env, props, LabelTable).Checked();
    Ok(LocationAction(LabelOf(props)))
  }

  /** The `type` key holds one of the seven action kinds. */
  predicate ActionTypeOk(props: Json)
  {
    props.IsArray() && Given(props, "type") && OneOf(props, "type", ActionTypes)
  }

  lemma ActionTableMeans(env: Env, props: Json)
    ensures Accepted(env, props, ActionTable) <==> ActionTypeOk(props)
    ensures Accepted(env, props, ActionTable) ==>
      props.fields["type"].JString? && props.fields["type"].s in ActionTypes
    ensures forall w :: w in ActionTypes && HasString(props, "type", w) ==> ActionTypeOk(props)
  {
    forall w | w in ActionTypes && HasString(props, "type", w)
      ensures ActionTypeOk(props)
    {
      WordGiven(props, "type", w);
    }
    ValidateOne(env, props, FieldRule(["type"], [Required, InSet(ActionTypes)]));
    RequiredLine(env, props, "type", InSet(ActionTypes));
    if Accepted(env, props, ActionTable) {
      WordsAreWords(ActionTypes);
      RequiredWord(env, props, "type", ActionTypes);
    }
  }

  /**
   * Builds the action its `type` names. A missing or unknown type is
   * rejected before the dispatch; every accepted type has its own builder.
   */
  function CreateAction(env: Env, props: Json): (r: Result<Action>)
    ensures !ActionTypeOk(props) ==> r.Err?
    ensures HasString(props, "type", "postback") ==> r == CreatePostbackAction(env, props)
    ensures HasString(props, "type", "message") ==> r == CreateMessageAction(env, props)
    ensures HasString(props, "type", "uri") ==> r == CreateUriAction(env, props)
    ensures HasString(props, "type", "datetimepicker") ==> r == CreateDatetimePickerAction(env, props)
    ensures HasString(props, "type", "camera") ==> r == CreateCameraAction(env, props)
    ensures HasString(props, "type", "cameraRoll") ==> r == CreateCameraRollAction(env, props)
    ensures HasString(props, "type", "location") ==> r == CreateLocationAction(env, props)
    ensures r.Err? ==> r.error.Invalid? || r.error == NotAnArray
  {
    ActionTableMeans(env, props);
    var _ :- Validate(env, props, ActionTable).Checked();
    var kind :- Index(props, "type");
    if Matches(kind, "postback") then CreatePostbackAction(env, props)
    else if Matches(kind, "message") then CreateMessageAction(env, props)
    else if Matches(kind, "uri") then CreateUriAction(env, props)
    else if Matches(kind, "datetimepicker") then CreateDatetimePickerAction(env, props)
    else if Matches(kind, "camera") then CreateCameraAction(env, props)
    else if Matches(kind, "cameraRoll") then CreateCameraRollAction(env, props)
    else if Matches(kind, "location") then CreateLocationAction(env, props)
    else assert false; Err(TypeError)
  }

  /** `new AreaBuilder($a['x'], $a['y'], $a['width'], $a['height'])` */
  function AreaOf(a: Json): Result<Area>
  {
    var x :- Index(a, "x");
    var y :- Index(a, "y");
    var width :- Index(a, "width");
    var height :- Index(a, "height");
    Ok(Area(x, y, width, height))
  }

  /** The area a validated `area` object describes, coordinates in constructor order. */
  function AreaFields(props: Json): Area
    requires AreaOk(props)
  {
    var a := props.fields["area"];
    Area(a.fields["x"], a.fields["y"], a.fields["width"], a.fields["height"])
  }

  /** An imagemap action that opens a URI. */
  function CreateImagemapUriAction(env: Env, props: Json): (r: Result<ImagemapAction>)
    ensures r.Ok? <==> props.IsArray() && Given(props, "linkUri") && UriText(props.fields["linkUri"]) && AreaOk(props)
    ensures r.Ok? ==> r.value == ImagemapUriAction(props.fields["linkUri"], AreaFields(props))
    ensures r.Err? ==> r.error.Invalid? || r.error == NotAnArray
  {
    ImagemapTableMeans(env, props, FieldRule(["linkUri"], UriRules));
    UriFieldMeans(env, props, "linkUri");
    var _ :- Validate(env, props, ImagemapUriTable).Checked();
    var areaProps :- Index(props, "area");
    var linkUri :- Index(props, "linkUri");
    var area :- AreaOf(areaProps);
    Ok(ImagemapUriAction(linkUri, area))
  }

  /** An imagemap action that sends a text message. */
  function CreateImagemapMessageAction(env: Env, props: Json): (r: Result<ImagemapAction>)
    ensures r.Ok? <==> props.IsArray() && Given(props, "text") && AtMost(props, "text", 400) && AreaOk(props)
    ensures r.Ok? ==> r.value == ImagemapMessageAction(props.fields["text"], AreaFields(props))
    ensures r.Err? ==> r.error.Invalid? || r.error == NotAnArray
  {
    ImagemapTableMeans(env, props, FieldRule(["text"], [Required, MaxSize(400)]));
    RequiredLine(env, props, "text", MaxSize(400));
    var _ :- Validate(env, props, ImagemapMessageTable).Checked();
    var areaProps :- Index(props, "area");
    var text :- Index(props, "text");
    var area :- AreaOf(areaProps);
    Ok(ImagemapMessageAction(text, area))
  }
}
