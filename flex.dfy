/**
 * Flex bubbles and their components.
 *
 * A box holds child components, any of which may itself be a box, so the
 * component builders are mutually recursive. Each builder is given twice:
 * a function `XOf` that says what the build yields, and a method
 * `CreateX` that builds the component the way the creator does it, by
 * constructing it and then calling one setter per present attribute, or by
 * appending built children in a loop. Every method is proved to yield
 * exactly what its function says.
 */
module Flex {
  import opened Values
  import opened Validation
  import opened Actions

  /** A text fragment inside a text component. */
  datatype Span = Span(text: Json, size: Json, color: Json, weight: Json, style: Json, decoration: Json)

  /** The attributes every placeable component sets through its position and offset setters. */
  datatype Placement = Placement(position: Json, offsetTop: Json, offsetBottom: Json, offsetStart: Json, offsetEnd: Json)

  /** No position and no offsets set. */
  const Unplaced := Placement(JNull, JNull, JNull, JNull, JNull)

  /** The colour, border and size attributes of a box, set through their setters. */
  datatype Frame = Frame(backgroundColor: Json, borderColor: Json, borderWidth: Json, cornerRadius: Json,
                         width: Json, height: Json)

  /** The padding attributes of a box, set through their setters. */
  datatype Padding = Padding(paddingAll: Json, paddingTop: Json, paddingBottom: Json, paddingStart: Json,
                             paddingEnd: Json)

  /**
   * Each component kind carries the arguments of its constructor followed
   * by the attributes its setters change. An attribute nobody set is null.
   */
  datatype Box = Box(layout: Json, contents: seq<Component>, flex: Json, spacing: Json, margin: Json,
                     action: Option<Action>, frame: Frame, padding: Padding, placement: Placement)

  datatype Text = Text(text: Json, flex: Json, margin: Json, size: Json, align: Json, gravity: Json, wrap: Json,
                       maxLines: Json, weight: Json, color: Json, action: Option<Action>,
                       placement: Placement, style: Json, decoration: Json, spans: Option<seq<Span>>)

  datatype Button = Button(action: Action, flex: Json, margin: Json, height: Json, style: Json, color: Json,
                           gravity: Json, placement: Placement)

  datatype Image = Image(url: Json, flex: Json, margin: Json, align: Json, gravity: Json, size: Json,
                         aspectRatio: Json, aspectMode: Json, backgroundColor: Json, action: Option<Action>,
                         placement: Placement)

  datatype Icon = Icon(url: Json, margin: Json, size: Json, aspectRatio: Json, placement: Placement)

  datatype Component =
    | BoxComponent(box: Box)
    | TextComponent(textComponent: Text)
    | ButtonComponent(button: Button)
    | ImageComponent(image: Image)
    | IconComponent(icon: Icon)
    | SeparatorComponent(margin: Json, color: Json)
    | FillerComponent(flex: Json)
    | SpacerComponent(size: Json)

  datatype BlockStyle = BlockStyle(backgroundColor: Json, separator: Json, separatorColor: Json)

  datatype BubbleStyles = BubbleStyles(header: Option<BlockStyle>, hero: Option<BlockStyle>,
                                       body: Option<BlockStyle>, footer: Option<BlockStyle>)

  datatype Bubble = Bubble(direction: Json, header: Option<Component>, hero: Option<Component>,
                           body: Option<Component>, footer: Option<Component>,
                           styles: Option<BubbleStyles>, size: Json)

  const ComponentTypes: set<string> :=
    {"box", "text", "button", "image", "icon", "separator", "filler", "spacer"}
  const Layouts: set<string> := {"horizontal", "vertical", "baseline"}
  const Margins: set<string> := {"none", "xs", "sm", "md", "lg", "xl", "xxl"}
  const Positions: set<string> := {"relative", "absolute"}
  const TextSizes: set<string> := {"xxs", "xs", "sm", "md", "lg", "xl", "xxl", "3xl", "4xl", "5xl"}
  const ImageSizes: set<string> := TextSizes + {"full"}
  const SpacerSizes: set<string> := {"xs", "sm", "md", "lg", "xl", "xxl"}
  const Aligns: set<string> := {"start", "end", "center"}
  const Gravities: set<string> := {"top", "bottom", "center"}
  const Weights: set<string> := {"regular", "bold"}
  const TextStyles: set<string> := {"normal", "italic"}
  const Decorations: set<string> := {"none", "underline", "line-through"}
  const ButtonHeights: set<string> := {"sm", "md"}
  const ButtonStyles: set<string> := {"primary", "secondary", "link"}
  const AspectModes: set<string> := {"cover", "fit"}
  const BubbleSizes: set<string> := {"nano", "micro", "kilo", "mega", "giga"}
  const Directions: set<string> := {"ltr", "rtl"}

  function StringKey(key: string): FieldRule { FieldRule([key], [IsString]) }
  function IntegerKey(key: string): FieldRule { FieldRule([key], [IsInteger]) }
  function ArrayKey(key: string): FieldRule { FieldRule([key], [IsArray]) }
  function WordKey(key: string, values: set<string>): FieldRule { FieldRule([key], [InSet(values)]) }

  const SecureUrlRules: seq<Rule> := [Required, IsString, ActiveUrl, SecureUrl]

  const PlacementRules := [
    WordKey("position", Positions),
    StringKey("offsetTop"), StringKey("offsetBottom"), StringKey("offsetStart"), StringKey("offsetEnd")
  ]

  const ComponentTable := [FieldRule(["type"], [Required, InSet(ComponentTypes)])]

  const BoxHead := [
    FieldRule(["type"], [Required, InSet({"box"})]),
    FieldRule(["layout"], [Required, InSet(Layouts)]),
    FieldRule(["contents"], [Required, IsArray])
  ]

  const BoxTable := BoxHead + BoxRest

  const BoxRest := [
    StringKey("backgroundColor"), StringKey("borderColor"), StringKey("borderWidth"), StringKey("cornerRadius"),
    StringKey("width"), StringKey("height"),
    IntegerKey("flex"), WordKey("spacing", Margins), WordKey("margin", Margins),
    StringKey("paddingAll"), StringKey("paddingTop"), StringKey("paddingBottom"), StringKey("paddingStart"),
    StringKey("paddingEnd")
  ] + PlacementRules + [ArrayKey("action")]

  const TextTable := [
    StringKey("text"), ArrayKey("contents"), IntegerKey("flex"), WordKey("margin", Margins)
  ] + PlacementRules + [
    WordKey("size", TextSizes), WordKey("align", Aligns), WordKey("gravity", Gravities),
    FieldRule(["wrap"], [IsBoolean]), IntegerKey("maxLines"), WordKey("weight", Weights),
    StringKey("color"), ArrayKey("action"), WordKey("style", TextStyles), WordKey("decoration", Decorations)
  ]

  const ButtonTable := [
    FieldRule(["action"], [Required, IsArray]), IntegerKey("flex"), WordKey("margin", Margins)
  ] + PlacementRules + [
    WordKey("height", ButtonHeights), WordKey("style", ButtonStyles), StringKey("color"),
    WordKey("gravity", Gravities)
  ]

  const ImageTable := [
    FieldRule(["url"], SecureUrlRules), IntegerKey("flex"), WordKey("margin", Margins)
  ] + PlacementRules + [
    WordKey("align", Aligns), WordKey("gravity", Gravities), WordKey("size", ImageSizes),
    StringKey("aspectRatio"), WordKey("aspectMode", AspectModes), StringKey("backgroundColor"),
    ArrayKey("action")
  ]

  const IconTable := [
    FieldRule(["url"], SecureUrlRules), WordKey("margin", Margins)
  ] + PlacementRules + [
    WordKey("size", TextSizes), StringKey("aspectRatio")
  ]

  const SpanTable := [SpanType] + [
    StringKey("text"), StringKey("color"),
    WordKey("size", TextSizes), WordKey("weight", Weights), WordKey("style", TextStyles),
    WordKey("decoration", Decorations)
  ]

  const SpanType := FieldRule(["type"], [Required, InSet({"span"})])

  const SeparatorTable := [WordKey("margin", Margins), StringKey("color")]
  const FillerTable := [IntegerKey("flex")]
  const SpacerTable := [WordKey("size", SpacerSizes)]

  const BubbleTable := [
    WordKey("size", BubbleSizes), WordKey("direction", Directions),
    ArrayKey("header"), ArrayKey("hero"), ArrayKey("body"), ArrayKey("footer"), ArrayKey("styles")
  ]

  const BubbleStyleTable := [ArrayKey("header"), ArrayKey("hero"), ArrayKey("body"), ArrayKey("footer")]
  const BlockStyleTable := [StringKey("backgroundColor"), StringKey("separator"), StringKey("separatorColor")]

  /** The action under `action` builds, or the key is not set. */
  predicate ActionBuilds(env: Env, props: Json)
  {
    IsSet(props, "action") ==> CreateAction(env, props.fields["action"]).Ok?
  }

  /** `action` is the action built from the key when the key is set, and null otherwise. */
  predicate ActionFrom(env: Env, props: Json, action: Option<Action>)
  {
    (action.Some? <==> IsSet(props, "action"))
    && (action.Some? ==> CreateAction(env, props.fields["action"]) == Ok(action.value))
  }

  /** The optional action of a box, text or image: built only when the key is set. */
  function OptionalAction(env: Env, props: Json): (r: Result<Option<Action>>)
    ensures r.Ok? <==> ActionBuilds(env, props)
    ensures r.Ok? ==> ActionFrom(env, props, r.value)
  {
    if IsSet(props, "action") then Lift(CreateAction(env, props.fields["action"])) else Ok(None)
  }

  /** The position and offsets as the setters leave them: each one set exactly when its key is set. */
  function PlacementOf(props: Json): Placement
  {
    Placement(Optional(props, "position"), Optional(props, "offsetTop"), Optional(props, "offsetBottom"),
              Optional(props, "offsetStart"), Optional(props, "offsetEnd"))
  }

  /** The frame as the setters leave it: each attribute set exactly when its key is set. */
  function FrameOf(props: Json): Frame
  {
    Frame(Optional(props, "backgroundColor"), Optional(props, "borderColor"), Optional(props, "borderWidth"),
          Optional(props, "cornerRadius"), Optional(props, "width"), Optional(props, "height"))
  }

  /** The padding as the setters leave it: each attribute set exactly when its key is set. */
  function PaddingOf(props: Json): Padding
  {
    Padding(Optional(props, "paddingAll"), Optional(props, "paddingTop"), Optional(props, "paddingBottom"),
            Optional(props, "paddingStart"), Optional(props, "paddingEnd"))
  }

  // ---- what each build yields ----

  /** The `type` key holds one of the eight component kinds. */
  predicate ComponentTypeOk(props: Json)
  {
    props.IsArray() && Given(props, "type") && OneOf(props, "type", ComponentTypes)
  }

  /**
   * Builds the component its `type` names. A missing or unknown type is
   * rejected; every accepted type has its own builder.
   */
  function ComponentOf(env: Env, props: Json): (r: Result<Component>)
    ensures !ComponentTypeOk(props) ==> r.Err?
    decreases props, 2
  {
    ComponentTableMeans(env, props);
    var _ :- Validate(env, props, ComponentTable).Checked();
    var kind :- Index(props, "type");
    if Matches(kind, "box") then BoxOf(env, props)
    else if Matches(kind, "text") then TextOf(env, props)
    else if Matches(kind, "button") then ButtonOf(env, props)
    else if Matches(kind, "image") then ImageOf(env, props)
    else if Matches(kind, "icon") then IconOf(env, props)
    else if Matches(kind, "separator") then CreateSeparatorComponent(env, props)
    else if Matches(kind, "filler") then CreateFillerComponent(env, props)
    else if Matches(kind, "spacer") then CreateSpacerComponent(env, props)
    else assert false; Err(TypeError)
  }

  /** A box, a text, a button or an image is handed to its own builder. */
  lemma ComponentKinds(env: Env, props: Json)
    ensures HasString(props, "type", "box") ==> ComponentOf(env, props) == BoxOf(env, props)
    ensures HasString(props, "type", "text") ==> ComponentOf(env, props) == TextOf(env, props)
    ensures HasString(props, "type", "button") ==> ComponentOf(env, props) == ButtonOf(env, props)
    ensures HasString(props, "type", "image") ==> ComponentOf(env, props) == ImageOf(env, props)
  {
    ComponentTableMeans(env, props);
  }

  /** An icon, a separator, a filler or a spacer is handed to its own builder. */
  lemma LeafKinds(env: Env, props: Json)
    ensures HasString(props, "type", "icon") ==> ComponentOf(env, props) == IconOf(env, props)
    ensures HasString(props, "type", "separator") ==> ComponentOf(env, props) == CreateSeparatorComponent(env, props)
    ensures HasString(props, "type", "filler") ==> ComponentOf(env, props) == CreateFillerComponent(env, props)
    ensures HasString(props, "type", "spacer") ==> ComponentOf(env, props) == CreateSpacerComponent(env, props)
  {
    if props.JObject? && "type" in props.fields && props.fields["type"].JString?
       && props.fields["type"].s in {"icon", "separator", "filler", "spacer"} {
      var kind := props.fields["type"];
      TypedComponent(env, props, kind.s);
      assert !Matches(kind, "box") && !Matches(kind, "text") && !Matches(kind, "button") && !Matches(kind, "image");
    }
  }

  /** A component whose type is a known kind passes the type check. */
  lemma TypedComponent(env: Env, props: Json, kind: string)
    requires HasString(props, "type", kind) && kind in ComponentTypes
    ensures Validate(env, props, ComponentTable).Pass? && Index(props, "type") == Ok(JString(kind))
  {
    ComponentTableMeans(env, props);
  }

  /** Builds the children of a box, in order. */
  function ComponentsOf(env: Env, ghost parent: Json, items: seq<Json>): (r: Result<seq<Component>>)
    requires forall k :: 0 <= k < |items| ==> items[k] < parent
    ensures r.Ok? ==> |r.value| == |items|
    decreases parent, 0, |items|
  {
    if items == [] then Ok([])
    else
      var head :- ComponentOf(env, items[0]);
      var tail :- ComponentsOf(env, parent, items[1..]);
      Ok([head] + tail)
  }

  /** A box: its children and its attributes. */
  function BoxOf(env: Env, props: Json): (r: Result<Component>)
    ensures r.Ok? ==> r.value.BoxComponent? && Accepted(env, props, BoxTable)
    ensures r.Ok? ==> props.JObject? && "contents" in props.fields && props.fields["contents"].JList?
                      && |r.value.box.contents| == |props.fields["contents"].items| > 0
                      && ComponentsOf(env, props.fields["contents"], props.fields["contents"].items) == Ok(r.value.box.contents)
    decreases props, 1
  {
    var _ :- Validate(env, props, BoxTable).Checked();
    BoxRequired(env, props);
    var action :- OptionalAction(env, props);
    var contents :- Index(props, "contents");
    var items :- Elements(contents);
    ElementsBelow(contents);
    var children :- ComponentsOf(env, contents, items);
    var layout :- Index(props, "layout");
    Ok(BoxComponent(Box(layout, children, Optional(props, "flex"), Optional(props, "spacing"), Optional(props, "margin"),
                        action, FrameOf(props), PaddingOf(props), PlacementOf(props))))
  }

  /**
   * A box builds exactly when the rules pass, the action (if set) builds and
   * every child builds; a validated `contents` that is an object with keys
   * cannot be walked in order. Every attribute is the key's value when set.
   */
  lemma BoxBuilds(env: Env, props: Json)
    ensures BoxOf(env, props).Ok? <==>
              Accepted(env, props, BoxTable) && ActionBuilds(env, props)
              && props.JObject? && "contents" in props.fields && props.fields["contents"].JList?
              && ComponentsOf(env, props.fields["contents"], props.fields["contents"].items).Ok?
    ensures BoxOf(env, props).Ok? ==>
              var b := BoxOf(env, props).value.box;
              "layout" in props.fields && ActionFrom(env, props, b.action)
              && b.(contents := [], action := None)
                 == Box(props.fields["layout"], [], Optional(props, "flex"), Optional(props, "spacing"),
                        Optional(props, "margin"), None, FrameOf(props), PaddingOf(props), PlacementOf(props))
  {
    if Accepted(env, props, BoxTable) {
      BoxRequired(env, props);
    }
  }

  /** Builds each span of a text, in order. */
  function SpanBuilder(env: Env): Json -> Result<Span>
  {
    x => CreateSpanComponent(env, x)
  }

  /** The text component before its `contents` are looked at. */
  function PlainText(props: Json, action: Option<Action>): Text
  {
    Text(FieldOr(props, "text", JString("")), Optional(props, "flex"), Optional(props, "margin"),
         Optional(props, "size"), Optional(props, "align"), Optional(props, "gravity"),
         Optional(props, "wrap"), Optional(props, "maxLines"), Optional(props, "weight"),
         Optional(props, "color"), action, PlacementOf(props),
         Optional(props, "style"), Optional(props, "decoration"), None)
  }

  /** The spans under `contents` build: the first has a `text` key, and every entry builds in order. */
  ghost predicate SpansBuild(env: Env, contents: Json)
  {
    IndexFirst(contents).Ok? && Index(IndexFirst(contents).value, "text").Ok? && AllBuild(contents, SpanBuilder(env))
  }

  /**
   * A text. Its text defaults to ''. When `contents` is set, the text
   * becomes the first span's text and the spans are attached in order.
   */
  function TextOf(env: Env, props: Json): (r: Result<Component>)
    ensures r.Ok? <==> Accepted(env, props, TextTable) && ActionBuilds(env, props)
                       && (IsSet(props, "contents") ==> SpansBuild(env, props.fields["contents"]))
    ensures r.Ok? ==> r.value.TextComponent? && Accepted(env, props, TextTable)
    ensures r.Ok? ==> ActionFrom(env, props, r.value.textComponent.action)
                      && r.value.textComponent.(text := FieldOr(props, "text", JString("")), spans := None)
                         == PlainText(props, r.value.textComponent.action)
    ensures r.Ok? && !IsSet(props, "contents") ==>
              r.value.textComponent.text == FieldOr(props, "text", JString("")) && r.value.textComponent.spans == None
    ensures r.Ok? && IsSet(props, "contents") ==>
              props.fields["contents"].JList? &&
              var items := props.fields["contents"].items;
              |items| > 0 && items[0].JObject? && "text" in items[0].fields
              && r.value.textComponent.text == items[0].fields["text"]
              && r.value.textComponent.spans.Some?
              && BuiltPointwise(items, SpanBuilder(env), r.value.textComponent.spans.value)
  {
    var _ :- Validate(env, props, TextTable).Checked();
    var action :- OptionalAction(env, props);
    var text := PlainText(props, action);
    if IsSet(props, "contents") then
      var contents := props.fields["contents"];
      var first :- IndexFirst(contents);
      var firstText :- Index(first, "text");
      var items :- Elements(contents);
      TraverseOk(items, SpanBuilder(env));
      var spans :- Traverse(items, SpanBuilder(env));
      Ok(TextComponent(text.(text := firstText, spans := Some(spans))))
    else
      Ok(TextComponent(text))
  }

  /** A button: its action is required and built first. */
  function ButtonOf(env: Env, props: Json): (r: Result<Component>)
    ensures r.Ok? <==> Accepted(env, props, ButtonTable) && Given(props, "action")
                       && CreateAction(env, props.fields["action"]).Ok?
    ensures r.Ok? ==> r.value.ButtonComponent? && Accepted(env, props, ButtonTable)
    ensures r.Ok? ==> Given(props, "action") && Ok(r.value.button.action) == CreateAction(env, props.fields["action"])
    ensures r.Ok? ==> r.value.button == Button(r.value.button.action, Optional(props, "flex"), Optional(props, "margin"),
                                               Optional(props, "height"), Optional(props, "style"),
                                               Optional(props, "color"), Optional(props, "gravity"), PlacementOf(props))
  {
    var _ :- Validate(env, props, ButtonTable).Checked();
    ButtonActionGiven(env, props);
    var actionProps :- Index(props, "action");
    var action :- CreateAction(env, actionProps);
    Ok(ButtonComponent(Button(action, Optional(props, "flex"), Optional(props, "margin"), Optional(props, "height"),
                              Optional(props, "style"), Optional(props, "color"), Optional(props, "gravity"),
                              PlacementOf(props))))
  }

  /** An image: a secure, reachable URL and display attributes. */
  function ImageOf(env: Env, props: Json): (r: Result<Component>)
    ensures r.Ok? <==> Accepted(env, props, ImageTable) && ActionBuilds(env, props)
    ensures r.Ok? ==> r.value.ImageComponent? && Accepted(env, props, ImageTable)
    ensures r.Ok? ==> props.JObject? && "url" in props.fields && ActionFrom(env, props, r.value.image.action)
                      && r.value.image == Image(props.fields["url"], Optional(props, "flex"), Optional(props, "margin"),
                                                Optional(props, "align"), Optional(props, "gravity"),
                                                Optional(props, "size"), Optional(props, "aspectRatio"),
                                                Optional(props, "aspectMode"), Optional(props, "backgroundColor"),
                                                r.value.image.action, PlacementOf(props))
  {
    var _ :- Validate(env, props, ImageTable).Checked();
    UrlGiven(env, props, ImageTable);
    var action :- OptionalAction(env, props);
    var url :- Index(props, "url");
    Ok(ImageComponent(Image(url, Optional(props, "flex"), Optional(props, "margin"), Optional(props, "align"),
                            Optional(props, "gravity"), Optional(props, "size"), Optional(props, "aspectRatio"),
                            Optional(props, "aspectMode"), Optional(props, "backgroundColor"), action,
                            PlacementOf(props))))
  }

  /** An icon: a secure, reachable URL, margin, size and aspect ratio. */
  function IconOf(env: Env, props: Json): (r: Result<Component>)
    ensures r.Ok? <==> Accepted(env, props, IconTable)
    ensures r.Ok? ==> props.JObject? && "url" in props.fields
                      && r.value == IconComponent(Icon(props.fields["url"], Optional(props, "margin"), Optional(props, "size"),
                                                       Optional(props, "aspectRatio"), PlacementOf(props)))
  {
    var _ :- Validate(env, props, IconTable).Checked();
    UrlGiven(env, props, IconTable);
    var url :- Index(props, "url");
    Ok(IconComponent(Icon(url, Optional(props, "margin"), Optional(props, "size"), Optional(props, "aspectRatio"),
                          PlacementOf(props))))
  }

  /** A span of a text; its text defaults to ''. */
  function CreateSpanComponent(env: Env, props: Json): (r: Result<Span>)
    ensures r.Ok? <==> Accepted(env, props, SpanTable)
    ensures r.Ok? ==> HasString(props, "type", "span")
    ensures r.Ok? ==> r.value.text == FieldOr(props, "text", JString(""))
    ensures r.Ok? ==> r.value == Span(r.value.text, Optional(props, "size"), Optional(props, "color"),
                                      Optional(props, "weight"), Optional(props, "style"), Optional(props, "decoration"))
  {
    var _ :- Validate(env, props, SpanTable).Checked();
    SpanRequired(env, props);
    Ok(Span(FieldOr(props, "text", JString("")), Optional(props, "size"), Optional(props, "color"),
            Optional(props, "weight"), Optional(props, "style"), Optional(props, "decoration")))
  }

  /** A separator. */
  function CreateSeparatorComponent(env: Env, props: Json): (r: Result<Component>)
    ensures r.Ok? <==> props.IsArray() && OneOf(props, "margin", Margins) && Conforms(env, props, "color", IsString)
    ensures r.Ok? ==> r.value == SeparatorComponent(Optional(props, "margin"), Optional(props, "color"))
  {
    SeparatorTableMeans(env, props);
    var _ :- Validate(env, props, SeparatorTable).Checked();
    Ok(SeparatorComponent(Optional(props, "margin"), Optional(props, "color")))
  }

  /** A filler. */
  function CreateFillerComponent(env: Env, props: Json): (r: Result<Component>)
    ensures r.Ok? <==> props.IsArray() && Conforms(env, props, "flex", IsInteger)
    ensures r.Ok? ==> r.value == FillerComponent(Optional(props, "flex"))
  {
    SingleLineTableMeans(env, props, IntegerKey("flex"));
    var _ :- Validate(env, props, FillerTable).Checked();
    Ok(FillerComponent(Optional(props, "flex")))
  }

  /** A spacer; its size is one of xs..xxl. */
  function CreateSpacerComponent(env: Env, props: Json): (r: Result<Component>)
    ensures r.Ok? <==> props.IsArray() && OneOf(props, "size", SpacerSizes)
    ensures r.Ok? ==> r.value == SpacerComponent(Optional(props, "size"))
  {
    SingleLineTableMeans(env, props, WordKey("size", SpacerSizes));
    var _ :- Validate(env, props, SpacerTable).Checked();
    Ok(SpacerComponent(Optional(props, "size")))
  }

  /** Colours and separator of one block of a bubble. */
  function CreateBlockStyle(env: Env, props: Json): (r: Result<BlockStyle>)
    ensures r.Ok? <==> props.IsArray() && Conforms(env, props, "backgroundColor", IsString)
                       && Conforms(env, props, "separator", IsString) && Conforms(env, props, "separatorColor", IsString)
    ensures r.Ok? ==> r.value == BlockStyle(Optional(props, "backgroundColor"), Optional(props, "separator"),
                                            Optional(props, "separatorColor"))
  {
    BlockStyleTableMeans(env, props);
    var _ :- Validate(env, props, BlockStyleTable).Checked();
    Ok(BlockStyle(Optional(props, "backgroundColor"), Optional(props, "separator"), Optional(props, "separatorColor")))
  }

  /** The block style under `key` builds, or the key is not set. */
  predicate StyleBuilds(env: Env, props: Json, key: string)
  {
    IsSet(props, key) ==> CreateBlockStyle(env, props.fields[key]).Ok?
  }

  /** `style` is the block style built from `key` when the key is set, and null otherwise. */
  predicate StyleFrom(env: Env, props: Json, key: string, style: Option<BlockStyle>)
  {
    (style.Some? <==> IsSet(props, key)) && (style.Some? ==> CreateBlockStyle(env, props.fields[key]) == Ok(style.value))
  }

  /** The block style under `key`, built only when the key is set. */
  function OptionalBlockStyle(env: Env, props: Json, key: string): (r: Result<Option<BlockStyle>>)
    ensures r.Ok? <==> StyleBuilds(env, props, key)
    ensures r.Ok? ==> StyleFrom(env, props, key, r.value)
  {
    if IsSet(props, key) then Lift(CreateBlockStyle(env, props.fields[key])) else Ok(None)
  }

  /** The styles of the four blocks of a bubble; a block without a style is null. */
  function CreateBubbleStyle(env: Env, props: Json): (r: Result<BubbleStyles>)
    ensures r.Ok? <==> Accepted(env, props, BubbleStyleTable) && StyleBuilds(env, props, "header")
                       && StyleBuilds(env, props, "hero") && StyleBuilds(env, props, "body")
                       && StyleBuilds(env, props, "footer")
    ensures r.Ok? ==> StyleFrom(env, props, "header", r.value.header) && StyleFrom(env, props, "hero", r.value.hero)
                      && StyleFrom(env, props, "body", r.value.body) && StyleFrom(env, props, "footer", r.value.footer)
  {
    var _ :- Validate(env, props, BubbleStyleTable).Checked();
    var header :- OptionalBlockStyle(env, props, "header");
    var hero :- OptionalBlockStyle(env, props, "hero");
    var body :- OptionalBlockStyle(env, props, "body");
    var footer :- OptionalBlockStyle(env, props, "footer");
    Ok(BubbleStyles(header, hero, body, footer))
  }

  /** The hero block: a box for type 'box', an image for 'image', nothing for any other type. */
  function HeroOf(env: Env, hero: Json): (r: Result<Option<Component>>)
    ensures r.Ok? ==> hero.JObject? && "type" in hero.fields
    ensures HasString(hero, "type", "box") ==> r == Lift(BoxOf(env, hero))
    ensures HasString(hero, "type", "image") ==> r == Lift(ImageOf(env, hero))
    ensures (hero.JObject? && "type" in hero.fields && hero.fields["type"].JString?
             && hero.fields["type"].s != "box" && hero.fields["type"].s != "image") ==> r == Ok(None)
  {
    var kind :- Index(hero, "type");
    if Matches(kind, "box") then Lift(BoxOf(env, hero))
    else if Matches(kind, "image") then Lift(ImageOf(env, hero))
    else Ok(None)
  }

  /** The box under `key`, built only when the key is set. */
  function OptionalBox(env: Env, props: Json, key: string): (r: Result<Option<Component>>)
    ensures r.Ok? <==> (IsSet(props, key) ==> BoxOf(env, props.fields[key]).Ok?)
    ensures r.Ok? ==> (r.value.Some? <==> IsSet(props, key))
    ensures r.Ok? && r.value.Some? ==> BoxOf(env, props.fields[key]) == Ok(r.value.value)
  {
    if IsSet(props, key) then Lift(BoxOf(env, props.fields[key])) else Ok(None)
  }

  /** A bubble: header, body and footer are boxes; every block that is not given is null. */
  function CreateBubbleContainer(env: Env, props: Json): (r: Result<Bubble>)
    ensures r.Ok? ==> Accepted(env, props, BubbleTable)
    ensures r.Ok? ==> r.value.size == Optional(props, "size") && r.value.direction == Optional(props, "direction")
    ensures r.Ok? ==> (r.value.header.Some? <==> IsSet(props, "header")) && (r.value.body.Some? <==> IsSet(props, "body"))
                      && (r.value.footer.Some? <==> IsSet(props, "footer")) && (r.value.styles.Some? <==> IsSet(props, "styles"))
    ensures r.Ok? && r.value.header.Some? ==> BoxOf(env, props.fields["header"]) == Ok(r.value.header.value)
    ensures r.Ok? && r.value.body.Some? ==> BoxOf(env, props.fields["body"]) == Ok(r.value.body.value)
    ensures r.Ok? && r.value.footer.Some? ==> BoxOf(env, props.fields["footer"]) == Ok(r.value.footer.value)
    ensures r.Ok? ==> Ok(r.value.hero) == if IsSet(props, "hero") then HeroOf(env, props.fields["hero"]) else Ok(None)
    ensures r.Ok? && r.value.styles.Some? ==> CreateBubbleStyle(env, props.fields["styles"]) == Ok(r.value.styles.value)
  {
    var _ :- Validate(env, props, BubbleTable).Checked();
    var header :- OptionalBox(env, props, "header");
    var hero :- if IsSet(props, "hero") then HeroOf(env, props.fields["hero"]) else Ok(None);
    var body :- OptionalBox(env, props, "body");
    var footer :- OptionalBox(env, props, "footer");
    var styles :- if IsSet(props, "styles") then Lift(CreateBubbleStyle(env, props.fields["styles"])) else Ok(None);
    Ok(Bubble(Optional(props, "direction"), header, hero, body, footer, styles, Optional(props, "size")))
  }

  /** A bubble builds exactly when the rules pass and every block that is set builds. */
  lemma BubbleBuilds(env: Env, props: Json)
    ensures CreateBubbleContainer(env, props).Ok? <==>
              Accepted(env, props, BubbleTable)
              && (IsSet(props, "header") ==> BoxOf(env, props.fields["header"]).Ok?)
              && (IsSet(props, "hero") ==> HeroOf(env, props.fields["hero"]).Ok?)
              && (IsSet(props, "body") ==> BoxOf(env, props.fields["body"]).Ok?)
              && (IsSet(props, "footer") ==> BoxOf(env, props.fields["footer"]).Ok?)
              && (IsSet(props, "styles") ==> CreateBubbleStyle(env, props.fields["styles"]).Ok?)
  {
  }

  // ---- the rule tables, read in terms of the input ----

  /** A table of one line on a top-level key with one non-required rule. */
  lemma SingleLineTableMeans(env: Env, props: Json, line: FieldRule)
    requires line.FieldRule? && |line.path| == 1 && |line.rules| == 1 && line.rules[0] != Required
    ensures Accepted(env, props, [line]) <==> props.IsArray() && Conforms(env, props, line.path[0], line.rules[0])
  {
    ValidateOk(env, props, [line]);
    assert line == FieldRule([line.path[0]], [line.rules[0]]);
    RuleLine(env, props, line.path[0], line.rules[0]);
    assert [line][0] == line;
  }

  lemma SeparatorTableMeans(env: Env, props: Json)
    ensures Accepted(env, props, SeparatorTable) <==>
      props.IsArray() && OneOf(props, "margin", Margins) && Conforms(env, props, "color", IsString)
  {
    ValidateTwo(env, props, WordKey("margin", Margins), StringKey("color"));
    RuleLine(env, props, "margin", InSet(Margins));
    RuleLine(env, props, "color", IsString);
  }

  lemma BlockStyleTableMeans(env: Env, props: Json)
    ensures Accepted(env, props, BlockStyleTable) <==>
      props.IsArray() && Conforms(env, props, "backgroundColor", IsString)
      && Conforms(env, props, "separator", IsString) && Conforms(env, props, "separatorColor", IsString)
  {
    ValidateThree(env, props, StringKey("backgroundColor"), StringKey("separator"), StringKey("separatorColor"));
    RuleLine(env, props, "backgroundColor", IsString);
    RuleLine(env, props, "separator", IsString);
    RuleLine(env, props, "separatorColor", IsString);
  }

  lemma ComponentTableMeans(env: Env, props: Json)
    ensures Accepted(env, props, ComponentTable) <==> ComponentTypeOk(props)
    ensures Accepted(env, props, ComponentTable) ==>
      props.fields["type"].JString? && props.fields["type"].s in ComponentTypes
    ensures forall w :: w in ComponentTypes && HasString(props, "type", w) ==> ComponentTypeOk(props)
  {
    assert forall w :: w in ComponentTypes ==> |w| > 0 && !IsDigit(w[0]) && w[0] != '-' && !IsSpace(w[0]);
    ValidateOne(env, props, FieldRule(["type"], [Required, InSet(ComponentTypes)]));
    RequiredLine(env, props, "type", InSet(ComponentTypes));
    if Accepted(env, props, ComponentTable) {
      RequiredWord(env, props, "type", ComponentTypes);
    }
    forall w | w in ComponentTypes && HasString(props, "type", w)
      ensures ComponentTypeOk(props)
    {
      WordGiven(props, "type", w);
    }
  }

  /** A validated box names itself a box, has a known layout and a non-empty `contents` array. */
  lemma BoxRequired(env: Env, props: Json)
    requires Accepted(env, props, BoxTable)
    ensures HasString(props, "type", "box")
    ensures "layout" in props.fields && props.fields["layout"].JString? && props.fields["layout"].s in Layouts
    ensures Given(props, "contents") && props.fields["contents"].IsArray()
    ensures OneOf(props, "spacing", Margins) && OneOf(props, "margin", Margins)
  {
    ValidateAppend(env, props, BoxHead, BoxRest);
    assert Accepted(env, props, BoxHead);
    BoxHeadMeans(env, props);
    assert BoxRest[7] == WordKey("spacing", Margins) && BoxRest[8] == WordKey("margin", Margins);
    WordLine(env, props, BoxRest, 7, "spacing", Margins);
    WordLine(env, props, BoxRest, 8, "margin", Margins);
  }

  lemma BoxHeadMeans(env: Env, props: Json)
    requires Accepted(env, props, BoxHead)
    ensures HasString(props, "type", "box")
    ensures "layout" in props.fields && props.fields["layout"].JString? && props.fields["layout"].s in Layouts
    ensures Given(props, "contents") && props.fields["contents"].IsArray()
  {
    ValidateThree(env, props, FieldRule(["type"], [Required, InSet({"box"})]),
                  FieldRule(["layout"], [Required, InSet(Layouts)]), FieldRule(["contents"], [Required, IsArray]));
    assert HasString(props, "type", "box") by {
      RequiredWordLine(env, props, "type", {"box"});
    }
    assert props.fields["layout"].JString? && props.fields["layout"].s in Layouts by {
      RequiredWordLine(env, props, "layout", Layouts);
    }
    RequiredLine(env, props, "contents", IsArray);
  }

  /** A validated button has its action object. */
  lemma ButtonActionGiven(env: Env, props: Json)
    requires Accepted(env, props, ButtonTable)
    ensures Given(props, "action") && props.fields["action"].IsArray()
  {
    ValidateAppend(env, props, ButtonTable[..3], ButtonTable[3..]);
    assert ButtonTable[..3] + ButtonTable[3..] == ButtonTable;
    Validated(env, props, ButtonTable[..3], 0);
    assert ButtonTable[..3][0] == FieldRule(["action"], [Required, IsArray]);
    RequiredLine(env, props, "action", IsArray);
  }

  /** A validated span names itself a span. */
  lemma SpanRequired(env: Env, props: Json)
    requires Accepted(env, props, SpanTable)
    ensures HasString(props, "type", "span")
  {
    ValidateAppend(env, props, [SpanType], SpanTable[1..]);
    ValidateOne(env, props, SpanType);
    RequiredWordLine(env, props, "type", {"span"});
  }

  // ---- children, one by one ----

  /** Builds one child component. */
  function ComponentBuilder(env: Env): Json -> Result<Component>
  {
    x => ComponentOf(env, x)
  }

  /** Building the children recursively is the loop over them. */
  lemma {:induction false} ComponentsTraverse(env: Env, parent: Json, items: seq<Json>)
    requires forall k :: 0 <= k < |items| ==> items[k] < parent
    ensures ComponentsOf(env, parent, items) == Traverse(items, ComponentBuilder(env))
  {
    if items != [] {
      ComponentsTraverse(env, parent, items[1..]);
    }
  }

  /**
   * A built box holds one child per element of its `contents`, in order,
   * each the component that element describes.
   */
  lemma BoxChildren(env: Env, props: Json)
    requires BoxOf(env, props).Ok?
    ensures props.JObject? && "contents" in props.fields && props.fields["contents"].JList?
    ensures BuiltPointwise(props.fields["contents"].items, ComponentBuilder(env), BoxOf(env, props).value.box.contents)
  {
    var contents := props.fields["contents"];
    ComponentsTraverse(env, contents, contents.items);
    TraverseOk(contents.items, ComponentBuilder(env));
  }

  /** A built text with `contents` holds one span per element, in order. */
  lemma TextSpans(env: Env, props: Json)
    requires TextOf(env, props).Ok? && IsSet(props, "contents")
    ensures props.fields["contents"].JList?
    ensures BuiltPointwise(props.fields["contents"].items, SpanBuilder(env),
                           TextOf(env, props).value.textComponent.spans.value)
  {
    TraverseOk(props.fields["contents"].items, SpanBuilder(env));
  }

  // ---- the creator's own steps ----

  /** The position and offset setters, each called when its key is set. */
  method Place(p: Placement, props: Json) returns (q: Placement)
    ensures q == Placement(FieldOr(props, "position", p.position), FieldOr(props, "offsetTop", p.offsetTop),
                           FieldOr(props, "offsetBottom", p.offsetBottom), FieldOr(props, "offsetStart", p.offsetStart),
                           FieldOr(props, "offsetEnd", p.offsetEnd))
  {
    q := p;
    if IsSet(props, "position") {
      q := q.(position := props.fields["position"]);
    }
    if IsSet(props, "offsetTop") {
      q := q.(offsetTop := props.fields["offsetTop"]);
    }
    if IsSet(props, "offsetBottom") {
      q := q.(offsetBottom := props.fields["offsetBottom"]);
    }
    if IsSet(props, "offsetStart") {
      q := q.(offsetStart := props.fields["offsetStart"]);
    }
    if IsSet(props, "offsetEnd") {
      q := q.(offsetEnd := props.fields["offsetEnd"]);
    }
  }

  /** Validates the type and hands the properties to the builder of that kind. */
  method CreateComponent(env: Env, props: Json) returns (r: Result<Component>)
    ensures r == ComponentOf(env, props)
    decreases props, 2
  {
    ComponentTableMeans(env, props);
    :- Validate(env, props, ComponentTable);
    var kind :- Index(props, "type");
    if Matches(kind, "box") {
      r := CreateBoxComponent(env, props);
    } else if Matches(kind, "text") {
      r := CreateTextComponent(env, props);
    } else if Matches(kind, "button") {
      r := CreateButtonComponent(env, props);
    } else if Matches(kind, "image") {
      r := CreateImageComponent(env, props);
    } else if Matches(kind, "icon") {
      r := CreateIconComponent(env, props);
    } else if Matches(kind, "separator") {
      r := CreateSeparatorComponent(env, props);
    } else if Matches(kind, "filler") {
      r := CreateFillerComponent(env, props);
    } else if Matches(kind, "spacer") {
      r := CreateSpacerComponent(env, props);
    } else {
      assert false;
    }
  }

  /** The colour, border and size setters of a box, each called when its key is set. */
  method SetFrame(f: Frame, props: Json) returns (q: Frame)
    ensures q == Frame(FieldOr(props, "backgroundColor", f.backgroundColor),
                       FieldOr(props, "borderColor", f.borderColor),
                       FieldOr(props, "borderWidth", f.borderWidth),
                       FieldOr(props, "cornerRadius", f.cornerRadius),
                       FieldOr(props, "width", f.width),
                       FieldOr(props, "height", f.height))
  {
    q := f;
    if IsSet(props, "backgroundColor") {
      q := q.(backgroundColor := props.fields["backgroundColor"]);
    }
    if IsSet(props, "borderColor") {
      q := q.(borderColor := props.fields["borderColor"]);
    }
    if IsSet(props, "borderWidth") {
      q := q.(borderWidth := props.fields["borderWidth"]);
    }
    if IsSet(props, "cornerRadius") {
      q := q.(cornerRadius := props.fields["cornerRadius"]);
    }
    if IsSet(props, "width") {
      q := q.(width := props.fields["width"]);
    }
    if IsSet(props, "height") {
      q := q.(height := props.fields["height"]);
    }
  }

  /** The padding setters of a box, each called when its key is set. */
  method SetPadding(p: Padding, props: Json) returns (q: Padding)
    ensures q == Padding(FieldOr(props, "paddingAll", p.paddingAll),
                         FieldOr(props, "paddingTop", p.paddingTop),
                         FieldOr(props, "paddingBottom", p.paddingBottom),
                         FieldOr(props, "paddingStart", p.paddingStart),
                         FieldOr(props, "paddingEnd", p.paddingEnd))
  {
    q := p;
    if IsSet(props, "paddingAll") {
      q := q.(paddingAll := props.fields["paddingAll"]);
    }
    if IsSet(props, "paddingTop") {
      q := q.(paddingTop := props.fields["paddingTop"]);
    }
    if IsSet(props, "paddingBottom") {
      q := q.(paddingBottom := props.fields["paddingBottom"]);
    }
    if IsSet(props, "paddingStart") {
      q := q.(paddingStart := props.fields["paddingStart"]);
    }
    if IsSet(props, "paddingEnd") {
      q := q.(paddingEnd := props.fields["paddingEnd"]);
    }
  }

  /** Builds the children in a loop, then constructs the box and calls its setters. */
  method CreateBoxComponent(env: Env, props: Json) returns (r: Result<Component>)
    ensures r == BoxOf(env, props)
    decreases props, 1
  {
    var _ :- Validate(env, props, BoxTable).Checked();
    var flex, spacing, margin := Optional(props, "flex"), Optional(props, "spacing"), Optional(props, "margin");
    var action :- OptionalAction(env, props);
    var contents :- Index(props, "contents");
    var items :- Elements(contents);
    ElementsBelow(contents);
    ComponentsTraverse(env, contents, items);
    var children: seq<Component> := [];
    var i := 0;
    while i < |items|
      invariant i <= |items|
      invariant Traverse(items[..i], ComponentBuilder(env)) == Ok(children)
    {
      var child := CreateComponent(env, items[i]);
      TraverseStep(items, i, children, ComponentBuilder(env));
      if child.Err? {
        return Err(child.error);
      }
      children := children + [child.value];
      i := i + 1;
    }
    assert items[..i] == items;
    var layout :- Index(props, "layout");
    var box := Box(layout, children, flex, spacing, margin, action,
                   Frame(JNull, JNull, JNull, JNull, JNull, JNull), Padding(JNull, JNull, JNull, JNull, JNull),
                   Unplaced);
    var framed := SetFrame(box.frame, props);
    var padded := SetPadding(box.padding, props);
    var placed := Place(box.placement, props);
    box := box.(frame := framed, padding := padded, placement := placed);
    r := Ok(BoxComponent(box));
  }

  /** Constructs the text, calls its setters, then replaces text and spans from `contents`. */
  method CreateTextComponent(env: Env, props: Json) returns (r: Result<Component>)
    ensures r == TextOf(env, props)
  {
    var _ :- Validate(env, props, TextTable).Checked();
    var action :- OptionalAction(env, props);
    var text := Text(FieldOr(props, "text", JString("")), Optional(props, "flex"), Optional(props, "margin"),
                     Optional(props, "size"), Optional(props, "align"), Optional(props, "gravity"),
                     Optional(props, "wrap"), Optional(props, "maxLines"), Optional(props, "weight"),
                     Optional(props, "color"), action, Unplaced, JNull, JNull, None);
    var placed := Place(text.placement, props);
    text := text.(placement := placed);
    if IsSet(props, "style") {
      text := text.(style := props.fields["style"]);
    }
    if IsSet(props, "decoration") {
      text := text.(decoration := props.fields["decoration"]);
    }
    if IsSet(props, "contents") {
      var contents := props.fields["contents"];
      var first :- IndexFirst(contents);
      var firstText :- Index(first, "text");
      text := text.(text := firstText);
      var items :- Elements(contents);
      var spans: seq<Span> := [];
      var i := 0;
      while i < |items|
        invariant i <= |items|
        invariant Traverse(items[..i], SpanBuilder(env)) == Ok(spans)
      {
        var span := CreateSpanComponent(env, items[i]);
        TraverseStep(items, i, spans, SpanBuilder(env));
        if span.Err? {
          return Err(span.error);
        }
        spans := spans + [span.value];
        i := i + 1;
      }
      assert items[..i] == items;
      text := text.(spans := Some(spans));
    }
    r := Ok(TextComponent(text));
  }

  /** Builds the action, constructs the button and calls its position setters. */
  method CreateButtonComponent(env: Env, props: Json) returns (r: Result<Component>)
    ensures r == ButtonOf(env, props)
  {
    var _ :- Validate(env, props, ButtonTable).Checked();
    var actionProps :- Index(props, "action");
    var action :- CreateAction(env, actionProps);
    var button := Button(action, Optional(props, "flex"), Optional(props, "margin"), Optional(props, "height"),
                         Optional(props, "style"), Optional(props, "color"), Optional(props, "gravity"), Unplaced);
    var placed := Place(button.placement, props);
    button := button.(placement := placed);
    r := Ok(ButtonComponent(button));
  }

  /** Constructs the image and calls its position setters. */
  method CreateImageComponent(env: Env, props: Json) returns (r: Result<Component>)
    ensures r == ImageOf(env, props)
  {
    var _ :- Validate(env, props, ImageTable).Checked();
    var action :- OptionalAction(env, props);
    var url :- Index(props, "url");
    var image := Image(url, Optional(props, "flex"), Optional(props, "margin"), Optional(props, "align"),
                       Optional(props, "gravity"), Optional(props, "size"), Optional(props, "aspectRatio"),
                       Optional(props, "aspectMode"), Optional(props, "backgroundColor"), action, Unplaced);
    var placed := Place(image.placement, props);
    image := image.(placement := placed);
    r := Ok(ImageComponent(image));
  }

  /** Constructs the icon and calls its position setters. */
  method CreateIconComponent(env: Env, props: Json) returns (r: Result<Component>)
    ensures r == IconOf(env, props)
  {
    var _ :- Validate(env, props, IconTable).Checked();
    var url :- Index(props, "url");
    var icon := Icon(url, Optional(props, "margin"), Optional(props, "size"), Optional(props, "aspectRatio"), Unplaced);
    var placed := Place(icon.placement, props);
    icon := icon.(placement := placed);
    r := Ok(IconComponent(icon));
  }

  // ---- what a validated component guarantees ----

  /** A validated line `key => in:values` leaves the key skipped or holding one of the words. */
  lemma WordLine(env: Env, props: Json, table: seq<FieldRule>, k: nat, key: string, values: set<string>)
    requires Accepted(env, props, table) && k < |table| && table[k] == WordKey(key, values)
    ensures OneOf(props, key, values)
  {
    Validated(env, props, table, k);
    RuleLine(env, props, key, InSet(values));
  }

  /** An accepted image has a secure, reachable URL, a size among xxs..5xl or full, and a known aspect mode. */
  lemma ImageAccepted(env: Env, props: Json)
    requires Accepted(env, props, ImageTable)
    ensures Given(props, "url") && SecureImageUrl(env, props.fields["url"])
    ensures OneOf(props, "size", ImageSizes) && OneOf(props, "aspectMode", AspectModes)
    ensures OneOf(props, "align", Aligns) && OneOf(props, "gravity", Gravities)
  {
    var t := ImageTable;
    Validated(env, props, t, 0);
    SecureUrlLine(env, props, "url");
    WordLine(env, props, t, 8, "align", Aligns);
    WordLine(env, props, t, 9, "gravity", Gravities);
    WordLine(env, props, t, 10, "size", ImageSizes);
    WordLine(env, props, t, 12, "aspectMode", AspectModes);
  }

  /** A table whose first line is `url => required|string|active_url|regex:https...` gives a secure URL. */
  lemma UrlGiven(env: Env, props: Json, table: seq<FieldRule>)
    requires Accepted(env, props, table) && |table| > 0 && table[0] == FieldRule(["url"], SecureUrlRules)
    ensures Given(props, "url") && SecureImageUrl(env, props.fields["url"])
  {
    Validated(env, props, table, 0);
    SecureUrlLine(env, props, "url");
  }

  /** An accepted icon has a secure, reachable URL and a size among xxs..5xl ('full' is refused). */
  lemma IconAccepted(env: Env, props: Json)
    requires Accepted(env, props, IconTable)
    ensures Given(props, "url") && SecureImageUrl(env, props.fields["url"])
    ensures OneOf(props, "size", TextSizes) && OneOf(props, "margin", Margins)
  {
    var t := IconTable;
    Validated(env, props, t, 0);
    SecureUrlLine(env, props, "url");
    WordLine(env, props, t, 1, "margin", Margins);
    WordLine(env, props, t, 7, "size", TextSizes);
  }

  /** An accepted button has a known height, style and gravity. */
  lemma ButtonAccepted(env: Env, props: Json)
    requires Accepted(env, props, ButtonTable)
    ensures OneOf(props, "height", ButtonHeights) && OneOf(props, "style", ButtonStyles)
    ensures OneOf(props, "gravity", Gravities) && OneOf(props, "position", Positions)
  {
    var t := ButtonTable;
    WordLine(env, props, t, 3, "position", Positions);
    WordLine(env, props, t, 8, "height", ButtonHeights);
    WordLine(env, props, t, 9, "style", ButtonStyles);
    WordLine(env, props, t, 11, "gravity", Gravities);
  }

  /** An accepted text has a known size, weight, style and decoration. */
  lemma TextAccepted(env: Env, props: Json)
    requires Accepted(env, props, TextTable)
    ensures OneOf(props, "size", TextSizes) && OneOf(props, "weight", Weights)
    ensures OneOf(props, "style", TextStyles) && OneOf(props, "decoration", Decorations)
  {
    var t := TextTable;
    WordLine(env, props, t, 9, "size", TextSizes);
    WordLine(env, props, t, 14, "weight", Weights);
    WordLine(env, props, t, 17, "style", TextStyles);
    WordLine(env, props, t, 18, "decoration", Decorations);
  }

  /** An accepted bubble has a known size and direction. */
  lemma BubbleAccepted(env: Env, props: Json)
    requires Accepted(env, props, BubbleTable)
    ensures OneOf(props, "size", BubbleSizes) && OneOf(props, "direction", Directions)
  {
    WordLine(env, props, BubbleTable, 0, "size", BubbleSizes);
    WordLine(env, props, BubbleTable, 1, "direction", Directions);
  }
}
