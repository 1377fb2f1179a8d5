/**
 * Template bodies: confirm, buttons, carousel and image carousel.
 *
 * Each builder validates its properties, reads the optional ones over
 * literal defaults and builds its actions or columns one per input entry,
 * in input order. The functions say what a build yields; the methods build
 * it with the creator's loops and are proved to yield the same.
 */
module Templates {
  import opened Values
  import opened Validation
  import opened Actions

  /** A column of a carousel template. */
  datatype CarouselColumn = CarouselColumn(title: Json, text: Json, thumbnailImageUrl: Json, actions: seq<Action>,
                                           imageBackgroundColor: Json)

  /** A column of an image carousel template. */
  datatype ImageCarouselColumn = ImageCarouselColumn(imageUrl: Json, action: Action)

  datatype Template =
    | ConfirmTemplate(text: Json, actions: seq<Action>)
    | ButtonTemplate(title: Json, text: Json, thumbnailImageUrl: Json, actions: seq<Action>,
                     imageAspectRatio: Json, imageSize: Json, imageBackgroundColor: Json,
                     defaultAction: Option<Action>)
    | CarouselTemplate(columns: seq<CarouselColumn>, imageAspectRatio: Json, imageSize: Json)
    | ImageCarouselTemplate(imageColumns: seq<ImageCarouselColumn>)

  const AspectRatios: set<string> := {"rectangle", "square"}
  const ImageSizes: set<string> := {"cover", "contain"}

  /** The defaults the button and carousel templates start from. */
  const DefaultAspectRatio := JString("rectangle")
  const DefaultImageSize := JString("cover")
  const DefaultBackground := JString("#FFFFFF")

  const ConfirmTable := [
    FieldRule(["text"], [Required, MaxSize(240)]),
    FieldRule(["actions"], [Required, IsArray, MinSize(2), MaxSize(2)])
  ]

  const ButtonTable := [
    FieldRule(["thumbnailImageUrl"], [IsString, Unparsed, ActiveUrl, SecureUrl]),
    FieldRule(["imageAspectRatio"], [InSet(AspectRatios)]),
    FieldRule(["imageSize"], [InSet(ImageSizes)]),
    FieldRule(["imageBackgroundColor"], [IsString]),
    FieldRule(["title"], [IsString, MaxSize(40)]),
    FieldRule(["text"], [Required, MaxSize(160)]),
    FieldRule(["defaultAction"], [IsArray]),
    FieldRule(["actions"], [Required, IsArray, MaxSize(4)])
  ]

  const CarouselTable := [
    FieldRule(["text"], [Required, MaxSize(240)]),
    FieldRule(["columns"], [Required, IsArray, MaxSize(10)]),
    FieldRule(["imageAspectRatio"], [InSet(AspectRatios)]),
    FieldRule(["imageSize"], [InSet(ImageSizes)])
  ]

  const ImageCarouselTable := [FieldRule(["columns"], [Required, IsArray, MaxSize(10)])]

  const ColumnTable := [
    FieldRule(["thumbnailImageUrl"], [IsString, ActiveUrl, SecureUrl]),
    FieldRule(["imageBackgroundColor"], [IsString]),
    FieldRule(["title"], [IsString, MaxSize(40)]),
    FieldRule(["text"], [Required, MaxSize(120)]),
    FieldRule(["actions"], [Required, IsArray, MaxSize(3)])
  ]

  const ImageColumnTable := [
    FieldRule(["thumbnailImageUrl"], [Required, IsString, ActiveUrl, SecureUrl]),
    FieldRule(["action"], [Required, IsArray])
  ]

  /** Builds one action. */
  function ActionBuilder(env: Env): Json -> Result<Action>
  {
    x => CreateAction(env, x)
  }

  /** The actions of a `foreach` over the list, one per entry, in order. */
  function ActionsOf(env: Env, list: Json): (r: Result<seq<Action>>)
    ensures r.Ok? <==> AllBuild(list, ActionBuilder(env))
    ensures r.Ok? ==> BuiltPointwise(Elements(list).value, ActionBuilder(env), r.value)
  {
    var items :- Elements(list);
    TraverseOk(items, ActionBuilder(env));
    Traverse(items, ActionBuilder(env))
  }

  /** The list under `key` exists and every entry of it builds. */
  ghost predicate KeyBuilds<T>(props: Json, key: string, build: Json -> Result<T>)
  {
    props.JObject? && key in props.fields && AllBuild(props.fields[key], build)
  }

  /** A confirm template: a text of at most 240 characters and exactly two actions. */
  function ConfirmOf(env: Env, props: Json): (r: Result<Template>)
    ensures r.Ok? <==> Accepted(env, props, ConfirmTable) && KeyBuilds(props, "actions", ActionBuilder(env))
    ensures r.Ok? ==> Given(props, "text") && AtMost(props, "text", 240)
    ensures r.Ok? ==> r.value.ConfirmTemplate? && r.value.text == props.fields["text"]
    ensures r.Ok? ==> props.fields["actions"].JList? && |r.value.actions| == 2
                      && BuiltPointwise(props.fields["actions"].items, ActionBuilder(env), r.value.actions)
  {
    ConfirmTableMeans(env, props);
    var _ :- Validate(env, props, ConfirmTable).Checked();
    var list :- Index(props, "actions");
    var actions :- ActionsOf(env, list);
    var text :- Index(props, "text");
    Ok(ConfirmTemplate(text, actions))
  }

  /**
   * A buttons template. Aspect ratio, image size and background start at
   * 'rectangle', 'cover' and '#FFFFFF'; title, thumbnail and default action
   * at null; each is replaced only when its key is set.
   */
  function ButtonTemplateOf(env: Env, props: Json): (r: Result<Template>)
    ensures r.Ok? <==> Accepted(env, props, ButtonTable)
                       && (IsSet(props, "defaultAction") ==> CreateAction(env, props.fields["defaultAction"]).Ok?)
                       && KeyBuilds(props, "actions", ActionBuilder(env))
    ensures r.Ok? ==> r.value.ButtonTemplate? && Given(props, "text")
                      && r.value.text == props.fields["text"]
                      && r.value.title == Optional(props, "title")
                      && r.value.thumbnailImageUrl == Optional(props, "thumbnailImageUrl")
                      && r.value.imageAspectRatio == FieldOr(props, "imageAspectRatio", DefaultAspectRatio)
                      && r.value.imageSize == FieldOr(props, "imageSize", DefaultImageSize)
                      && r.value.imageBackgroundColor == FieldOr(props, "imageBackgroundColor", DefaultBackground)
                      && (r.value.defaultAction.Some? <==> IsSet(props, "defaultAction"))
    ensures r.Ok? && r.value.defaultAction.Some? ==>
              CreateAction(env, props.fields["defaultAction"]) == Ok(r.value.defaultAction.value)
    ensures r.Ok? ==> props.fields["actions"].JList? && |r.value.actions| <= 4
                      && BuiltPointwise(props.fields["actions"].items, ActionBuilder(env), r.value.actions)
  {
    var _ :- Validate(env, props, ButtonTable).Checked();
    ButtonActionsLimit(env, props);
    var defaultAction :- if IsSet(props, "defaultAction") then Lift(CreateAction(env, props.fields["defaultAction"]))
                         else Ok(None);
    var list :- Index(props, "actions");
    var actions :- ActionsOf(env, list);
    var text :- Index(props, "text");
    Ok(ButtonTemplate(Optional(props, "title"), text, Optional(props, "thumbnailImageUrl"), actions,
                      FieldOr(props, "imageAspectRatio", DefaultAspectRatio), FieldOr(props, "imageSize", DefaultImageSize),
                      FieldOr(props, "imageBackgroundColor", DefaultBackground), defaultAction))
  }

  /** A carousel column: text, up to three actions, background defaulting to '#FFFFFF'. */
  function CarouselColumnOf(env: Env, props: Json): (r: Result<CarouselColumn>)
    ensures r.Ok? <==> Accepted(env, props, ColumnTable) && KeyBuilds(props, "actions", ActionBuilder(env))
    ensures r.Ok? ==> Given(props, "text") && r.value.text == props.fields["text"]
                      && r.value.title == Optional(props, "title")
                      && r.value.thumbnailImageUrl == Optional(props, "thumbnailImageUrl")
                      && r.value.imageBackgroundColor == FieldOr(props, "imageBackgroundColor", DefaultBackground)
    ensures r.Ok? ==> props.fields["actions"].JList? && |r.value.actions| <= 3
                      && BuiltPointwise(props.fields["actions"].items, ActionBuilder(env), r.value.actions)
  {
    var _ :- Validate(env, props, ColumnTable).Checked();
    ColumnActionsLimit(env, props);
    var list :- Index(props, "actions");
    var actions :- ActionsOf(env, list);
    var text :- Index(props, "text");
    Ok(CarouselColumn(Optional(props, "title"), text, Optional(props, "thumbnailImageUrl"), actions,
                      FieldOr(props, "imageBackgroundColor", DefaultBackground)))
  }

  /** Builds one carousel column. */
  function ColumnBuilder(env: Env): Json -> Result<CarouselColumn>
  {
    x => CarouselColumnOf(env, x)
  }

  /** A carousel: up to ten columns built in order; ratio and size default to 'rectangle' and 'cover'. */
  function CarouselOf(env: Env, props: Json): (r: Result<Template>)
    ensures r.Ok? <==> Accepted(env, props, CarouselTable) && KeyBuilds(props, "columns", ColumnBuilder(env))
    ensures r.Ok? ==> r.value.CarouselTemplate?
                      && r.value.imageAspectRatio == FieldOr(props, "imageAspectRatio", DefaultAspectRatio)
                      && r.value.imageSize == FieldOr(props, "imageSize", DefaultImageSize)
    ensures r.Ok? ==> props.fields["columns"].JList? && |r.value.columns| <= 10
                      && BuiltPointwise(props.fields["columns"].items, ColumnBuilder(env), r.value.columns)
  {
    var _ :- Validate(env, props, CarouselTable).Checked();
    ColumnsLimit(env, props, CarouselTable, 1);
    var list :- Index(props, "columns");
    var items :- Elements(list);
    TraverseOk(items, ColumnBuilder(env));
    var columns :- Traverse(items, ColumnBuilder(env));
    Ok(CarouselTemplate(columns, FieldOr(props, "imageAspectRatio", DefaultAspectRatio),
                        FieldOr(props, "imageSize", DefaultImageSize)))
  }

  /** An image carousel column: a required secure thumbnail and one action. */
  function CreateImageCarouselColumnTemplate(env: Env, props: Json): (r: Result<ImageCarouselColumn>)
    ensures r.Ok? <==> Accepted(env, props, ImageColumnTable) && Given(props, "action")
                       && CreateAction(env, props.fields["action"]).Ok?
    ensures r.Ok? ==> Given(props, "thumbnailImageUrl") && SecureImageUrl(env, props.fields["thumbnailImageUrl"])
    ensures r.Ok? ==> r.value == ImageCarouselColumn(props.fields["thumbnailImageUrl"],
                                                     CreateAction(env, props.fields["action"]).value)
  {
    ImageColumnTableMeans(env, props);
    var _ :- Validate(env, props, ImageColumnTable).Checked();
    var actionProps :- Index(props, "action");
    var action :- CreateAction(env, actionProps);
    var url :- Index(props, "thumbnailImageUrl");
    Ok(ImageCarouselColumn(url, action))
  }

  /** Builds one image carousel column. */
  function ImageColumnBuilder(env: Env): Json -> Result<ImageCarouselColumn>
  {
    x => CreateImageCarouselColumnTemplate(env, x)
  }

  /** An image carousel: up to ten columns built in order. */
  function ImageCarouselOf(env: Env, props: Json): (r: Result<Template>)
    ensures r.Ok? <==> Accepted(env, props, ImageCarouselTable) && KeyBuilds(props, "columns", ImageColumnBuilder(env))
    ensures r.Ok? ==> r.value.ImageCarouselTemplate?
    ensures r.Ok? ==> props.fields["columns"].JList? && |r.value.imageColumns| <= 10
                      && BuiltPointwise(props.fields["columns"].items, ImageColumnBuilder(env), r.value.imageColumns)
  {
    var _ :- Validate(env, props, ImageCarouselTable).Checked();
    ColumnsLimit(env, props, ImageCarouselTable, 0);
    var list :- Index(props, "columns");
    var items :- Elements(list);
    TraverseOk(items, ImageColumnBuilder(env));
    var columns :- Traverse(items, ImageColumnBuilder(env));
    Ok(ImageCarouselTemplate(columns))
  }

  // ---- the rule tables, read in terms of the input ----

  lemma ConfirmTableMeans(env: Env, props: Json)
    ensures Accepted(env, props, ConfirmTable) <==>
      props.IsArray() && Given(props, "text") && AtMost(props, "text", 240)
      && Given(props, "actions") && props.fields["actions"].IsArray() && Size(props.fields["actions"]) == 2
  {
    ValidateTwo(env, props, FieldRule(["text"], [Required, MaxSize(240)]), FieldRule(["actions"], [Required, IsArray, MinSize(2), MaxSize(2)]));
    RequiredLine(env, props, "text", MaxSize(240));
    RequiredThreeLine(env, props, "actions", IsArray, MinSize(2), MaxSize(2));
  }

  /** A validated buttons template has a text, and an actions list of at most four entries. */
  lemma ButtonActionsLimit(env: Env, props: Json)
    requires Accepted(env, props, ButtonTable)
    ensures Given(props, "text") && Given(props, "actions") && props.fields["actions"].IsArray()
    ensures Elements(props.fields["actions"]).Ok? ==>
      props.fields["actions"].JList? && |props.fields["actions"].items| <= 4
  {
    Validated(env, props, ButtonTable, 5);
    RequiredLine(env, props, "text", MaxSize(160));
    Validated(env, props, ButtonTable, 7);
    RequiredTwoLine(env, props, "actions", IsArray, MaxSize(4));
  }

  /** A validated carousel column has a text, and an actions list of at most three entries. */
  lemma ColumnActionsLimit(env: Env, props: Json)
    requires Accepted(env, props, ColumnTable)
    ensures Given(props, "text") && Given(props, "actions") && props.fields["actions"].IsArray()
    ensures Elements(props.fields["actions"]).Ok? ==>
      props.fields["actions"].JList? && |props.fields["actions"].items| <= 3
  {
    Validated(env, props, ColumnTable, 3);
    RequiredLine(env, props, "text", MaxSize(120));
    Validated(env, props, ColumnTable, 4);
    RequiredTwoLine(env, props, "actions", IsArray, MaxSize(3));
  }

  /** A validated carousel or image carousel has a columns list of at most ten entries. */
  lemma ColumnsLimit(env: Env, props: Json, table: seq<FieldRule>, k: nat)
    requires Accepted(env, props, table) && k < |table|
    requires table[k] == FieldRule(["columns"], [Required, IsArray, MaxSize(10)])
    ensures Given(props, "columns") && props.fields["columns"].IsArray()
    ensures Elements(props.fields["columns"]).Ok? ==>
      props.fields["columns"].JList? && |props.fields["columns"].items| <= 10
  {
    Validated(env, props, table, k);
    RequiredTwoLine(env, props, "columns", IsArray, MaxSize(10));
  }

  lemma ImageColumnTableMeans(env: Env, props: Json)
    ensures Accepted(env, props, ImageColumnTable) <==>
      props.IsArray() && Given(props, "thumbnailImageUrl") && SecureImageUrl(env, props.fields["thumbnailImageUrl"])
      && Given(props, "action") && props.fields["action"].IsArray()
  {
    ValidateTwo(env, props, FieldRule(["thumbnailImageUrl"], [Required, IsString, ActiveUrl, SecureUrl]), FieldRule(["action"], [Required, IsArray]));
    SecureUrlLine(env, props, "thumbnailImageUrl");
    RequiredLine(env, props, "action", IsArray);
  }

  /**
   * An accepted buttons template has a title of at most 40, a text of at most
   * 160 and known ratio and size words, and no thumbnail other than a blank
   * string: the thumbnail's rule 'max|1000' names no validator method.
   */
  lemma ButtonTemplateAccepted(env: Env, props: Json)
    requires Accepted(env, props, ButtonTable)
    ensures AtMost(props, "title", 40) && AtMost(props, "text", 160)
    ensures OneOf(props, "imageAspectRatio", AspectRatios) && OneOf(props, "imageSize", ImageSizes)
    ensures Skipped(props, "thumbnailImageUrl")
  {
    ButtonThumbnailBlank(env, props);
    var t := ButtonTable;
    Validated(env, props, t, 1);
    RuleLine(env, props, "imageAspectRatio", InSet(AspectRatios));
    Validated(env, props, t, 2);
    RuleLine(env, props, "imageSize", InSet(ImageSizes));
    Validated(env, props, t, 4);
    TwoRuleLine(env, props, "title", IsString, MaxSize(40));
    Validated(env, props, t, 5);
    RequiredLine(env, props, "text", MaxSize(160));
  }

  lemma ButtonThumbnailBlank(env: Env, props: Json)
    requires Accepted(env, props, ButtonTable)
    ensures Skipped(props, "thumbnailImageUrl")
  {
    var t := ButtonTable;
    Validated(env, props, t, 0);
    LookupKey(props, "thumbnailImageUrl");
    assert RulePasses(env, Lookup(props, ["thumbnailImageUrl"]), t[0].rules[1]);
  }

  /**
   * The validator throws as soon as it applies 'max|1000', that is whenever the
   * thumbnail is present and not a blank string, null included.
   */
  lemma ButtonThumbnailRejected(env: Env, props: Json)
    requires props.JObject? && "thumbnailImageUrl" in props.fields
    requires !IsBlankString(props.fields["thumbnailImageUrl"])
    ensures Validate(env, props, ButtonTable) == Fail(Invalid(["thumbnailImageUrl"]))
    ensures ButtonTemplateOf(env, props) == Err(Invalid(["thumbnailImageUrl"]))
  {
    var t := ButtonTable;
    LookupKey(props, "thumbnailImageUrl");
    assert !RulePasses(env, Lookup(props, ["thumbnailImageUrl"]), t[0].rules[1]);
    assert !Holds(env, props, t[0]);
  }

  /** An accepted carousel column has a title of at most 40 and a text of at most 120. */
  lemma CarouselColumnAccepted(env: Env, props: Json)
    requires Accepted(env, props, ColumnTable)
    ensures AtMost(props, "title", 40) && AtMost(props, "text", 120)
  {
    Validated(env, props, ColumnTable, 2);
    TwoRuleLine(env, props, "title", IsString, MaxSize(40));
    Validated(env, props, ColumnTable, 3);
    RequiredLine(env, props, "text", MaxSize(120));
  }

  // ---- the creator's own loops ----

  /** `foreach ($list as $p) $actions[] = createAction($p);` */
  method CreateActions(env: Env, list: Json) returns (r: Result<seq<Action>>)
    ensures r == ActionsOf(env, list)
  {
    var items :- Elements(list);
    var actions: seq<Action> := [];
    var i := 0;
    while i < |items|
      invariant i <= |items|
      invariant Traverse(items[..i], ActionBuilder(env)) == Ok(actions)
    {
      var action := CreateAction(env, items[i]);
      TraverseStep(items, i, actions, ActionBuilder(env));
      if action.Err? {
        return Err(action.error);
      }
      actions := actions + [action.value];
      i := i + 1;
    }
    assert items[..i] == items;
    r := Ok(actions);
  }

  method CreateConfirmTemplate(env: Env, props: Json) returns (r: Result<Template>)
    ensures r == ConfirmOf(env, props)
  {
    var _ :- Validate(env, props, ConfirmTable).Checked();
    var list :- Index(props, "actions");
    var actions :- CreateActions(env, list);
    var text :- Index(props, "text");
    r := Ok(ConfirmTemplate(text, actions));
  }

  method CreateButtonTemplate(env: Env, props: Json) returns (r: Result<Template>)
    ensures r == ButtonTemplateOf(env, props)
  {
    var thumbnailImageUrl, imageAspectRatio, imageSize, imageBackgroundColor, title :=
      JNull, DefaultAspectRatio, DefaultImageSize, DefaultBackground, JNull;
    var defaultAction: Option<Action> := None;
    :- Validate(env, props, ButtonTable);
    if IsSet(props, "thumbnailImageUrl") {
      thumbnailImageUrl := props.fields["thumbnailImageUrl"];
    }
    if IsSet(props, "imageAspectRatio") {
      imageAspectRatio := props.fields["imageAspectRatio"];
    }
    if IsSet(props, "imageSize") {
      imageSize := props.fields["imageSize"];
    }
    if IsSet(props, "imageBackgroundColor") {
      imageBackgroundColor := props.fields["imageBackgroundColor"];
    }
    if IsSet(props, "title") {
      title := props.fields["title"];
    }
    if IsSet(props, "defaultAction") {
      var action :- CreateAction(env, props.fields["defaultAction"]);
      defaultAction := Some(action);
    }
    var list :- Index(props, "actions");
    var actions :- CreateActions(env, list);
    var text :- Index(props, "text");
    r := Ok(ButtonTemplate(title, text, thumbnailImageUrl, actions, imageAspectRatio, imageSize,
                           imageBackgroundColor, defaultAction));
  }

  method CreateCarouselColumnTemplate(env: Env, props: Json) returns (r: Result<CarouselColumn>)
    ensures r == CarouselColumnOf(env, props)
  {
    var thumbnailImageUrl, imageBackgroundColor, title := JNull, DefaultBackground, JNull;
    :- Validate(env, props, ColumnTable);
    if IsSet(props, "thumbnailImageUrl") {
      thumbnailImageUrl := props.fields["thumbnailImageUrl"];
    }
    if IsSet(props, "imageBackgroundColor") {
      imageBackgroundColor := props.fields["imageBackgroundColor"];
    }
    if IsSet(props, "title") {
      title := props.fields["title"];
    }
    var list :- Index(props, "actions");
    var actions :- CreateActions(env, list);
    var text :- Index(props, "text");
    r := Ok(CarouselColumn(title, text, thumbnailImageUrl, actions, imageBackgroundColor));
  }

  method CreateCarouselTemplate(env: Env, props: Json) returns (r: Result<Template>)
    ensures r == CarouselOf(env, props)
  {
    var imageAspectRatio, imageSize := DefaultAspectRatio, DefaultImageSize;
    :- Validate(env, props, CarouselTable);
    if IsSet(props, "imageAspectRatio") {
      imageAspectRatio := props.fields["imageAspectRatio"];
    }
    if IsSet(props, "imageSize") {
      imageSize := props.fields["imageSize"];
    }
    var list :- Index(props, "columns");
    var items :- Elements(list);
    var columns: seq<CarouselColumn> := [];
    var i := 0;
    while i < |items|
      invariant i <= |items|
      invariant Traverse(items[..i], ColumnBuilder(env)) == Ok(columns)
    {
      var column := CreateCarouselColumnTemplate(env, items[i]);
      TraverseStep(items, i, columns, ColumnBuilder(env));
      if column.Err? {
        return Err(column.error);
      }
      columns := columns + [column.value];
      i := i + 1;
    }
    assert items[..i] == items;
    r := Ok(CarouselTemplate(columns, imageAspectRatio, imageSize));
  }

  /** `foreach ($props['columns'] as $p) $columns[] = createImageCarouselColumnTemplate($p);` */
  method CreateImageColumns(env: Env, items: seq<Json>) returns (r: Result<seq<ImageCarouselColumn>>)
    ensures r == Traverse(items, ImageColumnBuilder(env))
  {
    var columns: seq<ImageCarouselColumn> := [];
    var i := 0;
    while i < |items|
      invariant i <= |items|
      invariant Traverse(items[..i], ImageColumnBuilder(env)) == Ok(columns)
    {
      var column := CreateImageCarouselColumnTemplate(env, items[i]);
      TraverseStep(items, i, columns, ImageColumnBuilder(env));
      if column.Err? {
        return Err(column.error);
      }
      columns := columns + [column.value];
      i := i + 1;
    }
    assert items[..i] == items;
    r := Ok(columns);
  }

  method CreateImageCarouselTemplate(env: Env, props: Json) returns (r: Result<Template>)
    ensures r == ImageCarouselOf(env, props)
  {
    var _ :- Validate(env, props, ImageCarouselTable).Checked();
    var list :- Index(props, "columns");
    var items :- Elements(list);
    var columns :- CreateImageColumns(env, items);
    r := Ok(ImageCarouselTemplate(columns));
  }
}
