/**
 * Messages: the top-level dispatcher, the nine message builders and the
 * batch builder.
 *
 * The dispatcher requires a `type` and hands the properties to the builder
 * that type names; an unknown type is an error of its own. The imagemap
 * and flex-carousel builders, and the batch builder, loop over their
 * input; each of those is a method proved to yield what its function says.
 */
module Messages {
  import opened Values
  import opened Validation
  import opened Actions
  import Flex
  import Templates

  datatype BaseSize = BaseSize(height: Json, width: Json)

  datatype ExternalLink = ExternalLink(linkUri: Json, labelText: Json)

  datatype Video = Video(originalContentUrl: Json, previewImageUrl: Json, area: Area, externalLink: Option<ExternalLink>)

  /** What a flex message shows: one bubble, or a carousel of at least one bubble. */
  datatype FlexContents = BubbleContents(bubble: Flex.Bubble) | CarouselContents(bubbles: seq<Flex.Bubble>)

  datatype Message =
    | TextMessage(text: Json)
    | StickerMessage(packageId: Json, stickerId: Json)
    | ImageMessage(originalContentUrl: Json, previewImageUrl: Json)
    | VideoMessage(originalContentUrl: Json, previewImageUrl: Json)
    | AudioMessage(originalContentUrl: Json, duration: Json)
    | LocationMessage(title: Json, address: Json, latitude: Json, longitude: Json)
    | ImagemapMessage(baseUrl: Json, altText: Json, baseSize: BaseSize, actions: seq<ImagemapAction>,
                      video: Option<Video>)
    | TemplateMessage(altText: Json, template: Templates.Template)
    | FlexMessage(altText: Json, contents: Option<FlexContents>)

  const MessageTypes: set<string> :=
    {"text", "sticker", "image", "video", "audio", "location", "imagemap", "template", "flex"}
  const ImagemapActionTypes: set<string> := {"uri", "message"}
  const TemplateTypes: set<string> := {"confirm", "buttons", "carousel", "image_carousel"}
  const FlexTypes: set<string> := {"bubble", "carousel"}

  /** `key => required|string|active_url|regex:https...` */
  function SecureLine(key: string): FieldRule
  {
    FieldRule([key], [Required, IsString, ActiveUrl, SecureUrl])
  }

  const MessageTypeTable := [FieldRule(["type"], [Required])]
  const TextMessageTable := [FieldRule(["text"], [Required])]
  const StickerTable := [FieldRule(["packageId"], [Required, IsString]), FieldRule(["stickerId"], [Required, IsString])]
  const MediaTable := [SecureLine("originalContentUrl"), SecureLine("previewImageUrl")]
  const AudioTable := [SecureLine("originalContentUrl"), FieldRule(["duration"], [Required, IsInteger])]
  const LocationMessageTable := [
    FieldRule(["title"], [Required, IsString, MaxSize(100)]),
    FieldRule(["address"], [Required, IsString, MaxSize(100)]),
    FieldRule(["latitude"], [Required, Numeric]),
    FieldRule(["longitude"], [Required, Numeric])
  ]

  /** The imagemap rules; the rule on the area's x is keyed 'x' followed by a tab, as written. */
  const ImagemapTable := ImagemapHead + ImagemapVideo + ImagemapActionRules

  const ImagemapHead := [
    SecureLine("baseUrl"),
    FieldRule(["altText"], [Required, IsString, MaxSize(400)]),
    FieldRule(["baseSize"], [Required, IsArray]),
    FieldRule(["baseSize", "width"], [Required, IsInteger, InSet({"1040"})]),
    FieldRule(["baseSize", "height"], [Required, IsInteger])
  ]

  const ImagemapVideo := [
    FieldRule(["video"], [IsArray]),
    FieldRule(["video", "originalContentUrl"], [IsString, ActiveUrl, SecureUrl]),
    FieldRule(["video", "previewImageUrl"], [IsString, ActiveUrl, SecureUrl]),
    FieldRule(["video", "area"], [IsArray]),
    FieldRule(["video", "area", "x\t"], [IsInteger]),
    FieldRule(["video", "area", "y"], [IsInteger]),
    FieldRule(["video", "area", "width"], [IsInteger]),
    FieldRule(["video", "area", "height"], [IsInteger]),
    FieldRule(["video", "externalLink"], [IsArray]),
    FieldRule(["video", "externalLink", "linkUri"], [MaxSize(1000), UriScheme]),
    FieldRule(["video", "externalLink", "label"], [IsString, MaxSize(30)])
  ]

  const ImagemapActionRules := [
    FieldRule(["actions"], [Required, IsArray, MaxSize(50)]),
    EachRule(["actions"], ["type"], [Required, InSet(ImagemapActionTypes)])
  ]

  const TemplateMessageTable := [
    FieldRule(["altText"], [Required, MaxSize(400)]),
    FieldRule(["template"], [Required, IsArray]),
    FieldRule(["template", "type"], [Required, InSet(TemplateTypes)])
  ]

  const FlexMessageTable := [
    FieldRule(["altText"], [Required, MaxSize(400)]),
    FieldRule(["contents"], [Required, IsArray]),
    FieldRule(["contents", "type"], [Required, InSet(FlexTypes)])
  ]

  // ---- the simple messages ----

  function CreateTextMessage(env: Env, props: Json): (r: Result<Message>)
    ensures r.Ok? <==> props.IsArray() && Given(props, "text")
    ensures r.Ok? ==> r.value == TextMessage(props.fields["text"])
    ensures r.Err? ==> r.error.Invalid? || r.error == NotAnArray
  {
    TextMessageTableMeans(env, props);
    var _ :- Validate(env, props, TextMessageTable).Checked();
    var text :- Index(props, "text");
    Ok(TextMessage(text))
  }

  function CreateStickerMessage(env: Env, props: Json): (r: Result<Message>)
    ensures r.Ok? <==> props.IsArray() && Given(props, "packageId") && props.fields["packageId"].JString?
                       && Given(props, "stickerId") && props.fields["stickerId"].JString?
    ensures r.Ok? ==> r.value == StickerMessage(props.fields["packageId"], props.fields["stickerId"])
    ensures r.Err? ==> r.error.Invalid? || r.error == NotAnArray
  {
    StickerTableMeans(env, props);
    var _ :- Validate(env, props, StickerTable).Checked();
    var packageId :- Index(props, "packageId");
    var stickerId :- Index(props, "stickerId");
    Ok(StickerMessage(packageId, stickerId))
  }

  function CreateImageMessage(env: Env, props: Json): (r: Result<Message>)
    ensures r.Ok? <==> MediaOk(env, props)
    ensures r.Ok? ==> r.value == ImageMessage(props.fields["originalContentUrl"], props.fields["previewImageUrl"])
    ensures r.Err? ==> r.error.Invalid? || r.error == NotAnArray
  {
    MediaTableMeans(env, props);
    var _ :- Validate(env, props, MediaTable).Checked();
    var original :- Index(props, "originalContentUrl");
    var preview :- Index(props, "previewImageUrl");
    Ok(ImageMessage(original, preview))
  }

  function CreateVideoMessage(env: Env, props: Json): (r: Result<Message>)
    ensures r.Ok? <==> MediaOk(env, props)
    ensures r.Ok? ==> r.value == VideoMessage(props.fields["originalContentUrl"], props.fields["previewImageUrl"])
    ensures r.Err? ==> r.error.Invalid? || r.error == NotAnArray
  {
    MediaTableMeans(env, props);
    var _ :- Validate(env, props, MediaTable).Checked();
    var original :- Index(props, "originalContentUrl");
    var preview :- Index(props, "previewImageUrl");
    Ok(VideoMessage(original, preview))
  }

  function CreateAudioMessage(env: Env, props: Json): (r: Result<Message>)
    ensures r.Ok? <==> props.IsArray() && Given(props, "originalContentUrl")
                       && SecureImageUrl(env, props.fields["originalContentUrl"])
                       && Given(props, "duration") && Check(env, props.fields["duration"], IsInteger)
    ensures r.Ok? ==> r.value == AudioMessage(props.fields["originalContentUrl"], props.fields["duration"])
    ensures r.Err? ==> r.error.Invalid? || r.error == NotAnArray
  {
    AudioTableMeans(env, props);
    var _ :- Validate(env, props, AudioTable).Checked();
    var original :- Index(props, "originalContentUrl");
    var duration :- Index(props, "duration");
    Ok(AudioMessage(original, duration))
  }

  function CreateLocationMessage(env: Env, props: Json): (r: Result<Message>)
    ensures r.Ok? <==> props.IsArray()
                       && Given(props, "title") && props.fields["title"].JString? && |props.fields["title"].s| <= 100
                       && Given(props, "address") && props.fields["address"].JString? && |props.fields["address"].s| <= 100
                       && Given(props, "latitude") && Check(env, props.fields["latitude"], Numeric)
                       && Given(props, "longitude") && Check(env, props.fields["longitude"], Numeric)
    ensures r.Ok? ==> r.value == LocationMessage(props.fields["title"], props.fields["address"],
                                                 props.fields["latitude"], props.fields["longitude"])
    ensures r.Err? ==> r.error.Invalid? || r.error == NotAnArray
  {
    LocationMessageTableMeans(env, props);
    var _ :- Validate(env, props, LocationMessageTable).Checked();
    var title :- Index(props, "title");
    var address :- Index(props, "address");
    var latitude :- Index(props, "latitude");
    var longitude :- Index(props, "longitude");
    Ok(LocationMessage(title, address, latitude, longitude))
  }

  /** Both media URLs are given, reachable and https with a dotted host. */
  predicate MediaOk(env: Env, props: Json)
  {
    props.IsArray()
    && Given(props, "originalContentUrl") && SecureImageUrl(env, props.fields["originalContentUrl"])
    && Given(props, "previewImageUrl") && SecureImageUrl(env, props.fields["previewImageUrl"])
  }

  // ---- imagemap ----

  /** The imagemap action one entry yields: by its type, and nothing for any other type. */
  function ImagemapActionOf(env: Env, props: Json): (r: Result<Option<ImagemapAction>>)
    ensures HasString(props, "type", "uri") ==> r == Lift(CreateImagemapUriAction(env, props))
    ensures HasString(props, "type", "message") ==> r == Lift(CreateImagemapMessageAction(env, props))
  {
    var kind :- Index(props, "type");
    if Matches(kind, "uri") then Lift(CreateImagemapUriAction(env, props))
    else if Matches(kind, "message") then Lift(CreateImagemapMessageAction(env, props))
    else Ok(None)
  }

  function ImagemapActionBuilder(env: Env): Json -> Result<Option<ImagemapAction>>
  {
    x => ImagemapActionOf(env, x)
  }

  /** The values that are there, in order. */
  function Kept<T>(opts: seq<Option<T>>): seq<T>
  {
    if opts == [] then []
    else (if opts[0].Some? then [opts[0].value] else []) + Kept(opts[1..])
  }

  lemma {:induction false} KeptAppend<T>(opts: seq<Option<T>>, o: Option<T>)
    ensures Kept(opts + [o]) == Kept(opts) + (if o.Some? then [o.value] else [])
  {
    if opts == [] {
      assert [] + [o] == [o];
      assert [o][1..] == [];
    } else {
      assert (opts + [o])[0] == opts[0];
      assert (opts + [o])[1..] == opts[1..] + [o];
      KeptAppend(opts[1..], o);
    }
  }

  /** When every entry is there, nothing is dropped. */
  lemma {:induction false} KeptAll<T>(opts: seq<Option<T>>)
    requires forall k :: 0 <= k < |opts| ==> opts[k].Some?
    ensures |Kept(opts)| == |opts|
    ensures forall k :: 0 <= k < |opts| ==> Kept(opts)[k] == opts[k].value
  {
    if opts != [] {
      KeptAll(opts[1..]);
    }
  }

  /** The value is an object holding every one of the keys. */
  predicate HasKeys(j: Json, keys: set<string>)
  {
    j.JObject? && keys <= j.fields.Keys
  }

  /** The video of an imagemap, read from `video` when it is set; its parts are read without a guard. */
  function VideoOf(props: Json): (r: Result<Option<Video>>)
    ensures r.Ok? <==> IsSet(props, "video") ==>
              var v := props.fields["video"];
              HasKeys(v, {"originalContentUrl", "previewImageUrl", "area"})
              && HasKeys(v.fields["area"], {"x", "y", "width", "height"}) && ExternalLinkOf(v).Ok?
    ensures r.Ok? ==> (r.value.Some? <==> IsSet(props, "video"))
    ensures r.Ok? && r.value.Some? ==>
              var v := props.fields["video"];
              v.JObject? && "originalContentUrl" in v.fields && "previewImageUrl" in v.fields
              && r.value.value.originalContentUrl == v.fields["originalContentUrl"]
              && r.value.value.previewImageUrl == v.fields["previewImageUrl"]
              && (r.value.value.externalLink.Some? <==> IsSet(v, "externalLink"))
              && ExternalLinkOf(v) == Ok(r.value.value.externalLink)
              && var area := v.fields["area"];
                 area.JObject? && "x" in area.fields && "y" in area.fields && "width" in area.fields && "height" in area.fields
                 && r.value.value.area == Area(area.fields["x"], area.fields["y"], area.fields["width"], area.fields["height"])
  {
    if !IsSet(props, "video") then Ok(None)
    else
      var video := props.fields["video"];
      var externalLink :- ExternalLinkOf(video);
      var original :- Index(video, "originalContentUrl");
      var preview :- Index(video, "previewImageUrl");
      var area :- Index(video, "area");
      var x :- Index(area, "x");
      var y :- Index(area, "y");
      var width :- Index(area, "width");
      var height :- Index(area, "height");
      Ok(Some(Video(original, preview, Area(x, y, width, height), externalLink)))
  }

  /** The external link of a video, built only when it is set; both its parts are read without a guard. */
  function ExternalLinkOf(video: Json): (r: Result<Option<ExternalLink>>)
    ensures r.Ok? <==> IsSet(video, "externalLink") ==> HasKeys(video.fields["externalLink"], {"linkUri", "label"})
    ensures r.Ok? ==> (r.value.Some? <==> IsSet(video, "externalLink"))
    ensures r.Ok? && r.value.Some? ==>
              var link := video.fields["externalLink"];
              link.JObject? && "linkUri" in link.fields && "label" in link.fields
              && r.value.value == ExternalLink(link.fields["linkUri"], link.fields["label"])
  {
    if IsSet(video, "externalLink") then
      var link := video.fields["externalLink"];
      var linkUri :- Index(link, "linkUri");
      var labelText :- Index(link, "label");
      Ok(Some(ExternalLink(linkUri, labelText)))
    else Ok(None)
  }

  /**
   * An imagemap message. Every action entry is built by the builder its
   * type names, in order; base URL, alt text and base size are carried
   * unchanged.
   */
  function ImagemapOf(env: Env, props: Json): (r: Result<Message>)
    ensures r.Ok? ==> Accepted(env, props, ImagemapTable)
    ensures r.Ok? ==> Given(props, "baseUrl") && SecureImageUrl(env, props.fields["baseUrl"])
                      && Given(props, "altText") && props.fields["altText"].JString? && |props.fields["altText"].s| <= 400
    ensures r.Ok? ==> r.value.ImagemapMessage? && r.value.baseUrl == props.fields["baseUrl"]
                      && r.value.altText == props.fields["altText"]
    ensures r.Ok? ==> Given(props, "baseSize") && props.fields["baseSize"].JObject?
                      && "height" in props.fields["baseSize"].fields && "width" in props.fields["baseSize"].fields
                      && r.value.baseSize == BaseSize(props.fields["baseSize"].fields["height"],
                                                      props.fields["baseSize"].fields["width"])
    ensures r.Ok? ==> (r.value.video.Some? <==> IsSet(props, "video"))
    ensures r.Ok? ==> "actions" in props.fields && ImagemapActionsOf(env, props.fields["actions"]) == Ok(r.value.actions)
  {
    var _ :- Validate(env, props, ImagemapTable).Checked();
    ImagemapHeadMeans(env, props);
    var list :- Index(props, "actions");
    var actions :- ImagemapActionsOf(env, list);
    var video :- VideoOf(props);
    var baseUrl :- Index(props, "baseUrl");
    var altText :- Index(props, "altText");
    var baseSize :- Index(props, "baseSize");
    var height :- Index(baseSize, "height");
    var width :- Index(baseSize, "width");
    Ok(ImagemapMessage(baseUrl, altText, BaseSize(height, width), actions, video))
  }

  /** An imagemap builds exactly when the rules pass, every action entry builds and the video reads. */
  lemma ImagemapBuilds(env: Env, props: Json)
    ensures ImagemapOf(env, props).Ok? <==>
              Accepted(env, props, ImagemapTable) && Given(props, "actions")
              && ImagemapActionsOf(env, props.fields["actions"]).Ok? && VideoOf(props).Ok?
    ensures ImagemapOf(env, props).Ok? ==> VideoOf(props) == Ok(ImagemapOf(env, props).value.video)
  {
    if Accepted(env, props, ImagemapTable) {
      ImagemapHeadMeans(env, props);
      ActionEntriesTyped(env, props);
    }
  }

  /** The actions the creator's loop collects: one per entry whose type it knows, in order. */
  function ImagemapActionsOf(env: Env, list: Json): (r: Result<seq<ImagemapAction>>)
    ensures r.Ok? ==> Elements(list).Ok? && |r.value| <= |Elements(list).value|
  {
    var items :- Elements(list);
    var built :- Traverse(items, ImagemapActionBuilder(env));
    TraverseOk(items, ImagemapActionBuilder(env));
    KeptBound(built);
    Ok(Kept(built))
  }

  /** The action loop completes exactly when every entry builds. */
  lemma ImagemapActionsBuild(env: Env, list: Json)
    ensures ImagemapActionsOf(env, list).Ok? <==> AllBuild(list, ImagemapActionBuilder(env))
  {
    if Elements(list).Ok? {
      TraverseOk(Elements(list).value, ImagemapActionBuilder(env));
    }
  }

  lemma {:induction false} KeptBound<T>(opts: seq<Option<T>>)
    ensures |Kept(opts)| <= |opts|
  {
    if opts != [] {
      KeptBound(opts[1..]);
    }
  }

  /** When every entry names a known type, no entry is skipped: each yields the action its type names. */
  lemma TypedActionsKept(env: Env, list: Json)
    requires ImagemapActionsOf(env, list).Ok?
    requires forall k :: 0 <= k < |Elements(list).value| ==>
               var e := Elements(list).value[k];
               HasString(e, "type", "uri") || HasString(e, "type", "message")
    ensures var items := Elements(list).value;
            var actions := ImagemapActionsOf(env, list).value;
            |actions| == |items|
            && forall k :: 0 <= k < |items| ==>
                 (HasString(items[k], "type", "uri") && CreateImagemapUriAction(env, items[k]) == Ok(actions[k]))
                 || (HasString(items[k], "type", "message") && CreateImagemapMessageAction(env, items[k]) == Ok(actions[k]))
  {
    var items := Elements(list).value;
    TraverseOk(items, ImagemapActionBuilder(env));
    var built := Traverse(items, ImagemapActionBuilder(env)).value;
    forall k | 0 <= k < |items|
      ensures built[k].Some?
    {
      assert ImagemapActionBuilder(env)(items[k]) == Ok(built[k]);
    }
    KeptAll(built);
  }

  /** A validated imagemap passes the rules on its head and on its actions. */
  lemma ImagemapParts(env: Env, props: Json)
    requires Accepted(env, props, ImagemapTable)
    ensures Accepted(env, props, ImagemapHead) && Accepted(env, props, ImagemapActionRules)
  {
    ValidateAppend(env, props, ImagemapHead + ImagemapVideo, ImagemapActionRules);
    ValidateAppend(env, props, ImagemapHead, ImagemapVideo);
  }

  /** A validated imagemap's action entries are at most fifty, each naming 'uri' or 'message'. */
  lemma ActionEntriesTyped(env: Env, props: Json)
    requires Accepted(env, props, ImagemapTable)
    ensures Given(props, "actions")
    ensures Elements(props.fields["actions"]).Ok? ==>
      var items := Elements(props.fields["actions"]).value;
      |items| <= 50
      && forall k :: 0 <= k < |items| ==> HasString(items[k], "type", "uri") || HasString(items[k], "type", "message")
  {
    ImagemapParts(env, props);
    var t := ImagemapActionRules;
    Validated(env, props, t, 0);
    RequiredTwoLine(env, props, "actions", IsArray, MaxSize(50));
    Validated(env, props, t, 1);
    LookupKey(props, "actions");
    var list := props.fields["actions"];
    if list.JList? {
      forall k | 0 <= k < |list.items|
        ensures HasString(list.items[k], "type", "uri") || HasString(list.items[k], "type", "message")
      {
        EntryTyped(env, props, k);
      }
    }
  }

  /** One entry of a list validated by `actions.*.type => required|in:uri,message`. */
  lemma EntryTyped(env: Env, props: Json, k: nat)
    requires Holds(env, props, EachRule(["actions"], ["type"], [Required, InSet(ImagemapActionTypes)]))
    requires props.JObject? && "actions" in props.fields && props.fields["actions"].JList?
    requires k < |props.fields["actions"].items|
    ensures var e := props.fields["actions"].items[k];
            HasString(e, "type", "uri") || HasString(e, "type", "message")
  {
    LookupKey(props, "actions");
    var e := props.fields["actions"].items[k];
    assert RulesPass(env, Lookup(e, ["type"]), [Required, InSet(ImagemapActionTypes)]);
    RequiredWord(env, e, "type", ImagemapActionTypes);
  }

  /**
   * No action entry is dropped: there are at most fifty, and the built
   * imagemap holds one action per entry, each built from the entry at the
   * same position by the builder its type names.
   */
  lemma ImagemapActions(env: Env, props: Json)
    requires ImagemapOf(env, props).Ok?
    ensures Given(props, "actions") && Elements(props.fields["actions"]).Ok?
    ensures var items := Elements(props.fields["actions"]).value;
            var actions := ImagemapOf(env, props).value.actions;
            |items| <= 50 && |actions| == |items|
            && forall k :: 0 <= k < |items| ==>
                 (HasString(items[k], "type", "uri") && CreateImagemapUriAction(env, items[k]) == Ok(actions[k]))
                 || (HasString(items[k], "type", "message") && CreateImagemapMessageAction(env, items[k]) == Ok(actions[k]))
  {
    ActionEntriesTyped(env, props);
    TypedActionsKept(env, props.fields["actions"]);
  }

  // ---- template and flex messages ----

  /** The `template.type` key holds the given word. */
  predicate NestedType(props: Json, outer: string, w: string)
  {
    props.JObject? && outer in props.fields && HasString(props.fields[outer], "type", w)
  }

  /** A template message: the template its type names, under an alt text of at most 400 carried unchanged. */
  function TemplateMessageOf(env: Env, props: Json): (r: Result<Message>)
    ensures r.Ok? ==> Given(props, "altText") && AtMost(props, "altText", 400)
                      && r.value.TemplateMessage? && r.value.altText == props.fields["altText"]
    ensures r.Ok? ==> exists w :: w in TemplateTypes && NestedType(props, "template", w)
    ensures r.Ok? && NestedType(props, "template", "confirm") ==>
              Templates.ConfirmOf(env, props.fields["template"]) == Ok(r.value.template)
    ensures r.Ok? && NestedType(props, "template", "buttons") ==>
              Templates.ButtonTemplateOf(env, props.fields["template"]) == Ok(r.value.template)
    ensures r.Ok? && NestedType(props, "template", "carousel") ==>
              Templates.CarouselOf(env, props.fields["template"]) == Ok(r.value.template)
    ensures r.Ok? && NestedType(props, "template", "image_carousel") ==>
              Templates.ImageCarouselOf(env, props.fields["template"]) == Ok(r.value.template)
  {
    var _ :- Validate(env, props, TemplateMessageTable).Checked();
    TemplateMessageTableMeans(env, props);
    var template :- Index(props, "template");
    var kind :- Index(template, "type");
    var built :-
      if Matches(kind, "confirm") then Templates.ConfirmOf(env, template)
      else if Matches(kind, "buttons") then Templates.ButtonTemplateOf(env, template)
      else if Matches(kind, "carousel") then Templates.CarouselOf(env, template)
      else if Matches(kind, "image_carousel") then Templates.ImageCarouselOf(env, template)
      else assert false; Err(TypeError);
    var altText :- Index(props, "altText");
    Ok(TemplateMessage(altText, built))
  }

  /** A validated template message builds exactly when the template its type names builds. */
  lemma TemplateMessageBuilds(env: Env, props: Json)
    ensures !Accepted(env, props, TemplateMessageTable) ==> TemplateMessageOf(env, props).Err?
    ensures Accepted(env, props, TemplateMessageTable) && NestedType(props, "template", "confirm") ==>
              (TemplateMessageOf(env, props).Ok? <==> Templates.ConfirmOf(env, props.fields["template"]).Ok?)
    ensures Accepted(env, props, TemplateMessageTable) && NestedType(props, "template", "buttons") ==>
              (TemplateMessageOf(env, props).Ok? <==> Templates.ButtonTemplateOf(env, props.fields["template"]).Ok?)
    ensures Accepted(env, props, TemplateMessageTable) && NestedType(props, "template", "carousel") ==>
              (TemplateMessageOf(env, props).Ok? <==> Templates.CarouselOf(env, props.fields["template"]).Ok?)
    ensures Accepted(env, props, TemplateMessageTable) && NestedType(props, "template", "image_carousel") ==>
              (TemplateMessageOf(env, props).Ok? <==> Templates.ImageCarouselOf(env, props.fields["template"]).Ok?)
  {
    if Accepted(env, props, TemplateMessageTable) {
      TemplateMessageTableMeans(env, props);
    }
  }

  function BubbleBuilder(env: Env): Json -> Result<Flex.Bubble>
  {
    x => Flex.CreateBubbleContainer(env, x)
  }

  /**
   * The carousel of a flex message: one bubble per entry, in order. It is
   * set as each bubble is added, so a carousel without entries leaves
   * the contents null.
   */
  function FlexCarouselOf(env: Env, list: Json): (r: Result<Option<FlexContents>>)
    ensures r.Ok? <==> AllBuild(list, BubbleBuilder(env))
    ensures r.Ok? ==> (r.value.None? <==> Elements(list).value == [])
    ensures r.Ok? && r.value.Some? ==>
              r.value.value.CarouselContents? && BuiltPointwise(Elements(list).value, BubbleBuilder(env), r.value.value.bubbles)
  {
    var items :- Elements(list);
    TraverseOk(items, BubbleBuilder(env));
    var bubbles :- Traverse(items, BubbleBuilder(env));
    Ok(if bubbles == [] then None else Some(CarouselContents(bubbles)))
  }

  /** The contents of a flex message of type 'bubble'. */
  function SingleBubbleOf(env: Env, container: Json): Result<Option<FlexContents>>
  {
    var bubble :- Flex.CreateBubbleContainer(env, container);
    Ok(Some(BubbleContents(bubble)))
  }

  /** A flex message: a bubble or a carousel of bubbles, under an alt text of at most 400 carried unchanged. */
  function FlexOf(env: Env, props: Json): (r: Result<Message>)
    ensures r.Ok? ==> Given(props, "altText") && AtMost(props, "altText", 400)
                      && r.value.FlexMessage? && r.value.altText == props.fields["altText"]
    ensures r.Ok? ==> NestedType(props, "contents", "bubble") || NestedType(props, "contents", "carousel")
    ensures r.Ok? && NestedType(props, "contents", "bubble") ==>
              r.value.contents.Some? && r.value.contents.value.BubbleContents?
              && Flex.CreateBubbleContainer(env, props.fields["contents"]) == Ok(r.value.contents.value.bubble)
    ensures r.Ok? && NestedType(props, "contents", "carousel") ==>
              "contents" in props.fields["contents"].fields
              && FlexCarouselOf(env, props.fields["contents"].fields["contents"]) == Ok(r.value.contents)
  {
    var _ :- Validate(env, props, FlexMessageTable).Checked();
    FlexMessageTableMeans(env, props);
    var container :- Index(props, "contents");
    var kind :- Index(container, "type");
    var contents :-
      if Matches(kind, "bubble") then SingleBubbleOf(env, container)
      else if Matches(kind, "carousel") then
        var list :- Index(container, "contents");
        FlexCarouselOf(env, list)
      else assert false; Err(TypeError);
    var altText :- Index(props, "altText");
    Ok(FlexMessage(altText, contents))
  }

  /** A validated flex message builds exactly when its bubble, or every bubble of its carousel, builds. */
  lemma FlexBuilds(env: Env, props: Json)
    ensures !Accepted(env, props, FlexMessageTable) ==> FlexOf(env, props).Err?
    ensures Accepted(env, props, FlexMessageTable) && NestedType(props, "contents", "bubble") ==>
              (FlexOf(env, props).Ok? <==> Flex.CreateBubbleContainer(env, props.fields["contents"]).Ok?)
    ensures Accepted(env, props, FlexMessageTable) && NestedType(props, "contents", "carousel") ==>
              (FlexOf(env, props).Ok? <==> "contents" in props.fields["contents"].fields
                                             && FlexCarouselOf(env, props.fields["contents"].fields["contents"]).Ok?)
  {
    if Accepted(env, props, FlexMessageTable) {
      FlexMessageTableMeans(env, props);
    }
  }

  // ---- the dispatcher ----

  /** Builds one message: a missing type is invalid, an unknown one is rejected, every known one has its builder. */
  function MessageOf(env: Env, props: Json): (r: Result<Message>)
    ensures !(props.IsArray() && Given(props, "type")) ==> r.Err? && (r.error.Invalid? || r.error == NotAnArray)
    ensures (props.IsArray() && Given(props, "type") && props.fields["type"] != JBool(true)
             && !(props.fields["type"].JString? && props.fields["type"].s in MessageTypes)) ==> r == Err(InvalidMessageType)
  {
    MessageTypeTableMeans(env, props);
    var _ :- Validate(env, props, MessageTypeTable).Checked();
    var kind :- Index(props, "type");
    if Matches(kind, "text") then CreateTextMessage(env, props)
    else if Matches(kind, "sticker") then CreateStickerMessage(env, props)
    else if Matches(kind, "image") then CreateImageMessage(env, props)
    else if Matches(kind, "video") then CreateVideoMessage(env, props)
    else if Matches(kind, "audio") then CreateAudioMessage(env, props)
    else if Matches(kind, "location") then CreateLocationMessage(env, props)
    else if Matches(kind, "imagemap") then ImagemapOf(env, props)
    else if Matches(kind, "template") then TemplateMessageOf(env, props)
    else if Matches(kind, "flex") then FlexOf(env, props)
    else Err(InvalidMessageType)
  }

  /** A text, sticker, image, video or audio message is handed to its own creator. */
  lemma MessageKinds(env: Env, props: Json)
    ensures HasString(props, "type", "text") ==> MessageOf(env, props) == CreateTextMessage(env, props)
    ensures HasString(props, "type", "sticker") ==> MessageOf(env, props) == CreateStickerMessage(env, props)
    ensures HasString(props, "type", "image") ==> MessageOf(env, props) == CreateImageMessage(env, props)
    ensures HasString(props, "type", "video") ==> MessageOf(env, props) == CreateVideoMessage(env, props)
    ensures HasString(props, "type", "audio") ==> MessageOf(env, props) == CreateAudioMessage(env, props)
  {
    if props.JObject? && "type" in props.fields && props.fields["type"].JString?
       && props.fields["type"].s in {"text", "sticker", "image", "video", "audio"} {
      TypedMessage(env, props, props.fields["type"].s);
    }
  }

  /** A message whose type is a word that is not blank passes the type check. */
  lemma TypedMessage(env: Env, props: Json, kind: string)
    requires HasString(props, "type", kind) && |kind| > 0 && !IsSpace(kind[0])
    ensures Validate(env, props, MessageTypeTable).Pass? && Index(props, "type") == Ok(JString(kind))
  {
    ValidateOne(env, props, FieldRule(["type"], [Required]));
    RequiredOnlyLine(env, props, "type");
    WordGiven(props, "type", kind);
  }

  /** A location, imagemap, template or flex message is handed to its own creator, past the earlier cases. */
  lemma RichMessageKinds(env: Env, props: Json)
    ensures HasString(props, "type", "location") ==> MessageOf(env, props) == CreateLocationMessage(env, props)
    ensures HasString(props, "type", "imagemap") ==> MessageOf(env, props) == ImagemapOf(env, props)
    ensures HasString(props, "type", "template") ==> MessageOf(env, props) == TemplateMessageOf(env, props)
    ensures HasString(props, "type", "flex") ==> MessageOf(env, props) == FlexOf(env, props)
  {
    if props.JObject? && "type" in props.fields && props.fields["type"].JString?
       && props.fields["type"].s in {"location", "imagemap", "template", "flex"} {
      var kind := props.fields["type"];
      TypedMessage(env, props, kind.s);
      assert !Matches(kind, "text") && !Matches(kind, "sticker") && !Matches(kind, "image");
      assert !Matches(kind, "video") && !Matches(kind, "audio");
    }
  }

  function MessageBuilder(env: Env): Json -> Result<Message>
  {
    x => MessageOf(env, x)
  }

  /** A batch: one message per entry, in order; the first entry that fails fails the whole batch. */
  function MessagesOf(env: Env, config: Json): (r: Result<seq<Message>>)
    ensures r.Ok? <==> AllBuild(config, MessageBuilder(env))
    ensures r.Ok? ==> BuiltPointwise(Elements(config).value, MessageBuilder(env), r.value)
    ensures r.Err? && Elements(config).Ok? ==>
              exists k :: 0 <= k < |Elements(config).value| && MessageOf(env, Elements(config).value[k]) == Err(r.error)
                          && forall j :: 0 <= j < k ==> MessageOf(env, Elements(config).value[j]).Ok?
  {
    var items :- Elements(config);
    TraverseOk(items, MessageBuilder(env));
    if Traverse(items, MessageBuilder(env)).Err? then
      TraverseErr(items, MessageBuilder(env));
      Traverse(items, MessageBuilder(env))
    else
      Traverse(items, MessageBuilder(env))
  }

  // ---- the rule tables, read in terms of the input ----

  lemma MessageTypeTableMeans(env: Env, props: Json)
    ensures Accepted(env, props, MessageTypeTable) <==> props.IsArray() && Given(props, "type")
    ensures forall w :: w in MessageTypes && HasString(props, "type", w) ==> Given(props, "type")
  {
    ValidateOne(env, props, FieldRule(["type"], [Required]));
    RequiredOnlyLine(env, props, "type");
    forall w | w in MessageTypes && HasString(props, "type", w)
      ensures Given(props, "type")
    {
      WordGiven(props, "type", w);
    }
  }

  lemma TextMessageTableMeans(env: Env, props: Json)
    ensures Accepted(env, props, TextMessageTable) <==> props.IsArray() && Given(props, "text")
  {
    ValidateOne(env, props, FieldRule(["text"], [Required]));
    RequiredOnlyLine(env, props, "text");
  }

  lemma StickerTableMeans(env: Env, props: Json)
    ensures Accepted(env, props, StickerTable) <==>
      props.IsArray() && Given(props, "packageId") && props.fields["packageId"].JString?
      && Given(props, "stickerId") && props.fields["stickerId"].JString?
  {
    ValidateTwo(env, props, FieldRule(["packageId"], [Required, IsString]), FieldRule(["stickerId"], [Required, IsString]));
    RequiredLine(env, props, "packageId", IsString);
    RequiredLine(env, props, "stickerId", IsString);
  }

  lemma MediaTableMeans(env: Env, props: Json)
    ensures Accepted(env, props, MediaTable) <==> MediaOk(env, props)
  {
    ValidateTwo(env, props, SecureLine("originalContentUrl"), SecureLine("previewImageUrl"));
    SecureUrlLine(env, props, "originalContentUrl");
    SecureUrlLine(env, props, "previewImageUrl");
  }

  lemma AudioTableMeans(env: Env, props: Json)
    ensures Accepted(env, props, AudioTable) <==>
      props.IsArray() && Given(props, "originalContentUrl") && SecureImageUrl(env, props.fields["originalContentUrl"])
      && Given(props, "duration") && Check(env, props.fields["duration"], IsInteger)
  {
    ValidateTwo(env, props, SecureLine("originalContentUrl"), FieldRule(["duration"], [Required, IsInteger]));
    SecureUrlLine(env, props, "originalContentUrl");
    RequiredLine(env, props, "duration", IsInteger);
  }

  lemma LocationMessageTableMeans(env: Env, props: Json)
    ensures Accepted(env, props, LocationMessageTable) <==>
      props.IsArray()
      && Given(props, "title") && props.fields["title"].JString? && |props.fields["title"].s| <= 100
      && Given(props, "address") && props.fields["address"].JString? && |props.fields["address"].s| <= 100
      && Given(props, "latitude") && Check(env, props.fields["latitude"], Numeric)
      && Given(props, "longitude") && Check(env, props.fields["longitude"], Numeric)
  {
    ValidateFour(env, props, FieldRule(["title"], [Required, IsString, MaxSize(100)]), FieldRule(["address"], [Required, IsString, MaxSize(100)]), FieldRule(["latitude"], [Required, Numeric]), FieldRule(["longitude"], [Required, Numeric]));
    RequiredTwoLine(env, props, "title", IsString, MaxSize(100));
    RequiredTwoLine(env, props, "address", IsString, MaxSize(100));
    RequiredLine(env, props, "latitude", Numeric);
    RequiredLine(env, props, "longitude", Numeric);
  }

  /** A validated imagemap has its base URL, alt text and both base size dimensions; the width is 1040. */
  lemma ImagemapHeadMeans(env: Env, props: Json)
    requires Accepted(env, props, ImagemapTable)
    ensures Given(props, "baseUrl") && SecureImageUrl(env, props.fields["baseUrl"])
    ensures Given(props, "altText") && props.fields["altText"].JString? && |props.fields["altText"].s| <= 400
    ensures Given(props, "baseSize") && props.fields["baseSize"].JObject?
    ensures Given(props.fields["baseSize"], "width") && Given(props.fields["baseSize"], "height")
    ensures props.fields["baseSize"].fields["width"] in {JInt(1040), JString("1040")}
    ensures IntegerValue(props.fields["baseSize"].fields["height"])
  {
    ImagemapParts(env, props);
    var t := ImagemapHead;
    Validated(env, props, t, 0);
    SecureUrlLine(env, props, "baseUrl");
    Validated(env, props, t, 1);
    RequiredTwoLine(env, props, "altText", IsString, MaxSize(400));
    Validated(env, props, t, 2);
    RequiredLine(env, props, "baseSize", IsArray);
    Validated(env, props, t, 3);
    NestedWidth1040(env, props, "baseSize", "width");
    Validated(env, props, t, 4);
    RequiredNestedLine(env, props, "baseSize", "height", IsInteger);
  }

  /** A validated template message has its alt text and a template whose type is one of the four. */
  lemma TemplateMessageTableMeans(env: Env, props: Json)
    requires Accepted(env, props, TemplateMessageTable)
    ensures Given(props, "altText") && AtMost(props, "altText", 400)
    ensures exists w :: w in TemplateTypes && NestedType(props, "template", w)
  {
    AltTextTableMeans(env, props, "template", TemplateTypes);
    var w := props.fields["template"].fields["type"].s;
    assert NestedType(props, "template", w);
  }

  /** A validated flex message has its alt text and contents whose type is 'bubble' or 'carousel'. */
  lemma FlexMessageTableMeans(env: Env, props: Json)
    requires Accepted(env, props, FlexMessageTable)
    ensures Given(props, "altText") && AtMost(props, "altText", 400)
    ensures NestedType(props, "contents", "bubble") || NestedType(props, "contents", "carousel")
  {
    AltTextTableMeans(env, props, "contents", FlexTypes);
  }

  /** The shared shape of the template and flex tables: an alt text, and an array whose type is one of some words. */
  lemma AltTextTableMeans(env: Env, props: Json, outer: string, types: set<string>)
    requires forall w :: w in types ==> |w| > 0 && !IsDigit(w[0]) && w[0] != '-'
    requires Accepted(env, props, [FieldRule(["altText"], [Required, MaxSize(400)]), FieldRule([outer], [Required, IsArray]),
                                   FieldRule([outer, "type"], [Required, InSet(types)])])
    ensures Given(props, "altText") && AtMost(props, "altText", 400)
    ensures props.JObject? && outer in props.fields && props.fields[outer].JObject? && "type" in props.fields[outer].fields
    ensures props.fields[outer].fields["type"].JString? && props.fields[outer].fields["type"].s in types
  {
    ValidateThree(env, props, FieldRule(["altText"], [Required, MaxSize(400)]), FieldRule([outer], [Required, IsArray]),
                  FieldRule([outer, "type"], [Required, InSet(types)]));
    RequiredLine(env, props, "altText", MaxSize(400));
    RequiredNestedWord(env, props, outer, "type", types);
  }

  // ---- the creator's own loops ----

  /** Builds the imagemap actions with the creator's switch, skipping an entry of any other type. */
  method CreateImagemapMessage(env: Env, props: Json) returns (r: Result<Message>)
    ensures r == ImagemapOf(env, props)
  {
    var _ :- Validate(env, props, ImagemapTable).Checked();
    var list :- Index(props, "actions");
    var actions :- CollectImagemapActions(env, list);
    var video :- VideoOf(props);
    var baseUrl :- Index(props, "baseUrl");
    var altText :- Index(props, "altText");
    var baseSize :- Index(props, "baseSize");
    var height :- Index(baseSize, "height");
    var width :- Index(baseSize, "width");
    r := Ok(ImagemapMessage(baseUrl, altText, BaseSize(height, width), actions, video));
  }

  /** The imagemap's action loop: a switch on each entry's type; an unknown type adds nothing. */
  method CollectImagemapActions(env: Env, list: Json) returns (r: Result<seq<ImagemapAction>>)
    ensures r == ImagemapActionsOf(env, list)
  {
    var items :- Elements(list);
    var actions: seq<ImagemapAction> := [];
    ghost var built: seq<Option<ImagemapAction>> := [];
    var i := 0;
    while i < |items|
      invariant i <= |items|
      invariant Traverse(items[..i], ImagemapActionBuilder(env)) == Ok(built)
      invariant actions == Kept(built)
    {
      TraverseStep(items, i, built, ImagemapActionBuilder(env));
      assert ImagemapActionBuilder(env)(items[i]) == ImagemapActionOf(env, items[i]);
      var kind :- Index(items[i], "type");
      if Matches(kind, "uri") {
        var action :- CreateImagemapUriAction(env, items[i]);
        actions := actions + [action];
        KeptAppend(built, Some(action));
        built := built + [Some(action)];
      } else if Matches(kind, "message") {
        var action :- CreateImagemapMessageAction(env, items[i]);
        actions := actions + [action];
        KeptAppend(built, Some(action));
        built := built + [Some(action)];
      } else {
        KeptAppend(built, None);
        built := built + [None];
      }
      i := i + 1;
    }
    assert items[..i] == items;
    r := Ok(actions);
  }

  /** Builds the template its type names with the template creator's own loops. */
  method CreateTemplateMessage(env: Env, props: Json) returns (r: Result<Message>)
    ensures r == TemplateMessageOf(env, props)
  {
    var _ :- Validate(env, props, TemplateMessageTable).Checked();
    TemplateMessageTableMeans(env, props);
    var template :- Index(props, "template");
    var kind :- Index(template, "type");
    var built: Result<Templates.Template>;
    if Matches(kind, "confirm") {
      built := Templates.CreateConfirmTemplate(env, template);
    } else if Matches(kind, "buttons") {
      built := Templates.CreateButtonTemplate(env, template);
    } else if Matches(kind, "carousel") {
      built := Templates.CreateCarouselTemplate(env, template);
    } else if Matches(kind, "image_carousel") {
      built := Templates.CreateImageCarouselTemplate(env, template);
    } else {
      assert false;
    }
    var t :- built;
    var altText :- Index(props, "altText");
    r := Ok(TemplateMessage(altText, t));
  }

  /** Builds a bubble, or the carousel of bubbles one by one, setting the contents after each. */
  method CreateFlexMessage(env: Env, props: Json) returns (r: Result<Message>)
    ensures r == FlexOf(env, props)
  {
    var _ :- Validate(env, props, FlexMessageTable).Checked();
    FlexMessageTableMeans(env, props);
    var container :- Index(props, "contents");
    var kind :- Index(container, "type");
    var contents: Option<FlexContents> := None;
    if Matches(kind, "bubble") {
      var bubble :- Flex.CreateBubbleContainer(env, container);
      contents := Some(BubbleContents(bubble));
    } else if Matches(kind, "carousel") {
      var list :- Index(container, "contents");
      var items :- Elements(list);
      var bubbles: seq<Flex.Bubble> := [];
      var i := 0;
      while i < |items|
        invariant i <= |items|
        invariant Traverse(items[..i], BubbleBuilder(env)) == Ok(bubbles)
        invariant contents == if bubbles == [] then None else Some(CarouselContents(bubbles))
      {
        TraverseStep(items, i, bubbles, BubbleBuilder(env));
        var bubble :- Flex.CreateBubbleContainer(env, items[i]);
        bubbles := bubbles + [bubble];
        contents := Some(CarouselContents(bubbles));
        i := i + 1;
      }
      assert items[..i] == items;
    } else {
      assert false;
    }
    var altText :- Index(props, "altText");
    r := Ok(FlexMessage(altText, contents));
  }

  /** Validates the type and hands the properties to the builder of that kind. */
  method CreateMessage(env: Env, props: Json) returns (r: Result<Message>)
    ensures r == MessageOf(env, props)
  {
    var _ :- Validate(env, props, MessageTypeTable).Checked();
    var kind :- Index(props, "type");
    if Matches(kind, "text") {
      r := CreateTextMessage(env, props);
    } else if Matches(kind, "sticker") {
      r := CreateStickerMessage(env, props);
    } else if Matches(kind, "image") {
      r := CreateImageMessage(env, props);
    } else if Matches(kind, "video") {
      r := CreateVideoMessage(env, props);
    } else if Matches(kind, "audio") {
      r := CreateAudioMessage(env, props);
    } else if Matches(kind, "location") {
      r := CreateLocationMessage(env, props);
    } else if Matches(kind, "imagemap") {
      r := CreateImagemapMessage(env, props);
    } else if Matches(kind, "template") {
      r := CreateTemplateMessage(env, props);
    } else if Matches(kind, "flex") {
      r := CreateFlexMessage(env, props);
    } else {
      r := Err(InvalidMessageType);
    }
  }

  /** The SDK's multi-message builder: the messages added so far, in order. */
  class MultiMessageBuilder {
    var messages: seq<Message>

    constructor()
      ensures messages == []
    {
      messages := [];
    }

    method Add(message: Message)
      modifies this
      ensures messages == old(messages) + [message]
    {
      messages := messages + [message];
    }
  }

  /** Adds one built message per entry, in order; a failing entry abandons the builder. */
  method CreateMessages(env: Env, config: Json) returns (r: Result<MultiMessageBuilder>)
    ensures r.Ok? ==> fresh(r.value) && MessagesOf(env, config) == Ok(r.value.messages)
    ensures r.Err? ==> MessagesOf(env, config) == Err(r.error)
  {
    var builder := new MultiMessageBuilder();
    var items :- Elements(config);
    var i := 0;
    while i < |items|
      invariant i <= |items|
      invariant Traverse(items[..i], MessageBuilder(env)) == Ok(builder.messages)
    {
      TraverseStep(items, i, builder.messages, MessageBuilder(env));
      var message :- CreateMessage(env, items[i]);
      builder.Add(message);
      i := i + 1;
    }
    assert items[..i] == items;
    r := Ok(builder);
  }
}
