# LINE bot message creators, modelled in Dafny

The Laravel package `line-bot-sdk-wrapper` turns a plain PHP array into the
LINE Messaging SDK's message builders. Its core is a validating, recursive
translator. Each `create…` method:

- runs a Laravel rule table over its input (`LINEBotUtil::validate`, which
  checks the whole table and throws if any rule fails);
- reads the keys it needs;
- calls the creators of the nested parts: actions, flex components,
  bubbles and templates;
- returns the SDK builder for the part.

This project models those creators as Dafny functions on a JSON-like value
and proves what each one accepts and what it builds.

## What the model consists of

- `values.dfy` (module `Values`). It holds the following:
  - the input tree `Json` (null, booleans, integers, strings, lists, and
    string-keyed objects);
  - the failure kinds `Error`;
  - `Result` and `Option`;
  - PHP's `isset`, an unguarded index `$x[$k]`, and `foreach`;
  - `Traverse`, the list a `foreach` loop builds, or its first error.
- `validation.dfy` (module `Validation`). It models the Laravel validator
  on the rules the creators use:
  - `required` (the only implicit rule), `string`, `integer`, `boolean`,
    `array`, `max`, `min` and `in`;
  - `integer` as PHP's `filter_var` with `FILTER_VALIDATE_INT` reads it:
    surrounding blanks are trimmed, a sign is allowed, leading zeros are not,
    and the value must fit in a 64-bit integer;
  - a rule string that names no validator method (`Unparsed`), which throws
    whenever it is applied;
  - the scheme regex and the https-host regex, written out as predicates;
  - `active_url`, `date` and `numeric`, which are oracles in `Env`;
  - dotted paths and `list.*.key` entries.

  `Validate` passes, or reports "not an array", or names the attribute of
  the first rule line that fails; every line before that one holds. Per-rule lemmas
  restate each rule line in terms of the input.
- `actions.dfy` (module `Actions`) models `LINEBotActionCreator`.
- `flex.dfy` (module `Flex`) models `LINEBotBubbleCreator`: the bubble, its
  styles, and the eight component kinds. Boxes nest recursively.
- `templates.dfy` (module `Templates`) models `LINEBotTemplateCreator`.
- `messages.dfy` (module `Messages`) models `LINEBotMessageCreator`:
  - the nine message kinds;
  - the dispatcher;
  - the batch built into a `MultiMessageBuilder`.

### The `…Of` functions and the `Create…` methods

Each creator has two forms.

- A pure specification function, `…Of` or `Create…`. Together with its
  partner lemmas, its contract states:
  - exactly when the creator succeeds, as a condition on the input. For the
    leaf creators this is an `<==>` on the function itself. For the box, the
    bubble, the imagemap, the template message and the flex message it is a
    partner lemma named `…Builds`;
  - what each field of the built object holds;
  - which nested creator built each nested part.
- Where the PHP code works step by step, a method. This covers a `foreach`
  that appends to a list and a builder configured through setters. Each
  such method is proved equal to its specification function.

An exception thrown by the validator, and a PHP notice about an undefined
index (which Laravel turns into an exception), are both an `Err`.

### Semantics that come from PHP and Laravel

- `switch ($props['type'])` compares loosely, as in PHP 8: a case label
  matches the same string, or the boolean `true`.
- `createUriAction` takes its desktop URI from the flat key
  `altUri.desktop`. The rule table checks the nested path
  `altUri` → `desktop` instead. The model follows the code: it validates
  the nested value and reads the flat key.

## Model

| member | source | states |
|---|---|---|
| Validation.Validate | src/Utils/LINEBotUtil.php:18-24 | "not an array" is reported exactly when the input is not an array; any other rejection names the attribute of the first failing rule line, every earlier line holding |
| Validation.ValidateOk | src/Utils/LINEBotUtil.php:18-24 | validation passes exactly when the input is an array and every line of the rule table holds |
| Validation.NestedWidth1040 | src/Creators/LINEBotMessageCreator.php:248 | a `required`, `integer`, `in:1040` line on a nested key holds only for the integer 1040 or the text "1040" |
| Actions.ActionTableMeans | line-bot-sdk-wrapper/src/Creators/LINEBotActionCreator.php:27-29 | the type table accepts exactly an array whose `type` is given and one of the seven action kinds; a string type among them is accepted |
| Actions.CreateAction | line-bot-sdk-wrapper/src/Creators/LINEBotActionCreator.php:25-58 | a missing or unknown type is an error; each of the seven type strings yields exactly what that kind's creator yields |
| Actions.LabelTableMeans | line-bot-sdk-wrapper/src/Creators/LINEBotActionCreator.php:168-170 | the label-only table accepts exactly an array whose label, if present, has at most 20 characters |
| Actions.PostbackTableMeans | line-bot-sdk-wrapper/src/Creators/LINEBotActionCreator.php:69-73 | the postback table accepts exactly: label at most 20; data and displayText given, at most 300 each |
| Actions.CreatePostbackAction | line-bot-sdk-wrapper/src/Creators/LINEBotActionCreator.php:66-78 | succeeds exactly on inputs the rules accept; the action carries the label (empty by default), data and displayText; failures are validation failures |
| Actions.MessageTableMeans | line-bot-sdk-wrapper/src/Creators/LINEBotActionCreator.php:89-92 | the message-action table accepts exactly: label at most 20; text given and at most 300 |
| Actions.CreateMessageAction | line-bot-sdk-wrapper/src/Creators/LINEBotActionCreator.php:86-97 | succeeds exactly on accepted inputs; the action carries the label and the text |
| Actions.UriFieldMeans | line-bot-sdk-wrapper/src/Creators/LINEBotActionCreator.php:110 | the URI rule line holds exactly when the key is given and holds a string of at most 1000 characters starting with http, https, line or tel and `://` |
| Actions.UriTableMeans | line-bot-sdk-wrapper/src/Creators/LINEBotActionCreator.php:108-112 | the URI table accepts exactly: label at most 20; uri a valid URI text; the nested desktop URI, when present and not blank, a valid URI text |
| Actions.CreateUriAction | line-bot-sdk-wrapper/src/Creators/LINEBotActionCreator.php:105-121 | succeeds exactly on accepted inputs; the label defaults to the URI's first 20 characters; the alternative URI is built exactly when the flat `altUri.desktop` key is set |
| Actions.DatetimePickerTableMeans | line-bot-sdk-wrapper/src/Creators/LINEBotActionCreator.php:135-142 | the picker table accepts exactly: label at most 20; data given, at most 300; mode one of date, time, datetime; initial, max and min dates when present |
| Actions.CreateDatetimePickerAction | line-bot-sdk-wrapper/src/Creators/LINEBotActionCreator.php:129-156 | succeeds exactly on accepted inputs; initial, max and min stay null unless set |
| Actions.CreateCameraAction | line-bot-sdk-wrapper/src/Creators/LINEBotActionCreator.php:164-175 | succeeds exactly when the label rule holds; the action carries only the label |
| Actions.CreateCameraRollAction | line-bot-sdk-wrapper/src/Creators/LINEBotActionCreator.php:183-194 | succeeds exactly when the label rule holds; the action carries only the label |
| Actions.CreateLocationAction | line-bot-sdk-wrapper/src/Creators/LINEBotActionCreator.php:202-213 | succeeds exactly when the label rule holds; the action carries only the label |
| Actions.AreaRulesMean | line-bot-sdk-wrapper/src/Creators/LINEBotActionCreator.php:225-229 | the area table accepts exactly an array whose `area` is a given array with given integer x, y, width and height |
| Actions.ImagemapTableMeans | line-bot-sdk-wrapper/src/Creators/LINEBotActionCreator.php:223-230 | an imagemap action table (one leading line, then the area lines) accepts exactly an array with that line holding and a valid area |
| Actions.CreateImagemapUriAction | line-bot-sdk-wrapper/src/Creators/LINEBotActionCreator.php:221-236 | succeeds exactly when linkUri is a valid URI text and the area is valid; the area's coordinates are passed in constructor order |
| Actions.CreateImagemapMessageAction | line-bot-sdk-wrapper/src/Creators/LINEBotActionCreator.php:244-259 | succeeds exactly when text is given with at most 400 characters and the area is valid; builds the text and the area |
| Flex.ComponentTableMeans | line-bot-sdk-wrapper/src/Creators/LINEBotBubbleCreator.php:147-149 | the type table accepts exactly a given type among the eight component kinds |
| Flex.ComponentOf | line-bot-sdk-wrapper/src/Creators/LINEBotBubbleCreator.php:145-181 | a missing or unknown type is an error |
| Flex.ComponentKinds | line-bot-sdk-wrapper/src/Creators/LINEBotBubbleCreator.php:145-164 | a component typed box, text, button or image yields exactly what that kind's creator yields |
| Flex.LeafKinds | line-bot-sdk-wrapper/src/Creators/LINEBotBubbleCreator.php:145-176 | a component typed icon, separator, filler or spacer yields exactly what that kind's creator yields, past the earlier cases |
| Flex.CreateComponent | line-bot-sdk-wrapper/src/Creators/LINEBotBubbleCreator.php:145-181 | the dispatching method builds exactly `ComponentOf` |
| Flex.ComponentsOf | line-bot-sdk-wrapper/src/Creators/LINEBotBubbleCreator.php:234-237 | building the children of a box yields one component per child |
| Flex.ComponentsTraverse | line-bot-sdk-wrapper/src/Creators/LINEBotBubbleCreator.php:234-237 | the children are built by the same loop as the generic `foreach` traversal with the component creator |
| Flex.BoxHeadMeans | line-bot-sdk-wrapper/src/Creators/LINEBotBubbleCreator.php:195-198 | the first three box lines force type `box`, a layout among the allowed ones, and a given `contents` array |
| Flex.BoxRequired | line-bot-sdk-wrapper/src/Creators/LINEBotBubbleCreator.php:195-219 | an accepted box has type `box`, an allowed layout, a given `contents` array, and spacing and margin among none..xxl when present |
| Flex.BoxOf | line-bot-sdk-wrapper/src/Creators/LINEBotBubbleCreator.php:189-289 | a built box passed its rule table and has exactly one child per entry of a non-empty `contents` list |
| Flex.BoxBuilds | line-bot-sdk-wrapper/src/Creators/LINEBotBubbleCreator.php:189-289 | a box is built exactly when its rules pass, its action (if set) builds and every child builds; it holds the layout, flex, spacing, margin, the action creator's action, and the frame, padding and placement setters' values |
| Flex.OptionalAction | line-bot-sdk-wrapper/src/Creators/LINEBotBubbleCreator.php:230-232 | the action of a box, text or image reads exactly when, if set, the action creator builds it; it is then that action, and null otherwise |
| Flex.BoxChildren | line-bot-sdk-wrapper/src/Creators/LINEBotBubbleCreator.php:234-238 | each child of a built box is what the component creator builds from the matching entry, in order |
| Flex.SetFrame | line-bot-sdk-wrapper/src/Creators/LINEBotBubbleCreator.php:239-256 | each of the six colour and size setters replaces its field only when the key is set |
| Flex.SetPadding | line-bot-sdk-wrapper/src/Creators/LINEBotBubbleCreator.php:257-271 | each of the five padding setters replaces its field only when the key is set |
| Flex.Place | line-bot-sdk-wrapper/src/Creators/LINEBotBubbleCreator.php:272-287 | position and the four offsets are replaced only when their keys are set |
| Flex.CreateBoxComponent | line-bot-sdk-wrapper/src/Creators/LINEBotBubbleCreator.php:189-289 | the method (child loop, then setters) builds exactly `BoxOf` |
| Flex.TextAccepted | line-bot-sdk-wrapper/src/Creators/LINEBotBubbleCreator.php:310-330 | an accepted text has size, weight, style and decoration among their allowed words |
| Flex.TextOf | line-bot-sdk-wrapper/src/Creators/LINEBotBubbleCreator.php:297-400 | built exactly when the rules pass, the action (if set) builds and the spans (if set) build; the action is the action creator's; without contents the text defaults to '' and there are no spans; with contents the text is the first span's text and the spans match the entries in order; every other field is the optional key |
| Flex.TextSpans | line-bot-sdk-wrapper/src/Creators/LINEBotBubbleCreator.php:389-397 | each span of a built text is what the span creator builds from the matching entry, in order |
| Flex.CreateTextComponent | line-bot-sdk-wrapper/src/Creators/LINEBotBubbleCreator.php:297-400 | the method (setters, span loop) builds exactly `TextOf` |
| Flex.ButtonActionGiven | line-bot-sdk-wrapper/src/Creators/LINEBotBubbleCreator.php:416-431 | an accepted button has a given `action` array |
| Flex.ButtonAccepted | line-bot-sdk-wrapper/src/Creators/LINEBotBubbleCreator.php:416-429 | an accepted button has height, style, gravity and position among their allowed words |
| Flex.ButtonOf | line-bot-sdk-wrapper/src/Creators/LINEBotBubbleCreator.php:408-470 | built exactly when the rules pass and the required action builds; the action is the action creator's; every other field is the optional key or the placement |
| Flex.CreateButtonComponent | line-bot-sdk-wrapper/src/Creators/LINEBotBubbleCreator.php:408-470 | the method builds exactly `ButtonOf` |
| Flex.ImageAccepted | line-bot-sdk-wrapper/src/Creators/LINEBotBubbleCreator.php:489-505 | an accepted image has a reachable https URL with a dotted host; size (including `full`), aspect mode, align and gravity are allowed words |
| Flex.ImageOf | line-bot-sdk-wrapper/src/Creators/LINEBotBubbleCreator.php:478-554 | built exactly when the rules pass and the action (if set) builds; carries the URL, the action creator's action, and every optional field and the placement |
| Flex.CreateImageComponent | line-bot-sdk-wrapper/src/Creators/LINEBotBubbleCreator.php:478-554 | the method builds exactly `ImageOf` |
| Flex.IconAccepted | line-bot-sdk-wrapper/src/Creators/LINEBotBubbleCreator.php:567-577 | an accepted icon has a reachable https URL with a dotted host; size and margin are allowed words |
| Flex.IconOf | line-bot-sdk-wrapper/src/Creators/LINEBotBubbleCreator.php:562-608 | built exactly when the rules pass; carries the URL, margin, size, aspect ratio and placement |
| Flex.CreateIconComponent | line-bot-sdk-wrapper/src/Creators/LINEBotBubbleCreator.php:562-608 | the method builds exactly `IconOf` |
| Flex.SpanRequired | line-bot-sdk-wrapper/src/Creators/LINEBotBubbleCreator.php:624-632 | an accepted span has type `span` |
| Flex.CreateSpanComponent | line-bot-sdk-wrapper/src/Creators/LINEBotBubbleCreator.php:616-653 | succeeds exactly on accepted inputs; type is `span`; the text defaults to ''; size, color, weight, style and decoration are each null unless set |
| Flex.SeparatorTableMeans | line-bot-sdk-wrapper/src/Creators/LINEBotBubbleCreator.php:665-668 | the separator table accepts exactly: margin an allowed word, color a string, each when present |
| Flex.CreateSeparatorComponent | line-bot-sdk-wrapper/src/Creators/LINEBotBubbleCreator.php:661-676 | succeeds exactly on accepted inputs; margin and color stay null unless set |
| Flex.SingleLineTableMeans | line-bot-sdk-wrapper/src/Creators/LINEBotBubbleCreator.php:687-689 | a one-line table with one non-required rule accepts exactly an array where that rule holds of the key when present |
| Flex.CreateFillerComponent | line-bot-sdk-wrapper/src/Creators/LINEBotBubbleCreator.php:684-694 | succeeds exactly when flex, if present, is an integer; flex stays null unless set |
| Flex.CreateSpacerComponent | line-bot-sdk-wrapper/src/Creators/LINEBotBubbleCreator.php:702-712 | succeeds exactly when size, if present, is an allowed size; size stays null unless set |
| Flex.BlockStyleTableMeans | line-bot-sdk-wrapper/src/Creators/LINEBotBubbleCreator.php:128-132 | the block style table accepts exactly an array whose three keys are strings when present |
| Flex.CreateBlockStyle | line-bot-sdk-wrapper/src/Creators/LINEBotBubbleCreator.php:123-143 | succeeds exactly on accepted inputs; the three fields stay null unless set |
| Flex.OptionalBlockStyle | line-bot-sdk-wrapper/src/Creators/LINEBotBubbleCreator.php:102-113 | a block style reads exactly when, if set, the block style creator builds it; it is then that style, and null otherwise |
| Flex.CreateBubbleStyle | line-bot-sdk-wrapper/src/Creators/LINEBotBubbleCreator.php:89-115 | built exactly when the rules pass and each set block style builds; each block is absent unless its key is set, and is then the block style built from it |
| Flex.HeroOf | line-bot-sdk-wrapper/src/Creators/LINEBotBubbleCreator.php:58-69 | a hero of type box is a box, of type image an image, and of any other string type null; a hero without a type fails |
| Flex.OptionalBox | line-bot-sdk-wrapper/src/Creators/LINEBotBubbleCreator.php:55-75 | a header, body or footer is present exactly when its key is set, and is then the box built from it |
| Flex.BubbleAccepted | line-bot-sdk-wrapper/src/Creators/LINEBotBubbleCreator.php:39-47 | an accepted bubble has size and direction among their allowed words |
| Flex.CreateBubbleContainer | line-bot-sdk-wrapper/src/Creators/LINEBotBubbleCreator.php:30-81 | a built bubble passed its rules; size and direction are passed through; each block and the styles are present exactly when their key is set and are built by the matching creator |
| Flex.BubbleBuilds | line-bot-sdk-wrapper/src/Creators/LINEBotBubbleCreator.php:30-81 | a bubble is built exactly when its rules pass and each set header, hero, body, footer and styles builds |
| Templates.ActionsOf | line-bot-sdk-wrapper/src/Creators/LINEBotTemplateCreator.php:36-39 | an action list is built exactly when it is iterable and every entry builds; the actions match the entries one for one, in order |
| Templates.CreateActions | line-bot-sdk-wrapper/src/Creators/LINEBotTemplateCreator.php:36-39 | the loop builds exactly `ActionsOf` |
| Templates.ConfirmTableMeans | line-bot-sdk-wrapper/src/Creators/LINEBotTemplateCreator.php:32-35 | the confirm table accepts exactly: text given, at most 240; actions a given array of exactly two entries |
| Templates.ConfirmOf | line-bot-sdk-wrapper/src/Creators/LINEBotTemplateCreator.php:30-41 | succeeds exactly when the rules pass and every action builds; it holds the text and exactly two actions built from the entries in order |
| Templates.CreateConfirmTemplate | line-bot-sdk-wrapper/src/Creators/LINEBotTemplateCreator.php:30-41 | the method builds exactly `ConfirmOf` |
| Templates.ButtonActionsLimit | line-bot-sdk-wrapper/src/Creators/LINEBotTemplateCreator.php:58-67 | an accepted buttons template has a given text and at most four listed actions |
| Templates.ButtonTemplateAccepted | line-bot-sdk-wrapper/src/Creators/LINEBotTemplateCreator.php:58-67 | an accepted buttons template has title at most 40, text at most 160, an allowed aspect ratio and image size, and no thumbnail other than an absent or blank one |
| Templates.ButtonTemplateOf | line-bot-sdk-wrapper/src/Creators/LINEBotTemplateCreator.php:49-94 | succeeds exactly when the rules pass, the default action (if set) builds and every action builds; defaults are rectangle, cover and #FFFFFF; at most four actions, in order |
| Templates.ButtonThumbnailRejected | line-bot-sdk-wrapper/src/Creators/LINEBotTemplateCreator.php:59 | a thumbnail that is present and not a blank string makes validation fail on `thumbnailImageUrl`, so no buttons template is built |
| Templates.CreateButtonTemplate | line-bot-sdk-wrapper/src/Creators/LINEBotTemplateCreator.php:49-94 | the method (setters, action loop) builds exactly `ButtonTemplateOf` |
| Templates.ColumnActionsLimit | line-bot-sdk-wrapper/src/Creators/LINEBotTemplateCreator.php:158-164 | an accepted column has a given text and at most three listed actions |
| Templates.CarouselColumnAccepted | line-bot-sdk-wrapper/src/Creators/LINEBotTemplateCreator.php:158-164 | an accepted column has title at most 40 and text at most 120 |
| Templates.CarouselColumnOf | line-bot-sdk-wrapper/src/Creators/LINEBotTemplateCreator.php:152-182 | succeeds exactly when the rules pass and every action builds; the background defaults to #FFFFFF; at most three actions, in order |
| Templates.CreateCarouselColumnTemplate | line-bot-sdk-wrapper/src/Creators/LINEBotTemplateCreator.php:152-182 | the method builds exactly `CarouselColumnOf` |
| Templates.ColumnsLimit | line-bot-sdk-wrapper/src/Creators/LINEBotTemplateCreator.php:106-109 | an accepted carousel has a given `columns` array of at most ten listed entries |
| Templates.CarouselOf | line-bot-sdk-wrapper/src/Creators/LINEBotTemplateCreator.php:102-125 | succeeds exactly when the rules pass and every column builds; at most ten columns, in order; aspect ratio and size default to rectangle and cover |
| Templates.CreateCarouselTemplate | line-bot-sdk-wrapper/src/Creators/LINEBotTemplateCreator.php:102-125 | the column loop builds exactly `CarouselOf` |
| Templates.ImageColumnTableMeans | line-bot-sdk-wrapper/src/Creators/LINEBotTemplateCreator.php:192-195 | the image column table accepts exactly: a reachable https image URL with a dotted host, and a given `action` array |
| Templates.CreateImageCarouselColumnTemplate | line-bot-sdk-wrapper/src/Creators/LINEBotTemplateCreator.php:190-200 | succeeds exactly when the rules pass and the action builds; holds that URL and that action |
| Templates.ImageCarouselOf | line-bot-sdk-wrapper/src/Creators/LINEBotTemplateCreator.php:133-144 | succeeds exactly when the rules pass and every column builds; at most ten columns, in order |
| Templates.CreateImageColumns | line-bot-sdk-wrapper/src/Creators/LINEBotTemplateCreator.php:139-142 | the column loop builds each image column in order and stops at the first failure, exactly as `Traverse` with the column builder |
| Templates.CreateImageCarouselTemplate | line-bot-sdk-wrapper/src/Creators/LINEBotTemplateCreator.php:133-144 | the column loop builds exactly `ImageCarouselOf` |
| Messages.MessageTypeTableMeans | src/Creators/LINEBotMessageCreator.php:58-60 | the message table accepts exactly an array with a given type |
| Messages.MessageOf | src/Creators/LINEBotMessageCreator.php:56-96 | a missing type fails validation; an unknown type is `Invalid message type.` |
| Messages.MessageKinds | src/Creators/LINEBotMessageCreator.php:56-78 | a text, sticker, image, video or audio message yields exactly its creator's result |
| Messages.RichMessageKinds | src/Creators/LINEBotMessageCreator.php:56-90 | a location, imagemap, template or flex message yields exactly its creator's result, past the earlier cases |
| Messages.CreateMessage | src/Creators/LINEBotMessageCreator.php:56-96 | the dispatching method builds exactly `MessageOf` |
| Messages.TextMessageTableMeans | src/Creators/LINEBotMessageCreator.php:146-148 | the text table accepts exactly an array with a given text |
| Messages.CreateTextMessage | src/Creators/LINEBotMessageCreator.php:144-151 | succeeds exactly when text is given; the message holds it |
| Messages.StickerTableMeans | src/Creators/LINEBotMessageCreator.php:161-164 | the sticker table accepts exactly given string packageId and stickerId |
| Messages.CreateStickerMessage | src/Creators/LINEBotMessageCreator.php:159-167 | succeeds exactly on accepted inputs; the message holds both ids |
| Messages.MediaTableMeans | src/Creators/LINEBotMessageCreator.php:177-180 | the image/video table accepts exactly two given, reachable https URLs with dotted hosts |
| Messages.CreateImageMessage | src/Creators/LINEBotMessageCreator.php:175-183 | succeeds exactly on accepted inputs; the message holds both URLs |
| Messages.CreateVideoMessage | src/Creators/LINEBotMessageCreator.php:191-199 | succeeds exactly on accepted inputs; the message holds both URLs |
| Messages.AudioTableMeans | src/Creators/LINEBotMessageCreator.php:209-212 | the audio table accepts exactly a given secure URL and a given integer duration |
| Messages.CreateAudioMessage | src/Creators/LINEBotMessageCreator.php:207-215 | succeeds exactly on accepted inputs; the message holds the URL and the duration |
| Messages.LocationMessageTableMeans | src/Creators/LINEBotMessageCreator.php:225-230 | the location table accepts exactly: title and address given strings of at most 100; latitude and longitude given and numeric |
| Messages.CreateLocationMessage | src/Creators/LINEBotMessageCreator.php:223-233 | succeeds exactly on accepted inputs; the message holds the four values in order |
| Messages.ImagemapHeadMeans | src/Creators/LINEBotMessageCreator.php:244-249 | an accepted imagemap has a secure base URL, alt text of at most 400, and a base size whose width is 1040 and whose height is an integer |
| Messages.ImagemapParts | src/Creators/LINEBotMessageCreator.php:244-263 | an accepted imagemap passes the head lines and the action lines on their own |
| Messages.EntryTyped | src/Creators/LINEBotMessageCreator.php:262 | under the `actions.*.type` line every listed entry has type uri or message |
| Messages.ActionEntriesTyped | src/Creators/LINEBotMessageCreator.php:261-262 | an accepted imagemap has at most 50 action entries, each typed uri or message |
| Messages.ImagemapActionOf | src/Creators/LINEBotMessageCreator.php:267-276 | a uri entry yields the imagemap URI action, a message entry the imagemap message action |
| Messages.ImagemapActionsOf | src/Creators/LINEBotMessageCreator.php:265-277 | the loop keeps at most one action per entry |
| Messages.ImagemapActionsBuild | src/Creators/LINEBotMessageCreator.php:265-277 | the action list is built exactly when it is iterable and every entry builds |
| Messages.CollectImagemapActions | src/Creators/LINEBotMessageCreator.php:265-277 | the loop with its switch builds exactly `ImagemapActionsOf` |
| Messages.TypedActionsKept | src/Creators/LINEBotMessageCreator.php:265-277 | when every entry is typed uri or message, there is exactly one action per entry, in order, built by the matching creator |
| Messages.ExternalLinkOf | src/Creators/LINEBotMessageCreator.php:282-284 | the external link reads exactly when, if set, it has both linkUri and label; it is built exactly when set, from those two values |
| Messages.VideoOf | src/Creators/LINEBotMessageCreator.php:279-291 | the video reads exactly when, if set, it has both URLs, an area with x, y, width and height, and a readable external link; it is present exactly when set and carries both URLs, that area and that link |
| Messages.ImagemapOf | src/Creators/LINEBotMessageCreator.php:241-300 | a built imagemap passed its rules; holds base URL, alt text and base size (height, width); has a video exactly when one is set; its actions are the loop's |
| Messages.ImagemapBuilds | src/Creators/LINEBotMessageCreator.php:241-300 | an imagemap is built exactly when its rules pass, the actions are given and build, and the video reads; the video is the one `VideoOf` reads |
| Messages.ImagemapActions | src/Creators/LINEBotMessageCreator.php:241-300 | a built imagemap has at most 50 actions, one per entry, in order, each built by the creator its type names |
| Messages.CreateImagemapMessage | src/Creators/LINEBotMessageCreator.php:241-300 | the method (validation, action loop, then video) builds exactly `ImagemapOf` |
| Messages.TemplateMessageTableMeans | src/Creators/LINEBotMessageCreator.php:310-314 | an accepted template message has alt text of at most 400 and a template type among the four kinds |
| Messages.TemplateMessageOf | src/Creators/LINEBotMessageCreator.php:308-335 | a built message holds the alt text; its template type is one of the four; the template is what the matching template creator builds |
| Messages.TemplateMessageBuilds | src/Creators/LINEBotMessageCreator.php:308-335 | a rejected template message is an error; for each of the four template types an accepted message is built exactly when that template creator succeeds |
| Messages.CreateTemplateMessage | src/Creators/LINEBotMessageCreator.php:308-335 | the method builds exactly `TemplateMessageOf` |
| Messages.FlexMessageTableMeans | src/Creators/LINEBotMessageCreator.php:345-349 | an accepted flex message has alt text of at most 400 and a contents type of bubble or carousel |
| Messages.FlexCarouselOf | src/Creators/LINEBotMessageCreator.php:357-361 | a carousel is built exactly when every bubble builds; an empty list leaves the contents null; otherwise the bubbles match the entries in order |
| Messages.FlexOf | src/Creators/LINEBotMessageCreator.php:343-368 | a built message holds the alt text; a bubble is the bubble creator's result; a carousel is built from the inner contents list |
| Messages.FlexBuilds | src/Creators/LINEBotMessageCreator.php:343-368 | a rejected flex message is an error; an accepted bubble message is built exactly when the bubble builds, a carousel message exactly when its inner list is present and every bubble builds |
| Messages.CreateFlexMessage | src/Creators/LINEBotMessageCreator.php:343-368 | the method (carousel loop rebuilding the container each pass) builds exactly `FlexOf` |
| Messages.MultiMessageBuilder.constructor | src/Creators/LINEBotMessageCreator.php:118 | a new multi-message builder holds no messages |
| Messages.MultiMessageBuilder.Add | src/Creators/LINEBotMessageCreator.php:121 | adding appends the message and keeps the earlier ones |
| Messages.MessagesOf | src/Creators/LINEBotMessageCreator.php:116-124 | a batch is built exactly when it is iterable and every entry builds; the messages match the entries in order; a failure is the failure of the first entry that fails, every earlier entry building |
| Messages.CreateMessages | src/Creators/LINEBotMessageCreator.php:116-124 | the loop returns a fresh builder whose messages are `MessagesOf`, or the same error |

## Left out

- `replyMessage` sends the built message over the network. It is I/O and is not modelled.
- `createMessageFromJson` and `createMessagesFromJson` only run `json_decode` before the creators. Decoding is not modelled: the input is already a `Json` tree.
- The service provider and the facade only wire the creators into Laravel's container. They are not modelled.
- The validator's error text is not modelled. A failure is reported only as the attribute of the first failing line, or as "not an array".
- `active_url` needs a DNS lookup and `date` needs PHP's date parser. `numeric` depends on PHP's numeric-string grammar. All three are oracle predicates in `Env`.
- `Actions.CreateUriAction`: the default label is the URI's first 20 characters. PHP's `substr` counts bytes, not characters.
- A `foreach` over any non-empty object yields `UnorderedIteration`, even over an object keyed "0" to "n-1", which PHP decodes into the same array as a list. A Dafny `map` has no insertion order, so the model builds nothing from a non-empty object. Only the first-element read `$x[0]` (`IndexFirst`) also accepts an object's key "0".
- The `in` rule compares `(string)$value` to the allowed words. Loose PHP comparison of numeric strings is not modelled, so the imagemap width `in:1040` accepts only the integer 1040 or the exact string "1040", where PHP also accepts texts such as " 1040", "+1040" or "1040 ".
- Templates.ButtonTemplateOf: the rule array for the thumbnail URL holds the single string `max|1000`, which is not split on `|` and names no validator method, so Laravel throws a `BadMethodCallException` whenever it applies it. The model reports this as the validation failure `Invalid(["thumbnailImageUrl"])` (`ButtonThumbnailRejected`); the kind of exception is not kept.
- The imagemap rule for the video area's x coordinate is keyed by `video.area.x` followed by a tab character. That key is kept literally, so the rule never finds a value and x is never validated.
- Floating-point values are not part of `Json`. A latitude or longitude arrives as an integer or as numeric text.
- Failure kinds are coarse. Indexing a scalar counts as an undefined index. A PHP `TypeError` thrown inside the SDK builders is not distinguished.
- The SDK builders are modelled as immutable values. Aliasing between builder objects, and the SDK's JSON serialisation of them, are not modelled.
- Some dispatch defaults cannot be reached after validation: the `default:` branches of the action, component, template and flex switches. They are proved unreachable rather than modelled.
