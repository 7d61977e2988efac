/** Request translation: a caller's chat-completion request, whose message `content` is either a
    string or an array of typed items, becomes the backend's text or multimodal request, in which
    every message carries an ordered list of content items. */
module Models {
  import opened Wrappers

  /** The item `type` given to a message whose content is a plain string. */
  const TextType: string := "text"

  /** The item `type` that makes a request multimodal. */
  const ImageType: string := "input_image"

  /** One element of an array-valued `content`. A JSON object is seen through the three fields the
      translator reads; each is `Some` only when the field is present and holds a string (for
      `imageUrl`: when `image_url` is an object whose `url` is a string). Any other JSON value is
      `NonMap`. */
  datatype RawItem =
    | MapItem(kind: Option<string>, text: Option<string>, imageUrl: Option<string>)
    | NonMap

  /** The decoded `content` of one caller message: a string, an array, or anything else
      (a number, an object, null). */
  datatype RawContent = Str(s: string) | Arr(items: seq<RawItem>) | Other

  datatype OpenAIInput = OpenAIInput(role: string, content: RawContent)

  datatype OpenAIRequest = OpenAIRequest(model: string, messages: seq<OpenAIInput>, stream: bool)

  /** The part of the gateway's configuration the translator reads; `modelMap` is `None` when the
      configuration has no model map (a nil Go map). */
  datatype Config = Config(defaultAgentId: string, defaultSecretKey: string, modelMap: Option<map<string, string>>)

  datatype ContentItem = ContentItem(kind: string, text: string, imageUrl: Option<string>)

  datatype PrivateMessage = PrivateMessage(role: string, content: seq<ContentItem>)

  /** The two backend request shapes; they carry the same fields. */
  datatype PrivateRequest =
    | TextRequest(agentId: string, secretKey: string, serviceName: string,
                  messages: seq<PrivateMessage>, stream: bool)
    | MultiModalRequest(agentId: string, secretKey: string, serviceName: string,
                        messages: seq<PrivateMessage>, stream: bool)

  /** Why a translation fails. `UntypedItem` stands for the Go runtime panic raised when an object
      element of an array content has no string `type`. */
  datatype TranslateError = EmptyMessages | UnsupportedContent | UntypedItem

  // ---------------------------------------------------------------------------------------------
  // Specification
  // ---------------------------------------------------------------------------------------------

  /** The backend service a caller's model label is routed to. */
  function ServiceName(model: string, config: Config): string
  {
    if config.modelMap.Some? && model in config.modelMap.value then config.modelMap.value[model] else model
  }

  predicate IsImageItem(item: RawItem)
  {
    item.MapItem? && item.kind == Some(ImageType)
  }

  /** Array content with an object element whose `type` is the string "input_image";
      string content never qualifies. */
  predicate ContentHasImage(content: RawContent)
  {
    content.Arr? && exists i :: 0 <= i < |content.items| && IsImageItem(content.items[i])
  }

  predicate HasImage(messages: seq<OpenAIInput>)
  {
    exists j :: 0 <= j < |messages| && ContentHasImage(messages[j].content)
  }

  /** What one array element contributes: nothing for a non-object, one item for an object. */
  function ItemOf(item: RawItem): Result<seq<ContentItem>, TranslateError>
  {
    match item
    case NonMap => Ok([])
    case MapItem(kind, text, imageUrl) =>
      if kind.None? then Err(UntypedItem)
      else Ok([ContentItem(kind.value, if text.Some? then text.value else "", imageUrl)])
  }

  /** The content items of an array, built left to right as the source's append loop does. */
  function ItemsOf(items: seq<RawItem>): (r: Result<seq<ContentItem>, TranslateError>)
    ensures r.Ok? ==> |r.value| <= |items|
    ensures r.Err? ==> r.error == UntypedItem
    decreases |items|
  {
    if items == [] then Ok([])
    else
      match ItemsOf(items[..|items| - 1])
      case Err(e) => Err(e)
      case Ok(prefix) =>
        match ItemOf(items[|items| - 1])
        case Err(e) => Err(e)
        case Ok(one) => Ok(prefix + one)
  }

  function ContentOf(content: RawContent): Result<seq<ContentItem>, TranslateError>
  {
    match content
    case Str(s) => Ok([ContentItem(TextType, s, None)])
    case Arr(items) => ItemsOf(items)
    case Other => Err(UnsupportedContent)
  }

  /** The backend messages, built left to right; the first message that fails decides the error. */
  function MessagesOf(messages: seq<OpenAIInput>): (r: Result<seq<PrivateMessage>, TranslateError>)
    ensures r.Ok? ==> |r.value| == |messages|
    decreases |messages|
  {
    if messages == [] then Ok([])
    else
      var last := messages[|messages| - 1];
      match MessagesOf(messages[..|messages| - 1])
      case Err(e) => Err(e)
      case Ok(prefix) =>
        match ContentOf(last.content)
        case Err(e) => Err(e)
        case Ok(items) => Ok(prefix + [PrivateMessage(last.role, items)])
  }

  function BuildRequest(req: OpenAIRequest, serviceName: string, config: Config, multiModal: bool)
    : Result<PrivateRequest, TranslateError>
  {
    if req.messages == [] then Err(EmptyMessages)
    else
      match MessagesOf(req.messages)
      case Err(e) => Err(e)
      case Ok(ms) =>
        if multiModal then
          Ok(MultiModalRequest(config.defaultAgentId, config.defaultSecretKey, serviceName, ms, req.stream))
        else
          Ok(TextRequest(config.defaultAgentId, config.defaultSecretKey, serviceName, ms, req.stream))
  }

  function Translate(req: OpenAIRequest, config: Config): Result<PrivateRequest, TranslateError>
  {
    BuildRequest(req, ServiceName(req.model, config), config, HasImage(req.messages))
  }

  // ---------------------------------------------------------------------------------------------
  // The translator
  // ---------------------------------------------------------------------------------------------

  /** Scans the messages for an image item, stopping at the first one. */
  method DetectImage(messages: seq<OpenAIInput>) returns (hasImage: bool)
    ensures hasImage == HasImage(messages)
  {
    hasImage := false;
    var j := 0;
    while j < |messages|
      invariant 0 <= j <= |messages|
      invariant !hasImage
      invariant forall jj :: 0 <= jj < j ==> !ContentHasImage(messages[jj].content)
    {
      if messages[j].content.Arr? {
        var items := messages[j].content.items;
        var i := 0;
        while i < |items|
          invariant 0 <= i <= |items|
          invariant !hasImage
          invariant forall ii :: 0 <= ii < i ==> !IsImageItem(items[ii])
        {
          if items[i].MapItem? && items[i].kind == Some(ImageType) {
            assert ContentHasImage(messages[j].content) by { assert IsImageItem(items[i]); }
            hasImage := true;
            break;
          }
          i := i + 1;
        }
      }
      if hasImage {
        break;
      }
      j := j + 1;
    }
  }

  /** Normalises one message's content into its list of content items. */
  method ConvertContent(content: RawContent) returns (r: Result<seq<ContentItem>, TranslateError>)
    ensures r == ContentOf(content)
  {
    match content
    case Str(s) =>
      r := Ok([ContentItem(TextType, s, None)]);
    case Arr(items) =>
      var contentItems: seq<ContentItem> := [];
      var i := 0;
      while i < |items|
        invariant 0 <= i <= |items|
        invariant ItemsOf(items[..i]) == Ok(contentItems)
      {
        assert items[..i + 1][..i] == items[..i];
        if items[i].MapItem? {
          if items[i].kind.None? {
            ItemsOfConcat(items[..i + 1], items[i + 1..]);
            assert items[..i + 1] + items[i + 1..] == items;
            return Err(UntypedItem);
          }
          var item := ContentItem(items[i].kind.value, "", None);
          if items[i].text.Some? {
            item := item.(text := items[i].text.value);
          }
          if items[i].imageUrl.Some? {
            item := item.(imageUrl := Some(items[i].imageUrl.value));
          }
          assert ItemOf(items[i]) == Ok([item]);
          contentItems := contentItems + [item];
        } else {
          assert ItemOf(items[i]) == Ok([]);
          assert contentItems + [] == contentItems;
        }
        i := i + 1;
      }
      assert items[..i] == items;
      r := Ok(contentItems);
    case Other =>
      r := Err(UnsupportedContent);
  }

  /** The message loop shared by both request shapes: role and order kept, content normalised. */
  method ConvertMessages(messages: seq<OpenAIInput>) returns (r: Result<seq<PrivateMessage>, TranslateError>)
    ensures r == MessagesOf(messages)
  {
    var converted: seq<PrivateMessage> := [];
    var j := 0;
    while j < |messages|
      invariant 0 <= j <= |messages|
      invariant MessagesOf(messages[..j]) == Ok(converted)
    {
      assert messages[..j + 1][..j] == messages[..j];
      var contentItems := ConvertContent(messages[j].content);
      if contentItems.Err? {
        MessagesOfConcat(messages[..j + 1], messages[j + 1..]);
        assert messages[..j + 1] + messages[j + 1..] == messages;
        return Err(contentItems.error);
      }
      converted := converted + [PrivateMessage(messages[j].role, contentItems.value)];
      j := j + 1;
    }
    assert messages[..j] == messages;
    r := Ok(converted);
  }

  method ConvertToTextRequest(req: OpenAIRequest, serviceName: string, config: Config)
    returns (r: Result<PrivateRequest, TranslateError>)
    ensures r == BuildRequest(req, serviceName, config, false)
  {
    if |req.messages| == 0 {
      return Err(EmptyMessages);
    }
    var messages := ConvertMessages(req.messages);
    if messages.Err? {
      return Err(messages.error);
    }
    r := Ok(TextRequest(config.defaultAgentId, config.defaultSecretKey, serviceName, messages.value, req.stream));
  }

  method ConvertToMultiModalRequest(req: OpenAIRequest, serviceName: string, config: Config)
    returns (r: Result<PrivateRequest, TranslateError>)
    ensures r == BuildRequest(req, serviceName, config, true)
  {
    if |req.messages| == 0 {
      return Err(EmptyMessages);
    }
    var messages := ConvertMessages(req.messages);
    if messages.Err? {
      return Err(messages.error);
    }
    r := Ok(MultiModalRequest(config.defaultAgentId, config.defaultSecretKey, serviceName, messages.value, req.stream));
  }

  /** Resolves the service name, picks the request shape by image detection, and converts. */
  method ConvertOpenAIToPrivateAPI(req: OpenAIRequest, config: Config) returns (r: Result<PrivateRequest, TranslateError>)
    ensures r == Translate(req, config)
  {
    var serviceName := req.model;
    if config.modelMap.Some? {
      if req.model in config.modelMap.value {
        serviceName := config.modelMap.value[req.model];
      }
    }
    var hasImage := DetectImage(req.messages);
    if hasImage {
      r := ConvertToMultiModalRequest(req, serviceName, config);
    } else {
      r := ConvertToTextRequest(req, serviceName, config);
    }
  }

  // ---------------------------------------------------------------------------------------------
  // Properties of the content normaliser
  // ---------------------------------------------------------------------------------------------

  /** Converting an array is converting its parts: items come out in order, each element
      contributing on its own. */
  lemma {:induction false} ItemsOfConcat(a: seq<RawItem>, b: seq<RawItem>)
    ensures ItemsOf(a + b) ==
      match ItemsOf(a)
      case Err(e) => Err(e)
      case Ok(x) =>
        match ItemsOf(b)
        case Err(e) => Err(e)
        case Ok(y) => Ok(x + y)
    decreases |b|
  {
    if b == [] {
      assert a + b == a;
      match ItemsOf(a)
      case Err(_) =>
      case Ok(x) => assert x + [] == x;
    } else {
      var init, last := b[..|b| - 1], b[|b| - 1];
      ItemsOfConcat(a, init);
      assert (a + b)[..|a + b| - 1] == a + init;
      assert (a + b)[|a + b| - 1] == last;
      match ItemsOf(a)
      case Err(_) =>
      case Ok(x) =>
        match ItemsOf(init)
        case Err(_) =>
        case Ok(y) =>
          match ItemOf(last)
          case Err(_) =>
          case Ok(one) =>
            assert (x + y) + one == x + (y + one);
    }
  }

  lemma ItemsOfSingle(item: RawItem)
    ensures ItemsOf([item]) == ItemOf(item)
  {
    assert [item][..0] == [];
    assert ItemsOf([item][..0]) == Ok([]);
    match ItemOf(item)
    case Err(_) =>
    case Ok(one) => assert [] + one == one;
  }

  /** A non-object element of an array content is skipped without trace. */
  lemma NonMapSkipped(a: seq<RawItem>, b: seq<RawItem>)
    ensures ItemsOf(a + [NonMap] + b) == ItemsOf(a + b)
  {
    ItemsOfSingle(NonMap);
    ItemsOfConcat(a, [NonMap]);
    assert a + [NonMap] + b == (a + [NonMap]) + b;
    ItemsOfConcat(a + [NonMap], b);
    ItemsOfConcat(a, b);
    match ItemsOf(a)
    case Err(_) =>
    case Ok(x) => assert x + [] == x;
  }

  /** An array converts exactly when every object element has a string `type`. */
  lemma {:induction false} ItemsOfSucceeds(items: seq<RawItem>)
    ensures ItemsOf(items).Ok? <==> forall i :: 0 <= i < |items| && items[i].MapItem? ==> items[i].kind.Some?
    decreases |items|
  {
    if items != [] {
      var init := items[..|items| - 1];
      ItemsOfSucceeds(init);
      assert forall i :: 0 <= i < |init| ==> init[i] == items[i];
    }
  }

  /** An array of typed objects gives one item per object, in order: `type` copied, `text` copied
      when it is a string and empty otherwise, the image URL set only when `image_url.url` is a
      string. */
  lemma {:induction false} ItemsOfObjects(items: seq<RawItem>)
    requires forall i :: 0 <= i < |items| ==> items[i].MapItem? && items[i].kind.Some?
    ensures ItemsOf(items).Ok? && |ItemsOf(items).value| == |items|
    ensures forall i :: 0 <= i < |items| ==>
      ItemsOf(items).value[i] ==
        ContentItem(items[i].kind.value, if items[i].text.Some? then items[i].text.value else "", items[i].imageUrl)
    decreases |items|
  {
    if items != [] {
      var init := items[..|items| - 1];
      assert forall i :: 0 <= i < |init| ==> init[i] == items[i];
      ItemsOfObjects(init);
    }
  }

  /** A string and the one-element array holding it as a text item normalise identically. */
  lemma StringMatchesTextItem(s: string)
    ensures ContentOf(Str(s)) == Ok([ContentItem(TextType, s, None)])
    ensures ContentOf(Arr([MapItem(Some(TextType), Some(s), None)])) == ContentOf(Str(s))
  {
    ItemsOfSingle(MapItem(Some(TextType), Some(s), None));
  }

  // ---------------------------------------------------------------------------------------------
  // Properties of the message loop and of the translation
  // ---------------------------------------------------------------------------------------------

  lemma {:induction false} MessagesOfConcat(a: seq<OpenAIInput>, b: seq<OpenAIInput>)
    ensures MessagesOf(a + b) ==
      match MessagesOf(a)
      case Err(e) => Err(e)
      case Ok(x) =>
        match MessagesOf(b)
        case Err(e) => Err(e)
        case Ok(y) => Ok(x + y)
    decreases |b|
  {
    if b == [] {
      assert a + b == a;
      match MessagesOf(a)
      case Err(_) =>
      case Ok(x) => assert x + [] == x;
    } else {
      var init, last := b[..|b| - 1], b[|b| - 1];
      MessagesOfConcat(a, init);
      assert (a + b)[..|a + b| - 1] == a + init;
      assert (a + b)[|a + b| - 1] == last;
      match MessagesOf(a)
      case Err(_) =>
      case Ok(x) =>
        match MessagesOf(init)
        case Err(_) =>
        case Ok(y) =>
          match ContentOf(last.content)
          case Err(_) =>
          case Ok(items) =>
            var m := PrivateMessage(last.role, items);
            assert (x + y) + [m] == x + (y + [m]);
    }
  }

  /** The message list converts exactly when every content does, and then message k keeps the
      role of input message k and carries the items of its content. */
  lemma {:induction false} MessagesOfSpec(messages: seq<OpenAIInput>)
    ensures MessagesOf(messages).Ok? <==> forall k :: 0 <= k < |messages| ==> ContentOf(messages[k].content).Ok?
    ensures MessagesOf(messages).Ok? ==>
      forall k :: 0 <= k < |messages| ==>
        MessagesOf(messages).value[k] == PrivateMessage(messages[k].role, ContentOf(messages[k].content).value)
    decreases |messages|
  {
    if messages != [] {
      var init := messages[..|messages| - 1];
      assert forall k :: 0 <= k < |init| ==> init[k] == messages[k];
      MessagesOfSpec(init);
    }
  }

  /** The first message whose content fails decides the error; later messages are not looked at. */
  lemma {:induction false} MessagesOfFirstError(messages: seq<OpenAIInput>, k: nat)
    requires k < |messages|
    requires forall j :: 0 <= j < k ==> ContentOf(messages[j].content).Ok?
    requires ContentOf(messages[k].content).Err?
    ensures MessagesOf(messages) == Err(ContentOf(messages[k].content).error)
    decreases |messages|
  {
    var init := messages[..|messages| - 1];
    if k == |messages| - 1 {
      assert forall j :: 0 <= j < |init| ==> init[j] == messages[j];
      MessagesOfSpec(init);
    } else {
      MessagesOfFirstError(init, k);
    }
  }

  /** An empty message list is refused, whichever shape was chosen. */
  lemma TranslateEmpty(req: OpenAIRequest, config: Config)
    requires req.messages == []
    ensures Translate(req, config) == Err(EmptyMessages)
    ensures forall name: string, multiModal: bool :: BuildRequest(req, name, config, multiModal) == Err(EmptyMessages)
  {
  }

  /** A successful translation routes by the model map, takes the credentials from the
      configuration, copies `stream`, and is multimodal exactly when an image item is present. */
  lemma TranslateEnvelope(req: OpenAIRequest, config: Config)
    ensures Translate(req, config).Ok? ==>
      var r := Translate(req, config).value;
      && r.agentId == config.defaultAgentId
      && r.secretKey == config.defaultSecretKey
      && r.stream == req.stream
      && (r.MultiModalRequest? <==> HasImage(req.messages))
      && (config.modelMap.Some? && req.model in config.modelMap.value ==> r.serviceName == config.modelMap.value[req.model])
      && (config.modelMap.None? || req.model !in config.modelMap.value ==> r.serviceName == req.model)
  {
  }

  /** Translation succeeds exactly when there is a message and every content converts; the
      backend messages then match the caller's one for one, same roles in the same order. */
  lemma TranslateMessages(req: OpenAIRequest, config: Config)
    ensures Translate(req, config).Ok? <==>
      req.messages != [] && forall k :: 0 <= k < |req.messages| ==> ContentOf(req.messages[k].content).Ok?
    ensures Translate(req, config).Ok? ==>
      var ms := Translate(req, config).value.messages;
      && |ms| == |req.messages|
      && forall k :: 0 <= k < |ms| ==>
           ms[k].role == req.messages[k].role && Ok(ms[k].content) == ContentOf(req.messages[k].content)
  {
    MessagesOfSpec(req.messages);
  }

  /** Content that is neither a string nor an array aborts the whole translation, unless an
      earlier message has already failed. */
  lemma TranslateUnsupported(req: OpenAIRequest, config: Config, k: nat)
    requires k < |req.messages| && req.messages[k].content.Other?
    requires forall j :: 0 <= j < k ==> ContentOf(req.messages[j].content).Ok?
    ensures Translate(req, config) == Err(UnsupportedContent)
  {
    MessagesOfFirstError(req.messages, k);
  }
}
