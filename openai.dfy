/** `OpenAILMM`: the client of the OpenAI chat-completion API. */
module OpenAi {
  import opened Wrappers
  import opened Json
  import opened PurePath
  import opened LmmTypes

  /** The client object: model name, response token budget and the passthrough keyword
      options given to every completion call. */
  datatype OpenAiLmm = OpenAiLmm(modelName: string, maxTokens: int, kwargs: map<string, Json>)

  const DefaultModel: string := "gpt-4-vision-preview"
  const DefaultMaxTokens: int := 1024

  /** The keyword arguments the completion call passes explicitly; a passthrough option with
      one of these names makes the call raise before the SDK runs. The constructor takes
      `max_tokens` as a named parameter, so only `model` and `messages` reach the options
      through it; `max_tokens` matters only for options edited after construction. */
  const ExplicitKeywords: set<string> := {"model", "messages", "max_tokens"}

  /** The extensions `chat` accepts, lowered, with the media tag each becomes. */
  const ImageTags: map<string, string> := map[".jpg" := "jpg", ".jpeg" := "jpg", ".png" := "png"]

  /** The extension check of `chat`: `.jpg` and `.jpeg` become `jpg`, `.png` becomes `png`,
      in any letter case; anything else, the empty suffix included, is refused with the
      suffix as given. */
  function ChatImageExtension(extension: string): (r: Result<string, Error>)
    ensures r.Ok? <==> Lower(extension) in ImageTags
    ensures r.Ok? ==> r.value == ImageTags[Lower(extension)]
    ensures r.Err? ==> r.error == UnsupportedImageExtension(extension)
  {
    var lowered := Lower(extension);
    if lowered == ".jpeg" || lowered == ".jpg" then Ok("jpg")
    else if lowered == ".png" then Ok("png")
    else Err(UnsupportedImageExtension(extension))
  }

  /** One transcript entry in the wire format: its role and a single text block. */
  function ToWire(c: ChatMessage): WireMessage
  {
    WireMessage(c.role, [Text(c.content)])
  }

  /** The `fixed_chat` list, built one append at a time: same length and order as the input,
      each entry keeping its role and holding exactly one text block with its content. */
  function FixedChat(chat: seq<ChatMessage>): (r: seq<WireMessage>)
    ensures |r| == |chat|
    ensures forall i :: 0 <= i < |chat| ==> r[i].role == chat[i].role && r[i].content == [Text(chat[i].content)]
  {
    if |chat| == 0 then [] else FixedChat(chat[..|chat| - 1]) + [ToWire(chat[|chat| - 1])]
  }

  /** `fixed_chat[0]["content"].append(block)`: only the first message changes, gaining the
      block after its existing blocks; an empty list has no first message. */
  function AttachImage(messages: seq<WireMessage>, block: Block): (r: Result<seq<WireMessage>, Error>)
    ensures r.Err? <==> messages == []
    ensures r.Err? ==> r.error == EmptyChat
    ensures r.Ok? ==> |r.value| == |messages|
    ensures r.Ok? ==> r.value[0].role == messages[0].role && r.value[0].content == messages[0].content + [block]
    ensures r.Ok? ==> forall i :: 0 < i < |messages| ==> r.value[i] == messages[i]
  {
    if |messages| == 0 then Err(EmptyChat)
    else Ok(messages[0 := WireMessage(messages[0].role, messages[0].content + [block])])
  }

  /** The keyword arguments of the completion call for a list of wire messages. */
  function Completion(lmm: OpenAiLmm, messages: seq<WireMessage>): (r: Result<CompletionRequest, Error>)
    ensures r.Err? <==> lmm.kwargs.Keys * ExplicitKeywords != {}
    ensures r.Err? ==> r.error == DuplicateKeyword
    ensures r.Ok? ==> r.value.messages == messages
    ensures r.Ok? ==> r.value.model == lmm.modelName && r.value.maxTokens == lmm.maxTokens
    ensures r.Ok? ==> r.value.options == lmm.kwargs
  {
    if lmm.kwargs.Keys * ExplicitKeywords != {} then Err(DuplicateKeyword)
    else Ok(CompletionRequest(lmm.modelName, messages, lmm.maxTokens, lmm.kwargs))
  }

  /** The `if image:` branch of `chat`: check the extension, read the image, then append
      its block to the first message. */
  function AttachChatImage(messages: seq<WireMessage>, path: string, io: Io): (r: Result<seq<WireMessage>, Error>)
    ensures ChatImageExtension(Suffix(path)).Err? ==> r == Err(UnsupportedImageExtension(Suffix(path)))
    ensures ChatImageExtension(Suffix(path)).Ok? && io.encodeImage(path).Err? ==> r == Err(io.encodeImage(path).error)
    ensures ChatImageExtension(Suffix(path)).Ok? && io.encodeImage(path).Ok?
            ==> r == AttachImage(messages, ImageBlock(ChatImageExtension(Suffix(path)).value, io.encodeImage(path).value))
  {
    var tag :- ChatImageExtension(Suffix(path));
    var encoded :- io.encodeImage(path);
    AttachImage(messages, ImageBlock(tag, encoded))
  }

  /** The messages `chat` sends, or the error raised while building them. The extension is
      checked before the image is read, and both before the first message is indexed. */
  function ChatMessages(chat: seq<ChatMessage>, image: Option<string>, io: Io): (r: Result<seq<WireMessage>, Error>)
    ensures Truthy(image) && ChatImageExtension(Suffix(image.value)).Err?
            ==> r == Err(UnsupportedImageExtension(Suffix(image.value)))
    ensures Truthy(image) && ChatImageExtension(Suffix(image.value)).Ok? && io.encodeImage(image.value).Err?
            ==> r == Err(io.encodeImage(image.value).error)
    ensures Truthy(image) && ChatImageExtension(Suffix(image.value)).Ok? && io.encodeImage(image.value).Ok? && chat == []
            ==> r == Err(EmptyChat)
    ensures r.Ok? <==> (Truthy(image) ==> ChatImageExtension(Suffix(image.value)).Ok? && io.encodeImage(image.value).Ok? && chat != [])
  {
    if Truthy(image) then AttachChatImage(FixedChat(chat), image.value, io) else Ok(FixedChat(chat))
  }

  /** The messages `chat` builds keep the transcript's length, order and roles; every message
      but the first is its text block, and the first gains the image block after its text
      block exactly when the image is truthy. */
  lemma ChatMessagesContent(chat: seq<ChatMessage>, image: Option<string>, io: Io)
    requires ChatMessages(chat, image, io).Ok?
    ensures |ChatMessages(chat, image, io).value| == |chat|
    ensures forall i :: 0 <= i < |chat| ==> ChatMessages(chat, image, io).value[i].role == chat[i].role
    ensures forall i :: 0 < i < |chat| ==> ChatMessages(chat, image, io).value[i].content == [Text(chat[i].content)]
    ensures !Truthy(image) && chat != [] ==> ChatMessages(chat, image, io).value[0].content == [Text(chat[0].content)]
    ensures Truthy(image) ==>
              ChatMessages(chat, image, io).value[0].content
              == [Text(chat[0].content),
                  ImageBlock(ChatImageExtension(Suffix(image.value)).value, io.encodeImage(image.value).value)]
  {
    if Truthy(image) {
      assert ChatMessages(chat, image, io) == AttachChatImage(FixedChat(chat), image.value, io);
      ChatImageContent(chat, image.value, io);
    } else {
      assert ChatMessages(chat, image, io) == Ok(FixedChat(chat));
    }
  }

  /** The image branch of the lemma above: appending the image block to the fixed chat keeps
      every role and every message but the first. */
  lemma ChatImageContent(chat: seq<ChatMessage>, path: string, io: Io)
    requires AttachChatImage(FixedChat(chat), path, io).Ok?
    ensures |AttachChatImage(FixedChat(chat), path, io).value| == |chat|
    ensures forall i :: 0 <= i < |chat| ==> AttachChatImage(FixedChat(chat), path, io).value[i].role == chat[i].role
    ensures forall i :: 0 < i < |chat| ==> AttachChatImage(FixedChat(chat), path, io).value[i].content == [Text(chat[i].content)]
    ensures AttachChatImage(FixedChat(chat), path, io).value[0].content
            == [Text(chat[0].content), ImageBlock(ChatImageExtension(Suffix(path)).value, io.encodeImage(path).value)]
  {
    var tag := ChatImageExtension(Suffix(path));
    var encoded := io.encodeImage(path);
    assert tag.Ok? && encoded.Ok?;
    var block := ImageBlock(tag.value, encoded.value);
    assert AttachChatImage(FixedChat(chat), path, io) == AttachImage(FixedChat(chat), block);
    FixedChatWithBlock(chat, block);
  }

  /** Any block appended to the fixed form of a non-empty chat. */
  lemma FixedChatWithBlock(chat: seq<ChatMessage>, block: Block)
    requires chat != []
    ensures AttachImage(FixedChat(chat), block).Ok?
    ensures |AttachImage(FixedChat(chat), block).value| == |chat|
    ensures forall i :: 0 <= i < |chat| ==> AttachImage(FixedChat(chat), block).value[i].role == chat[i].role
    ensures forall i :: 0 < i < |chat| ==> AttachImage(FixedChat(chat), block).value[i].content == [Text(chat[i].content)]
    ensures AttachImage(FixedChat(chat), block).value[0].content == [Text(chat[0].content), block]
  {
  }

  /** The request `chat` sends. The message-building errors come first, in the order above,
      and the `TypeError` for a clashing passthrough option after them, all before the SDK
      is called. */
  function ChatRequest(lmm: OpenAiLmm, chat: seq<ChatMessage>, image: Option<string>, io: Io)
    : (r: Result<CompletionRequest, Error>)
    ensures Truthy(image) && ChatImageExtension(Suffix(image.value)).Err?
            ==> r == Err(UnsupportedImageExtension(Suffix(image.value)))
    ensures Truthy(image) && ChatImageExtension(Suffix(image.value)).Ok? && io.encodeImage(image.value).Err?
            ==> r == Err(io.encodeImage(image.value).error)
    ensures Truthy(image) && ChatImageExtension(Suffix(image.value)).Ok? && io.encodeImage(image.value).Ok? && chat == []
            ==> r == Err(EmptyChat)
    ensures r.Ok? <==>
              && (Truthy(image) ==> ChatImageExtension(Suffix(image.value)).Ok? && io.encodeImage(image.value).Ok? && chat != [])
              && lmm.kwargs.Keys * ExplicitKeywords == {}
    ensures r.Err? && (Truthy(image) ==> ChatImageExtension(Suffix(image.value)).Ok? && io.encodeImage(image.value).Ok? && chat != [])
            ==> r.error == DuplicateKeyword
    ensures r.Ok? ==> r.value.model == lmm.modelName && r.value.maxTokens == lmm.maxTokens && r.value.options == lmm.kwargs
    ensures r.Ok? ==> |r.value.messages| == |chat|
    ensures r.Ok? ==> forall i :: 0 <= i < |chat| ==> r.value.messages[i].role == chat[i].role
    ensures r.Ok? ==> forall i :: 0 < i < |chat| ==> r.value.messages[i].content == [Text(chat[i].content)]
    ensures r.Ok? && !Truthy(image) && chat != [] ==> r.value.messages[0].content == [Text(chat[0].content)]
    ensures r.Ok? && Truthy(image) ==>
              r.value.messages[0].content
              == [Text(chat[0].content),
                  ImageBlock(ChatImageExtension(Suffix(image.value)).value, io.encodeImage(image.value).value)]
  {
    var messages :- ChatMessages(chat, image, io);
    ChatMessagesContent(chat, image, io);
    Completion(lmm, messages)
  }

  /** What `chat` returns or raises: the request above, handed to the SDK. */
  function ChatOutcome(lmm: OpenAiLmm, chat: seq<ChatMessage>, image: Option<string>, io: Io): (r: Result<string, Error>)
    ensures ChatRequest(lmm, chat, image, io).Err? ==> r == Err(ChatRequest(lmm, chat, image, io).error)
    ensures ChatRequest(lmm, chat, image, io).Ok? ==> r == io.createCompletion(ChatRequest(lmm, chat, image, io).value)
  {
    var request :- ChatRequest(lmm, chat, image, io);
    io.createCompletion(request)
  }

  /** `OpenAILMM.chat`: builds `fixed_chat` with a loop of appends, validates the extension,
      appends the image block to the first message in place and calls the SDK. */
  method Chat(lmm: OpenAiLmm, chat: seq<ChatMessage>, image: Option<string>, io: Io) returns (r: Result<string, Error>)
    ensures r == ChatOutcome(lmm, chat, image, io)
  {
    var fixedChat: seq<WireMessage> := [];
    for i := 0 to |chat|
      invariant |fixedChat| == i
      invariant forall k :: 0 <= k < i ==> fixedChat[k] == WireMessage(chat[k].role, [Text(chat[k].content)])
    {
      var fixedC := WireMessage(chat[i].role, [Text(chat[i].content)]);
      fixedChat := fixedChat + [fixedC];
    }
    assert fixedChat == FixedChat(chat);
    if Truthy(image) {
      var extension := Suffix(image.value);
      var lowered := Lower(extension);
      if lowered == ".jpeg" || lowered == ".jpg" {
        extension := "jpg";
      } else if lowered == ".png" {
        extension := "png";
      } else {
        return Err(UnsupportedImageExtension(extension));
      }
      var encoded := io.encodeImage(image.value);
      if encoded.Err? {
        return Err(encoded.error);
      }
      if |fixedChat| == 0 {
        return Err(EmptyChat);
      }
      fixedChat := fixedChat[0 := WireMessage(fixedChat[0].role, fixedChat[0].content + [ImageBlock(extension, encoded.value)])];
    }
    if lmm.kwargs.Keys * ExplicitKeywords != {} {
      return Err(DuplicateKeyword);
    }
    r := io.createCompletion(CompletionRequest(lmm.modelName, fixedChat, lmm.maxTokens, lmm.kwargs));
  }

  /** The request `generate` sends: one user message whose first block is the prompt and,
      with a truthy image, a second block whose data URI carries the raw suffix, leading dot
      included. No extension is refused: the only failures are the image read and a clashing
      passthrough option. */
  function GenerateRequest(lmm: OpenAiLmm, prompt: string, image: Option<string>, io: Io)
    : (r: Result<CompletionRequest, Error>)
    ensures r.Err? <==> (Truthy(image) && io.encodeImage(image.value).Err?) || lmm.kwargs.Keys * ExplicitKeywords != {}
    ensures Truthy(image) && io.encodeImage(image.value).Err? ==> r == Err(io.encodeImage(image.value).error)
    ensures r.Err? && !(Truthy(image) && io.encodeImage(image.value).Err?) ==> r.error == DuplicateKeyword
    ensures r.Ok? ==> r.value.model == lmm.modelName && r.value.maxTokens == lmm.maxTokens && r.value.options == lmm.kwargs
    ensures r.Ok? ==> |r.value.messages| == 1 && r.value.messages[0].role == "user"
    ensures r.Ok? && !Truthy(image) ==> r.value.messages[0].content == [Text(prompt)]
    ensures r.Ok? && Truthy(image) ==>
              r.value.messages[0].content
              == [Text(prompt), ImageBlock(Suffix(image.value), io.encodeImage(image.value).value)]
  {
    var message := [WireMessage("user", [Text(prompt)])];
    var messages :-
      if Truthy(image) then
        var encoded :- io.encodeImage(image.value);
        AttachImage(message, ImageBlock(Suffix(image.value), encoded))
      else Ok(message);
    Completion(lmm, messages)
  }

  /** What `generate` returns or raises: the request above, handed to the SDK. */
  function GenerateOutcome(lmm: OpenAiLmm, prompt: string, image: Option<string>, io: Io): (r: Result<string, Error>)
    ensures GenerateRequest(lmm, prompt, image, io).Err? ==> r == Err(GenerateRequest(lmm, prompt, image, io).error)
    ensures GenerateRequest(lmm, prompt, image, io).Ok? ==> r == io.createCompletion(GenerateRequest(lmm, prompt, image, io).value)
  {
    var request :- GenerateRequest(lmm, prompt, image, io);
    io.createCompletion(request)
  }

  /** `OpenAILMM.generate`: a one-message list whose content the image block is appended to. */
  method Generate(lmm: OpenAiLmm, prompt: string, image: Option<string>, io: Io) returns (r: Result<string, Error>)
    ensures r == GenerateOutcome(lmm, prompt, image, io)
  {
    var message := [WireMessage("user", [Text(prompt)])];
    if Truthy(image) {
      var extension := Suffix(image.value);
      var encoded := io.encodeImage(image.value);
      if encoded.Err? {
        return Err(encoded.error);
      }
      message := message[0 := WireMessage(message[0].role, message[0].content + [ImageBlock(extension, encoded.value)])];
    }
    if lmm.kwargs.Keys * ExplicitKeywords != {} {
      return Err(DuplicateKeyword);
    }
    r := io.createCompletion(CompletionRequest(lmm.modelName, message, lmm.maxTokens, lmm.kwargs));
  }

  /** `OpenAILMM.__call__`: a prompt goes to `generate`, anything else to `chat`. */
  function Call(lmm: OpenAiLmm, input: Input, image: Option<string>, io: Io): (r: Result<string, Error>)
    ensures input.Prompt? ==> r == GenerateOutcome(lmm, input.text, image, io)
    ensures input.Transcript? ==> r == ChatOutcome(lmm, input.messages, image, io)
  {
    match input
    case Prompt(text) => GenerateOutcome(lmm, text, image, io)
    case Transcript(messages) => ChatOutcome(lmm, messages, image, io)
  }

  /** A refused extension fails `chat` the same way whatever the file system and the remote
      service would do: neither the image is read nor the SDK called. */
  lemma ChatRefusesBeforeIo(lmm: OpenAiLmm, chat: seq<ChatMessage>, path: string, io: Io)
    requires path != ""
    requires Lower(Suffix(path)) !in ImageTags
    ensures ChatOutcome(lmm, chat, Some(path), io) == Err(UnsupportedImageExtension(Suffix(path)))
  {
  }

  /** The check in `chat` ignores letter case: an extension and its lowered form are accepted
      or refused together, and accepted ones get the same tag. */
  lemma ChatImageExtensionIgnoresCase(extension: string)
    ensures ChatImageExtension(Lower(extension)).Ok? == ChatImageExtension(extension).Ok?
    ensures ChatImageExtension(extension).Ok? ==> ChatImageExtension(Lower(extension)) == ChatImageExtension(extension)
  {
    LowerIdempotent(extension);
  }

  /** The tags for a few concrete extensions, the empty suffix of a name without a dot among them. */
  lemma ChatImageExtensionExamples()
    ensures ChatImageExtension(".JPEG") == Ok("jpg")
    ensures ChatImageExtension(".Jpg") == Ok("jpg")
    ensures ChatImageExtension(".png") == Ok("png")
    ensures ChatImageExtension(".gif") == Err(UnsupportedImageExtension(".gif"))
    ensures ChatImageExtension("") == Err(UnsupportedImageExtension(""))
  {
    assert Lower(".JPEG") == ".jpeg";
    assert Lower(".Jpg") == ".jpg";
    assert Lower(".png") == ".png";
    assert Lower(".gif") == ".gif";
  }

  /** For an image whose suffix lowers to `.png`, `chat` writes the media tag `png`. */
  lemma ChatPngUri(lmm: OpenAiLmm, chat: seq<ChatMessage>, path: string, io: Io)
    requires path != "" && Lower(Suffix(path)) == ".png" && chat != []
    requires io.encodeImage(path).Ok? && lmm.kwargs.Keys * ExplicitKeywords == {}
    ensures ChatRequest(lmm, chat, Some(path), io).Ok?
    ensures ChatRequest(lmm, chat, Some(path), io).value.messages[0].content[1]
            == ImageBlock("png", io.encodeImage(path).value)
  {
  }

  /** For the same image, `generate` writes the raw suffix, leading dot included. */
  lemma GeneratePngUri(lmm: OpenAiLmm, prompt: string, path: string, io: Io)
    requires path != "" && Lower(Suffix(path)) == ".png"
    requires io.encodeImage(path).Ok? && lmm.kwargs.Keys * ExplicitKeywords == {}
    ensures |Suffix(path)| == 4 && Suffix(path)[0] == '.'
    ensures GenerateRequest(lmm, prompt, Some(path), io).Ok?
    ensures GenerateRequest(lmm, prompt, Some(path), io).value.messages[0].content[1]
            == ImageBlock(Suffix(path), io.encodeImage(path).value)
  {
    var ext := Suffix(path);
    assert |ext| == |Lower(ext)| == 4;
    var request := GenerateRequest(lmm, prompt, Some(path), io);
    assert request.Ok?;
    assert request.value.messages[0].content
           == [Text(prompt), ImageBlock(ext, io.encodeImage(path).value)];
  }

  /** `chat` and `generate` disagree on the same `.png` image: the image block `generate`
      sends is not the one `chat` sends. */
  lemma GenerateKeepsRawSuffix(lmm: OpenAiLmm, chat: seq<ChatMessage>, prompt: string, path: string, io: Io,
                               chatRequest: CompletionRequest, generateRequest: CompletionRequest)
    requires path != "" && Lower(Suffix(path)) == ".png"
    requires ChatRequest(lmm, chat, Some(path), io) == Ok(chatRequest)
    requires GenerateRequest(lmm, prompt, Some(path), io) == Ok(generateRequest)
    ensures |chatRequest.messages| > 0 && |chatRequest.messages[0].content| == 2
    ensures |generateRequest.messages| > 0 && |generateRequest.messages[0].content| == 2
    ensures generateRequest.messages[0].content[1] != chatRequest.messages[0].content[1]
  {
    ChatPngUri(lmm, chat, path, io);
    GeneratePngUri(lmm, prompt, path, io);
    DottedTagDiffers(Suffix(path), io.encodeImage(path).value);
  }

  /** A media tag that starts with a dot gives another data URI than the tag `png`. */
  lemma DottedTagDiffers(tag: string, encoded: string)
    requires |tag| > 0 && tag[0] == '.'
    ensures ImageBlock(tag, encoded) != ImageBlock("png", encoded)
  {
    assert ImageBlock(tag, encoded).url[11] == '.';
    assert ImageBlock("png", encoded).url[11] == 'p';
  }
}
