/**
 * The floating chat widget: its transcript, input buffer, loading and
 * listening flags, and the handle of the conversation with the external
 * text-generation service.
 *
 * The service is a parameter. A reply is either refused outright (the
 * request to stream throws) or a finite sequence of chunks, each with or
 * without text, after which the stream either ends or throws. The clock
 * readings that become message ids are parameters as well.
 */
module Assistant {
  import opened Types
  import opened Strings

  datatype Sender = UserTurn | ModelTurn

  /** One transcript entry. */
  datatype Message = Message(id: string, sender: Sender, text: string)

  /** The opaque conversation handle, created for the widget's user. */
  datatype ChatSession = ChatSession(forUser: Option<User>)

  function CreateChatSession(user: Option<User>): ChatSession
  {
    ChatSession(user)
  }

  /** One streamed response chunk; its `text` may be missing. */
  datatype Chunk = Chunk(text: Option<string>)

  /** What the service does with one message. */
  datatype Reply =
    | Rejected
    | Streamed(chunks: seq<Chunk>, broke: bool)

  const InitId: string := "init"
  const Apology: string := "Sorry, I encountered an error. Please try again."

  function Greeting(user: Option<User>): string
  {
    "Hello " + (if user.Some? then user.value.firstName else "")
    + "! I am your HMS Assistant. How can I help you today?"
  }

  /** The transcript's first entry. */
  function InitialMessage(user: Option<User>): Message
  {
    Message(InitId, ModelTurn, Greeting(user))
  }

  /** The greeting names the signed-in user. */
  lemma GreetingNamesUser(u: User)
    ensures Includes(InitialMessage(Some(u)).text, u.firstName)
    ensures InitialMessage(Some(u)).sender == ModelTurn && InitialMessage(Some(u)).id == "init"
  {
    IncludesInfix("Hello ", u.firstName, "! I am your HMS Assistant. How can I help you today?");
  }

  /** `if (c.text)`: the text is present and non-empty. */
  predicate HasText(c: Chunk)
  {
    c.text.Some? && c.text.value != ""
  }

  function TextOf(c: Chunk): string
  {
    if HasText(c) then c.text.value else ""
  }

  /** All chunk texts, in order. */
  function Concat(chunks: seq<Chunk>): string
  {
    if chunks == [] then "" else Concat(chunks[..|chunks| - 1]) + TextOf(chunks[|chunks| - 1])
  }

  /** Some chunk carries text. */
  predicate AnyText(chunks: seq<Chunk>)
  {
    chunks != [] && (AnyText(chunks[..|chunks| - 1]) || HasText(chunks[|chunks| - 1]))
  }

  /** Without a chunk of text the running response stays empty. */
  lemma {:induction false} NoTextMeansEmpty(chunks: seq<Chunk>)
    ensures !AnyText(chunks) <==> Concat(chunks) == ""
  {
    if chunks != [] {
      NoTextMeansEmpty(chunks[..|chunks| - 1]);
    }
  }

  /** Each intermediate response is a prefix of the final one. */
  lemma {:induction false} ConcatPrefix(chunks: seq<Chunk>, k: nat)
    requires k <= |chunks|
    ensures StartsWith(Concat(chunks), Concat(chunks[..k]))
    decreases |chunks|
  {
    if k < |chunks| {
      var init := chunks[..|chunks| - 1];
      assert init[..k] == chunks[..k];
      ConcatPrefix(init, k);
      var whole := Concat(chunks);
      var part := Concat(chunks[..k]);
      assert whole == Concat(init) + TextOf(chunks[|chunks| - 1]);
      assert whole[..|part|] == Concat(init)[..|part|];
    } else {
      assert chunks[..k] == chunks;
    }
  }

  /** `prev.map(msg => msg.id === id ? { ...msg, text } : msg)`. */
  function ReplaceText(msgs: seq<Message>, id: string, text: string): (r: seq<Message>)
    ensures |r| == |msgs|
    ensures forall k :: 0 <= k < |msgs| ==>
      r[k] == if msgs[k].id == id then msgs[k].(text := text) else msgs[k]
  {
    seq(|msgs|, k requires 0 <= k < |msgs| =>
      if msgs[k].id == id then msgs[k].(text := text) else msgs[k])
  }

  /** A second replacement by the same id overrides the first. */
  lemma ReplaceTextTwice(msgs: seq<Message>, id: string, a: string, b: string)
    ensures ReplaceText(ReplaceText(msgs, id, a), id, b) == ReplaceText(msgs, id, b)
  {
  }

  /** The placeholder with id `id` appended to `base`, then every text chunk
      folded in: the transcript once the stream has delivered `chunks`. */
  function AfterChunks(base: seq<Message>, id: string, chunks: seq<Chunk>): seq<Message>
  {
    var withPlaceholder := base + [Message(id, ModelTurn, "")];
    if AnyText(chunks) then ReplaceText(withPlaceholder, id, Concat(chunks)) else withPlaceholder
  }

  /** Streaming keeps the transcript's length; the placeholder ends up holding
      all chunk texts; earlier entries keep their place, id and sender, and
      only those sharing the placeholder's id have their text replaced. */
  lemma AfterChunksShape(base: seq<Message>, id: string, chunks: seq<Chunk>)
    ensures |AfterChunks(base, id, chunks)| == |base| + 1
    ensures AfterChunks(base, id, chunks)[|base|] == Message(id, ModelTurn, Concat(chunks))
    ensures forall k :: 0 <= k < |base| ==>
      AfterChunks(base, id, chunks)[k] ==
        if base[k].id == id && AnyText(chunks) then base[k].(text := Concat(chunks)) else base[k]
  {
    NoTextMeansEmpty(chunks);
  }

  /** One turn of the `for await` loop. */
  lemma StreamStep(base: seq<Message>, id: string, chunks: seq<Chunk>, i: nat)
    requires i < |chunks|
    ensures Concat(chunks[..i + 1]) == Concat(chunks[..i]) + TextOf(chunks[i])
    ensures AfterChunks(base, id, chunks[..i + 1]) ==
      if HasText(chunks[i])
      then ReplaceText(AfterChunks(base, id, chunks[..i]), id, Concat(chunks[..i + 1]))
      else AfterChunks(base, id, chunks[..i])
  {
    var prefix, next := chunks[..i], chunks[..i + 1];
    assert next[..i] == prefix && next[i] == chunks[i];
    assert AnyText(next) == (AnyText(prefix) || HasText(chunks[i]));
    assert Concat(next) == Concat(prefix) + TextOf(chunks[i]);
    if !HasText(chunks[i]) {
      assert Concat(next) == Concat(prefix);
    } else if AnyText(prefix) {
      var w := base + [Message(id, ModelTurn, "")];
      ReplaceTextTwice(w, id, Concat(prefix), Concat(next));
    }
  }

  function ApologyMessage(id: string): Message
  {
    Message(id, ModelTurn, Apology)
  }

  /** The transcript after the service's reply to a message sent on `base`. */
  function AfterReply(base: seq<Message>, reply: Reply, modelId: string, errorId: string): seq<Message>
  {
    match reply
    case Rejected => base + [ApologyMessage(errorId)]
    case Streamed(chunks, broke) =>
      AfterChunks(base, modelId, chunks) + (if broke then [ApologyMessage(errorId)] else [])
  }

  /** A failure adds exactly one apology at the end and keeps everything
      before it, a partial placeholder included; a completed stream adds
      only the placeholder. Earlier entries keep their place, id and sender. */
  lemma AfterReplyShape(base: seq<Message>, reply: Reply, modelId: string, errorId: string)
    ensures var r := AfterReply(base, reply, modelId, errorId);
      && (reply.Rejected? ==> r == base + [ApologyMessage(errorId)])
      && (reply.Streamed? && reply.broke ==>
            r == AfterChunks(base, modelId, reply.chunks) + [ApologyMessage(errorId)])
      && (reply.Streamed? && !reply.broke ==>
            |r| == |base| + 1 && r[|base|] == Message(modelId, ModelTurn, Concat(reply.chunks)))
      && |r| > |base|
      && forall k :: 0 <= k < |base| ==> r[k].id == base[k].id && r[k].sender == base[k].sender
  {
    if reply.Streamed? {
      AfterChunksShape(base, modelId, reply.chunks);
    }
  }

  /** When the clock does not run backwards, the placeholder's id (a later
      reading plus one) differs from the user turn's, so the user's message
      survives the stream untouched. */
  lemma UserTurnSurvives(base: seq<Message>, userText: string, now: nat, modelTime: nat,
                         reply: Reply, errorTime: nat)
    requires now <= modelTime
    ensures var r := AfterReply(base + [Message(Decimal(now), UserTurn, userText)], reply,
                                Decimal(modelTime + 1), Decimal(errorTime));
            |r| > |base| && r[|base|] == Message(Decimal(now), UserTurn, userText)
  {
    var sent := base + [Message(Decimal(now), UserTurn, userText)];
    if Decimal(now) == Decimal(modelTime + 1) {
      DecimalInjective(now, modelTime + 1);
    }
    if reply.Streamed? {
      AfterChunksShape(sent, Decimal(modelTime + 1), reply.chunks);
    }
  }

  class ChatWidget {
    const user: Option<User>
    var isOpen: bool
    var messages: seq<Message>
    var input: string
    var isLoading: bool
    var isListening: bool
    var session: Option<ChatSession>

    /** The greeting stays first: later ids are clock readings, never "init". */
    ghost predicate Valid()
      reads this
    {
      |messages| >= 1 && messages[0] == InitialMessage(user)
    }

    /** The guard of `handleSend` (and of the send button). */
    predicate CanSend()
      reads this
    {
      Trim(input) != "" && !isLoading
    }

    constructor (u: Option<User>)
      ensures Valid()
      ensures user == u && messages == [InitialMessage(u)]
      ensures input == "" && !isLoading && !isListening && !isOpen && session == None
    {
      user := u;
      isOpen := false;
      messages := [InitialMessage(u)];
      input := "";
      isLoading := false;
      isListening := false;
      session := None;
    }

    /** The toggle button. Opening sets the conversation handle to one made for the user; the
        transcript is kept as it is. */
    method Toggle()
      modifies this
      ensures isOpen == !old(isOpen)
      ensures session == if isOpen then Some(CreateChatSession(user)) else old(session)
      ensures messages == old(messages) && input == old(input)
      ensures isLoading == old(isLoading) && isListening == old(isListening)
    {
      isOpen := !isOpen;
      if isOpen {
        session := Some(CreateChatSession(user));
      }
    }

    /** The header's close button. */
    method Close()
      modifies this
      ensures !isOpen
      ensures messages == old(messages) && input == old(input) && session == old(session)
      ensures isLoading == old(isLoading) && isListening == old(isListening)
    {
      isOpen := false;
    }

    /** Typing into the input box, which is disabled while loading. */
    method TypeInput(s: string)
      modifies this
      ensures input == if old(isLoading) then old(input) else s
      ensures messages == old(messages) && isOpen == old(isOpen) && session == old(session)
      ensures isLoading == old(isLoading) && isListening == old(isListening)
    {
      if !isLoading {
        input := s;
      }
    }

    /** `handleSend` up to the request: unless the trimmed input is empty or
        a reply is pending, append the user turn (untrimmed), clear the
        input, raise the loading flag and make sure a handle exists. */
    method BeginSend(now: nat) returns (started: bool)
      requires Valid()
      modifies this
      ensures Valid()
      ensures started == old(CanSend())
      ensures started <==> !IsBlank(old(input)) && !old(isLoading)
      ensures started ==>
        messages == old(messages) + [Message(Decimal(now), UserTurn, old(input))]
        && input == "" && isLoading
        && session == (if old(session).None? then Some(CreateChatSession(user)) else old(session))
      ensures !started ==>
        messages == old(messages) && input == old(input)
        && isLoading == old(isLoading) && session == old(session)
      ensures isOpen == old(isOpen) && isListening == old(isListening)
    {
      TrimEmptyIffBlank(input);
      if !CanSend() {
        return false;
      }
      var userMsg := Message(Decimal(now), UserTurn, input);
      messages := messages + [userMsg];
      input := "";
      isLoading := true;
      if session.None? {
        session := Some(CreateChatSession(user));
      }
      started := true;
    }

    /** `handleSend` from the reply on: the placeholder, the chunk loop, the
        apology on failure, and the `finally` that clears the loading flag. */
    method FinishSend(reply: Reply, modelTime: nat, errorTime: nat)
      requires Valid() && isLoading
      modifies this
      ensures Valid()
      ensures messages == AfterReply(old(messages), reply, Decimal(modelTime + 1), Decimal(errorTime))
      ensures !isLoading
      ensures input == old(input) && session == old(session)
      ensures isOpen == old(isOpen) && isListening == old(isListening)
    {
      ghost var base := messages;
      var modelMsgId := Decimal(modelTime + 1);
      DecimalNotWord(modelTime + 1, InitId);
      if reply.Rejected? {
        messages := messages + [ApologyMessage(Decimal(errorTime))];
      } else {
        var chunks := reply.chunks;
        var fullResponse := "";
        messages := messages + [Message(modelMsgId, ModelTurn, "")];
        var i := 0;
        while i < |chunks|
          modifies this`messages
          invariant 0 <= i <= |chunks|
          invariant fullResponse == Concat(chunks[..i])
          invariant messages == AfterChunks(base, modelMsgId, chunks[..i])
        {
          StreamStep(base, modelMsgId, chunks, i);
          var c := chunks[i];
          if HasText(c) {
            fullResponse := fullResponse + c.text.value;
            messages := ReplaceText(messages, modelMsgId, fullResponse);
          }
          i := i + 1;
        }
        assert chunks[..i] == chunks;
        AfterChunksShape(base, modelMsgId, chunks);
        if reply.broke {
          messages := messages + [ApologyMessage(Decimal(errorTime))];
        }
      }
      isLoading := false;
    }

    /** The whole of `handleSend` when no other event arrives while the reply
        is pending. */
    method HandleSend(now: nat, reply: Reply, modelTime: nat, errorTime: nat) returns (started: bool)
      requires Valid()
      modifies this
      ensures Valid()
      ensures started == old(CanSend())
      ensures started ==>
        messages == AfterReply(old(messages) + [Message(Decimal(now), UserTurn, old(input))],
                               reply, Decimal(modelTime + 1), Decimal(errorTime))
        && input == "" && !isLoading
        && session == (if old(session).None? then Some(CreateChatSession(user)) else old(session))
      ensures !started ==>
        messages == old(messages) && input == old(input)
        && isLoading == old(isLoading) && session == old(session)
      ensures isOpen == old(isOpen) && isListening == old(isListening)
    {
      started := BeginSend(now);
      if started {
        FinishSend(reply, modelTime, errorTime);
      }
    }

    /** Enter without Shift sends; any other key does nothing here. */
    method KeyDown(key: string, shift: bool, now: nat, reply: Reply, modelTime: nat, errorTime: nat)
      returns (started: bool)
      requires Valid()
      modifies this
      ensures Valid()
      ensures started == (key == "Enter" && !shift && old(CanSend()))
      ensures started ==>
        messages == AfterReply(old(messages) + [Message(Decimal(now), UserTurn, old(input))],
                               reply, Decimal(modelTime + 1), Decimal(errorTime))
        && input == "" && !isLoading
        && session == (if old(session).None? then Some(CreateChatSession(user)) else old(session))
      ensures !started ==>
        messages == old(messages) && input == old(input)
        && isLoading == old(isLoading) && session == old(session)
      ensures isOpen == old(isOpen) && isListening == old(isListening)
    {
      if key == "Enter" && !shift {
        started := HandleSend(now, reply, modelTime, errorTime);
      } else {
        started := false;
      }
    }

    /** The microphone button: listening starts only where the browser
        offers speech recognition. */
    method StartListening(supported: bool)
      modifies this
      ensures isListening == (old(isListening) || supported)
      ensures messages == old(messages) && input == old(input) && isOpen == old(isOpen)
      ensures isLoading == old(isLoading) && session == old(session)
    {
      if supported {
        isListening := true;
      }
    }

    /** A recognised utterance replaces the input and ends listening. */
    method OnSpeechResult(transcript: string)
      modifies this
      ensures input == transcript && !isListening
      ensures messages == old(messages) && isOpen == old(isOpen)
      ensures isLoading == old(isLoading) && session == old(session)
    {
      input := transcript;
      isListening := false;
    }

    /** Recognition errors and the end of recognition both stop listening. */
    method OnSpeechStop()
      modifies this
      ensures !isListening
      ensures messages == old(messages) && input == old(input) && isOpen == old(isOpen)
      ensures isLoading == old(isLoading) && session == old(session)
    {
      isListening := false;
    }
  }
}
