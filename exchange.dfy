/** The request as it crosses from the frontend to the backend: the JSON body
    that `handleSendMessage` posts, read by the backend as a `ChatRequest`.
    A frontend message keeps its role name and content; its `id` and
    `timestamp` are extra fields the backend ignores. The frontend always sends
    a `model`. */
module Exchange {
  import opened Text
  import opened Wrappers
  import Chat
  import Api

  /** A frontend message as the backend reads it. */
  function ToApiMessage(m: Chat.Message): Api.Message {
    Api.Message(Chat.RoleName(m.role), m.content)
  }

  /** The frontend's `chat_history` as the backend reads it. */
  function ToApiHistory(h: seq<Chat.Message>): (r: seq<Api.Message>)
    ensures |r| == |h|
    ensures forall i :: 0 <= i < |h| ==> r[i] == ToApiMessage(h[i])
    decreases |h|
  {
    if h == [] then [] else [ToApiMessage(h[0])] + ToApiHistory(h[1..])
  }

  /** The posted body as the backend reads it. */
  function ToRawRequest(b: Chat.RequestBody): Api.RawRequest {
    Api.RawRequest(b.developer_message, b.user_message, ToApiHistory(b.chat_history), Some(b.model), b.api_key)
  }

  /** Every role the frontend sends is one the backend accepts. */
  lemma FrontendRolesAccepted(h: seq<Chat.Message>)
    ensures Api.ValidRoles(ToApiHistory(h))
    ensures forall i :: 0 <= i < |h| ==> Api.ValidateRole(ToApiHistory(h)[i].role).Valid?
  {
    forall i | 0 <= i < |h|
      ensures ToApiHistory(h)[i].role == "user" || ToApiHistory(h)[i].role == "ai"
    {
      var name := Chat.RoleName(h[i].role);
      assert name == "user" || name == "ai" by {
        match h[i].role
        case User =>
        case Ai =>
      }
    }
  }

  /** The initial settings' model and system prompt pass their validators. */
  lemma InitialSettingsAccepted()
    ensures Api.ValidateModel(Some(Chat.InitialSettings.model)) == Api.Valid(Chat.InitialSettings.model)
    ensures Api.ValidateDeveloperMessage(Chat.InitialSettings.developerMessage).Valid?
  {
    assert Chat.InitialSettings.model == Api.AllowedModels[0];
    var d := Chat.InitialSettings.developerMessage;
    assert !IsWhitespace(d[0]);
    BlankIffAllWhitespace(d);
  }

  /** Once the log holds more than 50 messages, every further send is rejected. */
  lemma LongHistoryRejected(settings: Chat.ChatSettings, input: string, history: seq<Chat.Message>)
    requires |history| > Api.MaxHistory
    ensures Api.ValidateRequest(ToRawRequest(Chat.RequestBodyFor(settings, input, history))).Invalid?
  {
    var raw := ToRawRequest(Chat.RequestBodyFor(settings, input, history));
    Api.HistoryBounded(raw.chat_history);
    Api.RequestAcceptedIff(raw);
  }

  /** A message of the log whose content is all whitespace makes every later
      send invalid. */
  lemma BlankEntryRejected(settings: Chat.ChatSettings, input: string, history: seq<Chat.Message>, i: nat)
    requires i < |history| && AllWhitespace(history[i].content)
    ensures Api.ValidateRequest(ToRawRequest(Chat.RequestBodyFor(settings, input, history))).Invalid?
  {
    var raw := ToRawRequest(Chat.RequestBodyFor(settings, input, history));
    var entry := raw.chat_history[i];
    assert entry.content == history[i].content;
    Api.TextFieldIff(entry.content, Api.ContentEmpty);
    assert Api.ValidateMessage(entry).Invalid?;
    Api.EntriesAcceptedIff(raw.chat_history, 0);
    Api.RequestAcceptedIff(raw);
  }

  /** A reply that streamed no text leaves the empty placeholder in the log,
      and from then on every send from that log is rejected. */
  lemma EmptyPlaceholderPoisonsLog(settings: Chat.ChatSettings, input: string,
                                   before: seq<Chat.Message>, after: seq<Chat.Message>, t: nat)
    ensures var history := before + [Chat.Placeholder(t)] + after;
      Api.ValidateRequest(ToRawRequest(Chat.RequestBodyFor(settings, input, history))).Invalid?
  {
    var history := before + [Chat.Placeholder(t)] + after;
    assert history[|before|] == Chat.Placeholder(t);
    BlankEntryRejected(settings, input, history, |before|);
  }

  /** The frontend's guard only asks for a non-blank key; the backend also
      wants the "sk-" prefix, so a send the frontend makes can be refused. */
  lemma FrontendKeyGuardIsWeaker()
    ensures Chat.CanSend("hi", "abc")
    ensures Api.ValidateApiKey("abc") == Api.Invalid([Api.ApiKeyPrefix])
  {
    assert !IsWhitespace('h') && !IsWhitespace('a');
    BlankIffAllWhitespace("hi");
    BlankIffAllWhitespace("abc");
  }
}
