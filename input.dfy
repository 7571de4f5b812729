/** The send gating of `frontend/app/components/MessageInput.tsx`: when the
    textarea and the send button are disabled, which key presses send, and which
    help text is shown. The component holds no state of its own; every value is
    computed from the chat's input, API key and loading flag. */
module MessageInput {
  import opened Text
  import Chat
  import P = Performance

  /** `hasApiKey`: the trimmed key is not empty. */
  predicate HasApiKey(apiKey: string) {
    |Strip(apiKey)| > 0
  }

  /** `isDisabled`, the send button's `disabled`: blank input, blank key, or a
      request in flight. */
  predicate IsDisabled(input: string, apiKey: string, isLoading: bool) {
    |Strip(input)| == 0 || |Strip(apiKey)| == 0 || isLoading
  }

  /** The textarea's `disabled`. */
  predicate TextareaDisabled(apiKey: string) {
    !HasApiKey(apiKey)
  }

  /** A key event: the key's name and whether Shift is held. */
  datatype KeyEvent = KeyEvent(key: string, shiftKey: bool)

  /** What a handler does: prevent the default and call `handleSendMessage`, or
      nothing. */
  datatype Action = SendMessage | Ignore

  /** `handleKeyPress`. It does not consult `isDisabled`. */
  function HandleKeyPress(e: KeyEvent): Action {
    if e.key == "Enter" && !e.shiftKey then SendMessage else Ignore
  }

  /** `handleSubmit`: the form's submit always sends. */
  function HandleSubmit(): Action {
    SendMessage
  }

  /** The help line under the input: its text and whether it is an alert. */
  datatype Help = Help(text: string, alert: bool)

  const MissingKeyText: string := "⚠️ Please enter your OpenAI API key in settings to start chatting"
  const KeyboardHintText: string := "Press Enter to send, Shift+Enter for new line"

  /** `HelpText`. */
  function HelpText(hasApiKey: bool): Help {
    if !hasApiKey then Help(MissingKeyText, true) else Help(KeyboardHintText, false)
  }

  // ---------------------------------------------------------------------------
  // Properties
  // ---------------------------------------------------------------------------

  /** The button is disabled exactly when the chat's own send guard fails or a
      request is in flight; equivalently, when the input or the key is all
      whitespace, or loading. */
  lemma DisabledIff(input: string, apiKey: string, isLoading: bool)
    ensures IsDisabled(input, apiKey, isLoading) <==> !Chat.CanSend(input, apiKey) || isLoading
    ensures IsDisabled(input, apiKey, isLoading) <==> AllWhitespace(input) || AllWhitespace(apiKey) || isLoading
  {
    BlankIffAllWhitespace(input);
    BlankIffAllWhitespace(apiKey);
  }

  /** A key is present exactly when some character of it is not whitespace; the
      textarea is disabled exactly when there is none, and then the button is too. */
  lemma TextareaDisabledIff(input: string, apiKey: string, isLoading: bool)
    ensures HasApiKey(apiKey) <==> !AllWhitespace(apiKey)
    ensures TextareaDisabled(apiKey) <==> AllWhitespace(apiKey)
    ensures TextareaDisabled(apiKey) ==> IsDisabled(input, apiKey, isLoading)
  {
    BlankIffAllWhitespace(apiKey);
  }

  /** Exactly Enter without Shift sends; Shift+Enter and every other key do not. */
  lemma KeyPressSendsIff(e: KeyEvent)
    ensures HandleKeyPress(e) == SendMessage <==> e.key == "Enter" && !e.shiftKey
    ensures e.shiftKey ==> HandleKeyPress(e) == Ignore
    ensures e.key != "Enter" ==> HandleKeyPress(e) == Ignore
  {
  }

  /** The form's submit sends whatever the button's state: its handler does not
      look at the input, the key or the loading flag. */
  lemma SubmitAlwaysSends()
    ensures HandleSubmit() == SendMessage
  {
  }

  /** The Enter path ignores the loading gate: with a request in flight the
      button is disabled, yet Enter still sends, and the chat's guard lets the
      send through whenever the input and key are not blank. */
  lemma EnterBypassesLoadingGate(input: string, apiKey: string)
    requires !AllWhitespace(input) && !AllWhitespace(apiKey)
    ensures IsDisabled(input, apiKey, true)
    ensures HandleKeyPress(KeyEvent("Enter", false)) == SendMessage
    ensures Chat.CanSend(input, apiKey)
  {
    BlankIffAllWhitespace(input);
    BlankIffAllWhitespace(apiKey);
  }

  /** The alert is shown exactly when there is no key; the keyboard hint otherwise. */
  lemma HelpTextIff(apiKey: string)
    ensures HelpText(HasApiKey(apiKey)).alert <==> TextareaDisabled(apiKey)
    ensures HelpText(HasApiKey(apiKey)).text ==
      if HasApiKey(apiKey) then KeyboardHintText else MissingKeyText
  {
  }

  /** A second message typed while the first request is still in flight: the
      button is disabled, Enter is dispatched anyway, and the chat starts a
      second send, so two user messages are in the log with loading still on. */
  method EnterWhileLoadingScenario(first: string, second: string, apiKey: string, t1: nat, t2: nat)
    returns (buttonDisabled: bool, action: Action, msgs: seq<Chat.Message>, loading: bool)
    requires Chat.CanSend(first, apiKey) && Chat.CanSend(second, apiKey)
    ensures buttonDisabled && action == SendMessage
    ensures |msgs| == 2 && msgs[0] == Chat.UserMessage(first, t1) && msgs[1] == Chat.UserMessage(second, t2)
    ensures loading
  {
    var monitor := new P.PerformanceMonitor();
    var dedup := new P.RequestDeduplicator();
    var chat := new Chat.ChatController(monitor, dedup);
    chat.SetSettings(Chat.InitialSettings.(apiKey := apiKey));
    chat.SetInputMessage(first);
    var started := chat.BeginSend(t1);
    chat.SetInputMessage(second);
    buttonDisabled := IsDisabled(chat.inputMessage, chat.settings.apiKey, chat.isLoading);
    action := HandleKeyPress(KeyEvent("Enter", false));
    if action == SendMessage {
      started := chat.BeginSend(t2);
    }
    msgs, loading := chat.messages, chat.isLoading;
  }
}
