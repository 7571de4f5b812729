/** The request validation of `api/app.py`: `sanitize_text`, the field
    validators of `ChatMessage` and `ChatRequest`, and the message list that
    `chat` builds for the completion call.

    A request is validated field by field in declaration order; every failing
    field contributes its error, and the history's length is checked only when
    all of its entries are valid, as pydantic does for a list field with a
    validator. */
module Api {
  import opened Text
  import opened Wrappers

  /** `sanitized[:10000]`. */
  const MaxSanitizedLength: nat := 10000

  /** The largest accepted `chat_history`. */
  const MaxHistory: nat := 50

  /** The default of the optional `model` field. */
  const DefaultModel: string := "gpt-4.1-mini"

  const AllowedModels: seq<string> := ["gpt-4.1-mini", "gpt-4o-mini", "gpt-3.5-turbo"]

  // ---------------------------------------------------------------------------
  // sanitize_text
  // ---------------------------------------------------------------------------

  /** The characters the sanitizer deletes: `<`, `>`, `"` and `'`. */
  predicate IsDangerous(c: char) {
    c == '<' || c == '>' || c == '"' || c == '\''
  }

  /** `re.sub(r'[<>"\']', '', s)`. */
  function RemoveDangerous(s: string): string
    decreases |s|
  {
    if s == [] then []
    else (if IsDangerous(s[0]) then [] else [s[0]]) + RemoveDangerous(s[1..])
  }

  /** The first `n` characters, or all of them: `s[:n]`. */
  function Take(s: string, n: nat): (r: string)
    ensures |r| == if |s| <= n then |s| else n
    ensures r <= s
  {
    if |s| <= n then s else s[..n]
  }

  /** `sanitize_text`. */
  function SanitizeText(text: string): string {
    if text == "" then "" else Take(RemoveDangerous(Strip(text)), MaxSanitizedLength)
  }

  /** The deletion leaves no dangerous character and never lengthens. */
  lemma {:induction false} RemoveDangerousClean(s: string)
    ensures var r := RemoveDangerous(s);
      |r| <= |s| && forall i :: 0 <= i < |r| ==> !IsDangerous(r[i])
    decreases |s|
  {
    if s != [] {
      RemoveDangerousClean(s[1..]);
    }
  }

  /** The deletion works character by character: it distributes over concatenation. */
  lemma {:induction false} RemoveDangerousConcat(a: string, b: string)
    ensures RemoveDangerous(a + b) == RemoveDangerous(a) + RemoveDangerous(b)
    decreases |a|
  {
    if a == [] {
      assert a + b == b;
    } else {
      assert (a + b)[1..] == a[1..] + b;
      RemoveDangerousConcat(a[1..], b);
    }
  }

  /** A string without dangerous characters is left as it is. */
  lemma {:induction false} RemoveDangerousKeepsSafe(s: string)
    requires forall i :: 0 <= i < |s| ==> !IsDangerous(s[i])
    ensures RemoveDangerous(s) == s
    decreases |s|
  {
    if s != [] {
      RemoveDangerousKeepsSafe(s[1..]);
    }
  }

  /** The sanitized text holds none of `< > " '`, is at most 10000 characters,
      and is the start of the stripped input with those characters deleted: all
      of it when that is short enough, otherwise exactly its first 10000
      characters. Empty input gives empty output. */
  lemma SanitizeSpec(text: string)
    ensures var r := SanitizeText(text);
      && |r| <= MaxSanitizedLength
      && (forall i :: 0 <= i < |r| ==> !IsDangerous(r[i]))
      && r <= RemoveDangerous(Strip(text))
      && (|RemoveDangerous(Strip(text))| <= MaxSanitizedLength ==> r == RemoveDangerous(Strip(text)))
      && |r| == (if |RemoveDangerous(Strip(text))| <= MaxSanitizedLength then |RemoveDangerous(Strip(text))| else MaxSanitizedLength)
      && (text == "" ==> r == "")
  {
    var full := RemoveDangerous(Strip(text));
    RemoveDangerousClean(Strip(text));
    if text == "" {
      assert Strip(text) == "";
    }
  }

  /** Sanitizing twice can change the text again: deleting `<` from `"<  a"`
      exposes the leading blanks, which only a second strip removes. */
  lemma SanitizeNotIdempotent()
    ensures SanitizeText("<  a") == "  a"
    ensures SanitizeText("  a") == "a"
  {
    StripKeepsBracketed();
    RemoveExposesBlanks();
    StripRemovesBlanks();
    RemoveDangerousKeepsSafe("a");
  }

  lemma StripKeepsBracketed()
    ensures Strip("<  a") == "<  a"
  {
    var s := "<  a";
    assert LeadingWhitespace(s) == 0;
    assert TrailingWhitespace(s) == 0;
    assert s[0..] == s;
    assert s[..|s|] == s;
  }

  lemma RemoveExposesBlanks()
    ensures RemoveDangerous("<  a") == "  a"
  {
    assert "<  a" == "<" + "  a";
    RemoveDangerousConcat("<", "  a");
    assert RemoveDangerous("<") == "";
    RemoveDangerousKeepsSafe("  a");
  }

  lemma StripRemovesBlanks()
    ensures Strip("  a") == "a"
  {
    var s := "  a";
    assert s[1..] == " a" && " a"[1..] == "a";
    assert LeadingWhitespace("a") == 0;
    assert LeadingWhitespace(s) == 2;
    assert TrimStart(s) == "a";
    assert TrailingWhitespace("a") == 0;
  }

  // ---------------------------------------------------------------------------
  // Validators
  // ---------------------------------------------------------------------------

  /** The reasons a field is rejected; an entry of `chat_history` reports its
      index. */
  datatype FieldError =
    | RoleInvalid
    | ContentEmpty
    | DeveloperMessageEmpty
    | UserMessageEmpty
    | ModelNotAllowed
    | HistoryTooLong
    | ApiKeyEmpty
    | ApiKeyPrefix
    | InHistory(index: nat, error: FieldError)

  /** A validator's outcome: the (possibly transformed) value, or the errors. */
  datatype Validated<T> = Valid(value: T) | Invalid(errors: seq<FieldError>)

  function Errors<T>(v: Validated<T>): seq<FieldError> {
    if v.Valid? then [] else v.errors
  }

  /** A `chat_history` entry; the same shape before and after validation. */
  datatype Message = Message(role: string, content: string)

  /** The request body as received; `model` is `None` when the field is absent. */
  datatype RawRequest = RawRequest(
    developer_message: string,
    user_message: string,
    chat_history: seq<Message>,
    model: Option<string>,
    api_key: string)

  /** The request after validation. */
  datatype ChatRequest = ChatRequest(
    developer_message: string,
    user_message: string,
    chat_history: seq<Message>,
    model: string,
    api_key: string)

  /** `ChatMessage.validate_role`. */
  function ValidateRole(v: string): Validated<string> {
    if v == "user" || v == "ai" then Valid(v) else Invalid([RoleInvalid])
  }

  /** The check shared by the text fields: reject a blank value, otherwise
      return it sanitized. */
  function ValidateText(v: string, error: FieldError): Validated<string> {
    if IsBlank(v) then Invalid([error]) else Valid(SanitizeText(v))
  }

  /** `ChatMessage.validate_content`. */
  function ValidateContent(v: string): Validated<string> {
    ValidateText(v, ContentEmpty)
  }

  /** `ChatRequest.validate_developer_message`. */
  function ValidateDeveloperMessage(v: string): Validated<string> {
    ValidateText(v, DeveloperMessageEmpty)
  }

  /** `ChatRequest.validate_user_message`. */
  function ValidateUserMessage(v: string): Validated<string> {
    ValidateText(v, UserMessageEmpty)
  }

  /** `ChatRequest.validate_model`; an absent field takes the default and is
      not validated. */
  function ValidateModel(v: Option<string>): Validated<string> {
    match v
    case None => Valid(DefaultModel)
    case Some(m) => if m in AllowedModels then Valid(m) else Invalid([ModelNotAllowed])
  }

  /** `ChatRequest.validate_api_key`: blank first, then the prefix of the raw
      value; the accepted key is stripped. */
  function ValidateApiKey(v: string): Validated<string> {
    if IsBlank(v) then Invalid([ApiKeyEmpty])
    else if !("sk-" <= v) then Invalid([ApiKeyPrefix])
    else Valid(Strip(v))
  }

  /** Both validators of one `ChatMessage`. */
  function ValidateMessage(m: Message): Validated<Message> {
    var role := ValidateRole(m.role);
    var content := ValidateContent(m.content);
    if role.Valid? && content.Valid? then Valid(Message(role.value, content.value))
    else Invalid(Errors(role) + Errors(content))
  }

  /** The errors of one entry, tagged with its index. */
  function Tagged(index: nat, errors: seq<FieldError>): (r: seq<FieldError>)
    ensures |r| == |errors|
    ensures forall k :: 0 <= k < |r| ==> r[k] == InHistory(index, errors[k])
    decreases |errors|
  {
    if errors == [] then [] else [InHistory(index, errors[0])] + Tagged(index, errors[1..])
  }

  /** The entries from index `from` on, each validated. */
  function ValidateEntries(h: seq<Message>, from: nat): Validated<seq<Message>>
    decreases |h|
  {
    if h == [] then Valid([])
    else
      var first := ValidateMessage(h[0]);
      var rest := ValidateEntries(h[1..], from + 1);
      if first.Valid? && rest.Valid? then Valid([first.value] + rest.value)
      else Invalid(Tagged(from, Errors(first)) + Errors(rest))
  }

  /** The `chat_history` field: its entries, then `validate_chat_history`. */
  function ValidateChatHistory(h: seq<Message>): Validated<seq<Message>> {
    var entries := ValidateEntries(h, 0);
    if entries.Invalid? then entries
    else if |entries.value| > MaxHistory then Invalid([HistoryTooLong])
    else entries
  }

  /** The whole `ChatRequest`. */
  function ValidateRequest(raw: RawRequest): Validated<ChatRequest> {
    var d := ValidateDeveloperMessage(raw.developer_message);
    var u := ValidateUserMessage(raw.user_message);
    var h := ValidateChatHistory(raw.chat_history);
    var m := ValidateModel(raw.model);
    var k := ValidateApiKey(raw.api_key);
    if d.Valid? && u.Valid? && h.Valid? && m.Valid? && k.Valid? then
      Valid(ChatRequest(d.value, u.value, h.value, m.value, k.value))
    else
      Invalid(Errors(d) + Errors(u) + Errors(h) + Errors(m) + Errors(k))
  }

  // ---------------------------------------------------------------------------
  // Properties of the validators
  // ---------------------------------------------------------------------------

  /** A role is accepted exactly when it is "user" or "ai", and is kept as it is. */
  lemma RoleAcceptedIff(v: string)
    ensures ValidateRole(v).Valid? <==> v == "user" || v == "ai"
    ensures ValidateRole(v).Valid? ==> ValidateRole(v).value == v
  {
  }

  /** A text field is rejected exactly when it is all whitespace (empty
      included); an accepted one is returned sanitized. */
  lemma TextFieldIff(v: string, error: FieldError)
    ensures ValidateText(v, error).Valid? <==> !AllWhitespace(v)
    ensures ValidateText(v, error).Valid? ==> ValidateText(v, error).value == SanitizeText(v)
    ensures ValidateText(v, error).Invalid? ==> ValidateText(v, error).errors == [error]
  {
    BlankIffAllWhitespace(v);
  }

  /** A value that is not blank can still sanitize to nothing: `"<>"` is
      accepted as the empty string. */
  lemma DangerousOnlyAcceptedAsEmpty()
    ensures ValidateContent("<>") == Valid("")
  {
    assert !IsWhitespace('<');
    BlankIffAllWhitespace("<>");
    assert LeadingWhitespace("<>") == 0 && TrailingWhitespace("<>") == 0;
    assert RemoveDangerous("<>") == "" by {
      assert "<>"[1..] == ">";
      assert ">"[1..] == "";
    }
  }

  /** The model is accepted exactly when absent or one of the three names; an
      absent model becomes the default. */
  lemma ModelAcceptedIff(v: Option<string>)
    ensures ValidateModel(v).Valid? <==> v.None? || v.value in AllowedModels
    ensures v.None? ==> ValidateModel(v) == Valid(DefaultModel)
    ensures v.Some? && ValidateModel(v).Valid? ==> ValidateModel(v).value == v.value
  {
  }

  /** An accepted key is the stripped raw key and still starts with "sk-"; a
      blank key or a raw key without the prefix is rejected, in that order. */
  lemma ApiKeyIff(v: string)
    ensures ValidateApiKey(v).Valid? <==> !IsBlank(v) && "sk-" <= v
    ensures IsBlank(v) ==> ValidateApiKey(v) == Invalid([ApiKeyEmpty])
    ensures !IsBlank(v) && !("sk-" <= v) ==> ValidateApiKey(v) == Invalid([ApiKeyPrefix])
    ensures ValidateApiKey(v).Valid? ==> ValidateApiKey(v).value == Strip(v) && "sk-" <= ValidateApiKey(v).value
  {
    if !IsBlank(v) && "sk-" <= v {
      assert v == "sk-" + v[3..];
      StripKeepsPrefix("sk-", v[3..]);
    }
  }

  /** The prefix is checked before stripping: a key with a leading blank is
      rejected although its stripped form would pass. */
  lemma LeadingBlankKeyRejected()
    ensures ValidateApiKey(" sk-1") == Invalid([ApiKeyPrefix])
  {
    assert !IsWhitespace('s');
    BlankIffAllWhitespace(" sk-1");
  }

  /** Validating the entries keeps their number and order: on success each
      entry keeps its role and has its content sanitized. */
  lemma {:induction false} EntriesValue(h: seq<Message>, from: nat)
    ensures var r := ValidateEntries(h, from);
      r.Valid? ==> |r.value| == |h|
                   && forall i :: 0 <= i < |h| ==>
                        r.value[i] == Message(h[i].role, SanitizeText(h[i].content))
    decreases |h|
  {
    if h != [] {
      EntriesValue(h[1..], from + 1);
      var first := ValidateMessage(h[0]);
      var rest := ValidateEntries(h[1..], from + 1);
      if first.Valid? && rest.Valid? {
        forall i | 0 <= i < |h|
          ensures ([first.value] + rest.value)[i] == Message(h[i].role, SanitizeText(h[i].content))
        {
          if i > 0 {
            assert h[1..][i - 1] == h[i];
          }
        }
      }
    }
  }

  /** The entries are accepted exactly when every entry is. */
  lemma {:induction false} EntriesAcceptedIff(h: seq<Message>, from: nat)
    ensures ValidateEntries(h, from).Valid? <==> forall i :: 0 <= i < |h| ==> ValidateMessage(h[i]).Valid?
    decreases |h|
  {
    if h != [] {
      EntriesAcceptedIff(h[1..], from + 1);
      if forall i :: 0 <= i < |h| ==> ValidateMessage(h[i]).Valid? {
        forall i | 0 <= i < |h[1..]|
          ensures ValidateMessage(h[1..][i]).Valid?
        {
          assert h[1..][i] == h[i + 1];
        }
      } else {
        var j :| 0 <= j < |h| && !ValidateMessage(h[j]).Valid?;
        if j > 0 {
          assert h[1..][j - 1] == h[j];
        }
      }
    }
  }

  /** Rejected entries report at least one error. */
  lemma {:induction false} EntriesRejectionReported(h: seq<Message>, from: nat)
    ensures ValidateEntries(h, from).Invalid? ==> ValidateEntries(h, from).errors != []
    decreases |h|
  {
    if h != [] {
      EntriesRejectionReported(h[1..], from + 1);
      var first := ValidateMessage(h[0]);
      if first.Invalid? {
        assert Errors(first) != [];
      }
    }
  }

  /** A history with more than 50 entries is never accepted; an accepted one
      has at most 50 entries, in order, with sanitized contents. */
  lemma HistoryBounded(h: seq<Message>)
    ensures |h| > MaxHistory ==> ValidateChatHistory(h).Invalid?
    ensures ValidateChatHistory(h).Valid? ==>
      && |ValidateChatHistory(h).value| == |h| <= MaxHistory
      && forall i :: 0 <= i < |h| ==>
           ValidateChatHistory(h).value[i] == Message(h[i].role, SanitizeText(h[i].content))
  {
    EntriesValue(h, 0);
  }

  /** A request is accepted exactly when every field is, and then holds each
      field's validated value; a rejected one reports at least one error. */
  lemma RequestAcceptedIff(raw: RawRequest)
    ensures var r := ValidateRequest(raw);
      && (r.Valid? <==>
            && !IsBlank(raw.developer_message)
            && !IsBlank(raw.user_message)
            && ValidateChatHistory(raw.chat_history).Valid?
            && ValidateModel(raw.model).Valid?
            && ValidateApiKey(raw.api_key).Valid?)
      && (r.Valid? ==>
            && r.value.developer_message == SanitizeText(raw.developer_message)
            && r.value.user_message == SanitizeText(raw.user_message)
            && r.value.chat_history == ValidateChatHistory(raw.chat_history).value
            && r.value.model == ValidateModel(raw.model).value
            && r.value.api_key == Strip(raw.api_key))
      && (r.Invalid? ==> r.errors != [])
  {
    EntriesRejectionReported(raw.chat_history, 0);
  }

  // ---------------------------------------------------------------------------
  // The completion request
  // ---------------------------------------------------------------------------

  /** One entry of the `messages` list sent to the completion API. */
  datatype WireMessage = WireMessage(role: string, content: string)

  /** The history role as the completion API names it. */
  function WireRole(role: string): string {
    if role == "ai" then "assistant" else role
  }

  /** Every history entry has one of the two roles the validator accepts. */
  predicate ValidRoles(h: seq<Message>) {
    forall k :: 0 <= k < |h| ==> h[k].role == "user" || h[k].role == "ai"
  }

  /** The list built in `chat`: the system message, the history with `ai`
      renamed, the user message. For validated history the system role
      appears only first. */
  method BuildMessages(req: ChatRequest) returns (messages: seq<WireMessage>)
    ensures |messages| == |req.chat_history| + 2
    ensures messages[0] == WireMessage("system", req.developer_message)
    ensures forall k :: 0 <= k < |req.chat_history| ==>
      messages[k + 1] == WireMessage(WireRole(req.chat_history[k].role), req.chat_history[k].content)
    ensures messages[|messages| - 1] == WireMessage("user", req.user_message)
    ensures ValidRoles(req.chat_history) ==>
      forall j :: 0 < j < |messages| ==> messages[j].role == "user" || messages[j].role == "assistant"
  {
    messages := [WireMessage("system", req.developer_message)];
    var i := 0;
    while i < |req.chat_history|
      invariant 0 <= i <= |req.chat_history|
      invariant |messages| == i + 1
      invariant messages[0] == WireMessage("system", req.developer_message)
      invariant forall k :: 0 <= k < i ==>
        messages[k + 1] == WireMessage(WireRole(req.chat_history[k].role), req.chat_history[k].content)
    {
      var message := req.chat_history[i];
      var role := if message.role == "ai" then "assistant" else message.role;
      messages := messages + [WireMessage(role, message.content)];
      i := i + 1;
    }
    messages := messages + [WireMessage("user", req.user_message)];
    if ValidRoles(req.chat_history) {
      forall j | 0 < j < |messages|
        ensures messages[j].role == "user" || messages[j].role == "assistant"
      {
        if j <= |req.chat_history| {
          assert messages[(j - 1) + 1].role == WireRole(req.chat_history[j - 1].role);
        }
      }
    }
  }
}
