/** The conversation controller of `frontend/app/hooks/useChat.ts` and the
    records of `frontend/app/components/types.ts`.

    The network is an oracle (`Reply`): whether `fetch` rejects, whether the
    response is ok, whether it has a body, and the chunks the body reader yields,
    possibly followed by a failed read. Each chunk is given as the text
    `TextDecoder.decode` makes of it. Clock readings are the parameter `Times`. */
module Chat {
  import opened Text
  import opened Wrappers
  import P = Performance

  datatype Role = User | Ai

  datatype Message = Message(id: string, content: string, role: Role, timestamp: int)

  datatype ChatSettings = ChatSettings(apiKey: string, developerMessage: string, model: string)

  const InitialSettings := ChatSettings("", "You are a helpful AI assistant.", "gpt-4.1-mini")

  const ErrorText := "Sorry, there was an error processing your request. Please check your API key and try again."

  /** The role as it travels in `chat_history`. */
  function RoleName(r: Role): (name: string)
    ensures name == "user" <==> r == User
    ensures name == "ai" <==> r == Ai
  {
    match r
    case User => "user"
    case Ai => "ai"
  }

  /** `Date.now().toString()` for a non-negative clock reading. */
  function DecimalString(n: nat): string
    decreases n
  {
    var digit := ((n % 10) + 48) as char;
    if n < 10 then [digit] else DecimalString(n / 10) + [digit]
  }

  // ---------------------------------------------------------------------------
  // Pure pieces
  // ---------------------------------------------------------------------------

  /** The guard of `handleSendMessage`: a non-blank input and a non-blank API key.
      It does not look at `isLoading`. */
  predicate CanSend(input: string, apiKey: string) {
    !IsBlank(input) && !IsBlank(apiKey)
  }

  /** What the screen reader hears for message `m`. */
  function Label(m: Message): string {
    (if m.role == User then "You said: " else "AI responded: ") + m.content
  }

  /** The announcement effect: when the last message has content, announce it;
      otherwise keep the previous announcement. */
  function Announce(prev: string, msgs: seq<Message>): (a: string)
    ensures msgs != [] && msgs[|msgs| - 1].content != "" ==> a == Label(msgs[|msgs| - 1])
    ensures msgs == [] || msgs[|msgs| - 1].content == "" ==> a == prev
  {
    if msgs != [] && msgs[|msgs| - 1].content != "" then Label(msgs[|msgs| - 1]) else prev
  }

  /** `updateLastMessage`: replace only the content of the last message. */
  function UpdateLastMessage(prev: seq<Message>, updater: string -> string): (r: seq<Message>)
    ensures prev == [] ==> r == prev
    ensures |r| == |prev|
    ensures forall i :: 0 <= i < |prev| - 1 ==> r[i] == prev[i]
    ensures prev != [] ==>
      var last := prev[|prev| - 1];
      var now := r[|r| - 1];
      now.id == last.id && now.role == last.role && now.timestamp == last.timestamp
      && now.content == updater(last.content)
  {
    if |prev| == 0 then prev
    else
      var lastIndex := |prev| - 1;
      prev[lastIndex := prev[lastIndex].(content := updater(prev[lastIndex].content))]
  }

  /** `apiKey.slice(-8)`: the last (at most) eight characters. */
  function ApiKeySuffix(apiKey: string): (r: string)
    ensures |r| == if |apiKey| < 8 then |apiKey| else 8
    ensures r == apiKey[|apiKey| - |r|..]
  {
    if |apiKey| <= 8 then apiKey else apiKey[|apiKey| - 8..]
  }

  /** The deduplication key `${inputMessage}-${model}-${apiKey.slice(-8)}`. */
  function RequestKey(input: string, model: string, apiKey: string): string {
    input + "-" + model + "-" + ApiKeySuffix(apiKey)
  }

  /** For one model and one key, two requests share a key exactly when their
      message texts are equal: distinct texts never share a call. */
  lemma RequestKeyDistinguishesInput(a: string, b: string, model: string, apiKey: string)
    ensures RequestKey(a, model, apiKey) == RequestKey(b, model, apiKey) <==> a == b
  {
    var tail := "-" + model + "-" + ApiKeySuffix(apiKey);
    assert RequestKey(a, model, apiKey) == a + tail;
    assert RequestKey(b, model, apiKey) == b + tail;
    if a + tail == b + tail {
      assert |a| == |b|;
      assert a == (a + tail)[..|a|] && b == (b + tail)[..|b|];
    }
  }

  /** The JSON body posted to `/api/chat`. */
  datatype RequestBody = RequestBody(
    developer_message: string,
    user_message: string,
    chat_history: seq<Message>,
    model: string,
    api_key: string)

  /** The body of a send of `input` from log `history` (the log before this send). */
  function RequestBodyFor(settings: ChatSettings, input: string, history: seq<Message>): RequestBody {
    RequestBody(settings.developerMessage, input, history, settings.model, settings.apiKey)
  }

  // ---------------------------------------------------------------------------
  // The network oracle and the streamed text
  // ---------------------------------------------------------------------------

  /** The decoded text of one chunk of the response body. */
  type Chunk = string

  /** The chunks `reader.read()` yields in order; `failsAfter` means the read
      after the last chunk rejects instead of reporting `done`. */
  datatype Body = Body(chunks: seq<Chunk>, failsAfter: bool)

  datatype Reply = FetchRejected | Response(ok: bool, body: Option<Body>)

  datatype ReadResult = Done | Value(chunk: Chunk) | ReadFailed

  /** The `i`-th call of `reader.read()`. */
  function Read(b: Body, i: nat): (r: ReadResult)
    ensures r.Value? <==> i < |b.chunks|
    ensures r.Value? ==> r.chunk == b.chunks[i]
    ensures r.ReadFailed? <==> i >= |b.chunks| && b.failsAfter
  {
    if i < |b.chunks| then Value(b.chunks[i]) else if b.failsAfter then ReadFailed else Done
  }

  /** The concatenation of the chunks' text. */
  function Streamed(chunks: seq<Chunk>): string
    decreases |chunks|
  {
    if chunks == [] then "" else chunks[0] + Streamed(chunks[1..])
  }

  /** Decoding one more chunk appends its text at the end. */
  lemma {:induction false} StreamedSnoc(chunks: seq<Chunk>, c: Chunk)
    ensures Streamed(chunks + [c]) == Streamed(chunks) + c
    decreases |chunks|
  {
    if chunks == [] {
      assert [c][1..] == [];
    } else {
      assert (chunks + [c])[1..] == chunks[1..] + [c];
      StreamedSnoc(chunks[1..], c);
    }
  }

  /** Every patch extends the previous one: the text after `i` chunks is a
      prefix of the text after `j >= i` chunks. */
  lemma {:induction false} StreamedPrefix(chunks: seq<Chunk>, i: nat, j: nat)
    requires i <= j <= |chunks|
    ensures Streamed(chunks[..i]) <= Streamed(chunks[..j])
    decreases j - i
  {
    if i < j {
      StreamedPrefix(chunks, i, j - 1);
      assert chunks[..j] == chunks[..j - 1] + [chunks[j - 1]];
      StreamedSnoc(chunks[..j - 1], chunks[j - 1]);
    }
  }

  /** The clock readings of one send: the click, the response, the settlement. */
  datatype Times = Times(sent: nat, replied: nat, settled: nat)

  function UserMessage(input: string, t: nat): Message {
    Message(DecimalString(t), input, User, t)
  }

  function Placeholder(t: nat): Message {
    Message(DecimalString(t + 1), "", Ai, t)
  }

  function ErrorMessage(t: nat): Message {
    Message(DecimalString(t), ErrorText, Ai, t)
  }

  /** What the request function does to the log, and whether it completes
      without throwing. */
  datatype Fetched = Fetched(appended: seq<Message>, ok: bool)

  /** Whether the request function completes without throwing: the response is
      ok, has a body, and the reader ends with `done`. */
  predicate Completes(reply: Reply) {
    reply.Response? && reply.ok && reply.body.Some? && !reply.body.value.failsAfter
  }

  /** Specification of the request function passed to `deduplicate`. */
  function RequestOutcome(reply: Reply, t: nat): (f: Fetched)
    ensures f.ok == Completes(reply)
  {
    match reply
    case FetchRejected => Fetched([], false)
    case Response(ok, body) =>
      if !ok || body.None? then Fetched([], false)
      else Fetched([Placeholder(t).(content := Streamed(body.value.chunks))], !body.value.failsAfter)
  }

  /** Whether the awaited request (own or shared) settles successfully. */
  predicate Succeeds(shared: bool, sharedOk: bool, reply: Reply) {
    if shared then sharedOk else Completes(reply)
  }

  /** The messages a valid send appends after the user message. */
  function ExchangeMessages(shared: bool, sharedOk: bool, reply: Reply, t: Times): seq<Message> {
    var own := if shared then [] else RequestOutcome(reply, t.replied).appended;
    own + (if Succeeds(shared, sharedOk, reply) then [] else [ErrorMessage(t.settled)])
  }

  /** The placeholder is appended exactly when this send made its own call and
      the response was ok with a body; it then holds the whole streamed text. */
  lemma PlaceholderOnlyForOkBody(shared: bool, sharedOk: bool, reply: Reply, t: Times)
    ensures var ms := ExchangeMessages(shared, sharedOk, reply, t);
      (ms != [] && ms[0].id == DecimalString(t.replied + 1) && ms[0].role == Ai && ms[0].timestamp == t.replied)
      <== (!shared && reply.Response? && reply.ok && reply.body.Some?)
    ensures !shared && reply.Response? && reply.ok && reply.body.Some? ==>
      ExchangeMessages(shared, sharedOk, reply, t)[0].content == Streamed(reply.body.value.chunks)
    ensures (shared || !(reply.Response? && reply.ok && reply.body.Some?)) ==>
      forall m :: m in ExchangeMessages(shared, sharedOk, reply, t) ==> m == ErrorMessage(t.settled)
  {
  }

  /** On failure exactly one error message ends the exchange, after the
      placeholder (if any), which keeps what had streamed. */
  lemma FailureAppendsOneError(shared: bool, sharedOk: bool, reply: Reply, t: Times)
    requires !Succeeds(shared, sharedOk, reply)
    ensures var ms := ExchangeMessages(shared, sharedOk, reply, t);
      1 <= |ms| <= 2 && ms[|ms| - 1] == ErrorMessage(t.settled)
      && (|ms| == 2 ==> ms[0] == Placeholder(t.replied).(content := Streamed(reply.body.value.chunks)))
  {
  }

  /** A successful own call appends only the placeholder with the streamed text;
      a successful shared call appends nothing. */
  lemma SuccessAppendsNoError(shared: bool, sharedOk: bool, reply: Reply, t: Times)
    requires Succeeds(shared, sharedOk, reply)
    ensures shared ==> ExchangeMessages(shared, sharedOk, reply, t) == []
    ensures !shared ==> ExchangeMessages(shared, sharedOk, reply, t)
                        == [Placeholder(t.replied).(content := Streamed(reply.body.value.chunks))]
  {
  }

  /** The sample recorded after a successful send. */
  function SampleFor(history: seq<Message>, input: string, renderTime: real): (p: P.PartialMetrics)
    ensures p.renderTime == Some(renderTime)
    ensures p.messageCount == Some((|history| + 2) as real)
    ensures p.averageMessageLength == Some(|input| as real)
    ensures p.scrollPerformance == Some(0.0)
  {
    P.PartialMetrics(Some(renderTime), Some((|history| + 2) as real), Some(|input| as real), Some(0.0))
  }

  /** The sample of a successful send, timed from the click to the settlement. */
  function SendSample(history: seq<Message>, input: string, t: Times): P.PerformanceMetrics {
    P.WithDefaults(SampleFor(history, input, t.settled as real - t.sent as real))
  }

  lemma AnnounceIdempotent(prev: string, msgs: seq<Message>)
    ensures Announce(Announce(prev, msgs), msgs) == Announce(prev, msgs)
  {
  }

  // ---------------------------------------------------------------------------
  // The controller
  // ---------------------------------------------------------------------------

  /** The state of `useChat` and the shared utilities it calls. `requests` logs
      every body posted to `/api/chat`. */
  class ChatController {
    var messages: seq<Message>
    var inputMessage: string
    var isLoading: bool
    var settings: ChatSettings
    var announcement: string
    var requests: seq<RequestBody>
    const monitor: P.PerformanceMonitor
    const dedup: P.RequestDeduplicator

    /** The table is consistent and the announcement is current for the log. */
    ghost predicate Valid()
      reads this, dedup
    {
      dedup.Valid() && announcement == Announce(announcement, messages)
    }

    constructor (monitor: P.PerformanceMonitor, dedup: P.RequestDeduplicator)
      requires dedup.Valid()
      ensures Valid()
      ensures this.monitor == monitor && this.dedup == dedup
      ensures messages == [] && inputMessage == "" && !isLoading
      ensures settings == InitialSettings && announcement == "" && requests == []
    {
      this.monitor := monitor;
      this.dedup := dedup;
      messages := [];
      inputMessage := "";
      isLoading := false;
      settings := InitialSettings;
      announcement := "";
      requests := [];
    }

    method SetInputMessage(s: string)
      modifies this
      ensures inputMessage == s
      ensures messages == old(messages) && isLoading == old(isLoading) && settings == old(settings)
      ensures announcement == old(announcement) && requests == old(requests)
    {
      inputMessage := s;
    }

    method SetSettings(s: ChatSettings)
      modifies this
      ensures settings == s
      ensures messages == old(messages) && isLoading == old(isLoading) && inputMessage == old(inputMessage)
      ensures announcement == old(announcement) && requests == old(requests)
    {
      settings := s;
    }

    /** `setMessages(prev => [...prev, m])` followed by the announcement effect. */
    method Append(m: Message)
      modifies this
      ensures messages == old(messages) + [m]
      ensures announcement == Announce(old(announcement), messages)
      ensures inputMessage == old(inputMessage) && isLoading == old(isLoading)
      ensures settings == old(settings) && requests == old(requests)
    {
      messages := messages + [m];
      announcement := Announce(announcement, messages);
    }

    /** `updateLastMessage(() => content)` followed by the announcement effect. */
    method Patch(content: string)
      modifies this
      ensures messages == UpdateLastMessage(old(messages), _ => content)
      ensures announcement == Announce(old(announcement), messages)
      ensures inputMessage == old(inputMessage) && isLoading == old(isLoading)
      ensures settings == old(settings) && requests == old(requests)
    {
      messages := UpdateLastMessage(messages, _ => content);
      announcement := Announce(announcement, messages);
    }

    /** The guard and the synchronous prefix of `handleSendMessage`. */
    method BeginSend(now: nat) returns (started: bool)
      requires Valid()
      modifies this, monitor
      ensures Valid()
      ensures started <==> CanSend(old(inputMessage), old(settings.apiKey))
      ensures !started ==> messages == old(messages) && inputMessage == old(inputMessage)
                           && isLoading == old(isLoading) && announcement == old(announcement)
                           && monitor.renderStartTime == old(monitor.renderStartTime)
      ensures started ==> messages == old(messages) + [UserMessage(old(inputMessage), now)]
                          && inputMessage == "" && isLoading
                          && announcement == Label(UserMessage(old(inputMessage), now))
                          && monitor.renderStartTime == now as real
      ensures settings == old(settings) && requests == old(requests)
      ensures monitor.metrics == old(monitor.metrics)
    {
      started := CanSend(inputMessage, settings.apiKey);
      if !started {
        return;
      }
      monitor.StartRenderTimer(now as real);
      Append(UserMessage(inputMessage, now));
      inputMessage := "";
      isLoading := true;
    }

    /** The request function given to `deduplicate`: post, check the response,
        append the placeholder and stream into it. `ok` is false when it throws. */
    method RunRequest(body: RequestBody, reply: Reply, now: nat) returns (ok: bool)
      requires Valid()
      modifies this
      ensures Valid()
      ensures requests == old(requests) + [body]
      ensures messages == old(messages) + RequestOutcome(reply, now).appended
      ensures ok == RequestOutcome(reply, now).ok
      ensures announcement == Announce(old(announcement), messages)
      ensures inputMessage == old(inputMessage) && isLoading == old(isLoading) && settings == old(settings)
    {
      requests := requests + [body];
      if reply.FetchRejected? || !reply.ok || reply.body.None? {
        return false;
      }
      ghost var before := messages;
      Append(Placeholder(now));
      ok := StreamBody(reply.body.value, now);
      assert messages == before + [Placeholder(now).(content := Streamed(reply.body.value.chunks))];
    }

    /** The read loop: each chunk is appended to `aiResponse` and patched into
        the placeholder, which is the last message. */
    method StreamBody(b: Body, now: nat) returns (ok: bool)
      requires Valid()
      requires messages != [] && messages[|messages| - 1] == Placeholder(now)
      modifies this
      ensures Valid()
      ensures messages == old(messages)[..|old(messages)| - 1] + [Placeholder(now).(content := Streamed(b.chunks))]
      ensures ok == !b.failsAfter
      ensures announcement == Announce(old(announcement), messages)
      ensures requests == old(requests)
      ensures inputMessage == old(inputMessage) && isLoading == old(isLoading) && settings == old(settings)
    {
      var aiResponse := "";
      ghost var before := messages[..|messages| - 1];
      assert messages == before + [Placeholder(now)];
      var i := 0;
      while true
        invariant 0 <= i <= |b.chunks|
        invariant aiResponse == Streamed(b.chunks[..i])
        invariant messages == before + [Placeholder(now).(content := aiResponse)]
        invariant announcement == Announce(old(announcement), messages)
        invariant dedup.Valid()
        invariant requests == old(requests)
        invariant inputMessage == old(inputMessage) && isLoading == old(isLoading) && settings == old(settings)
        decreases |b.chunks| - i
      {
        var r := Read(b, i);
        if r.Done? {
          ok := true;
          break;
        }
        if r.ReadFailed? {
          ok := false;
          break;
        }
        var chunk := r.chunk;
        assert b.chunks[..i + 1] == b.chunks[..i] + [r.chunk];
        StreamedSnoc(b.chunks[..i], r.chunk);
        ghost var previous := aiResponse;
        aiResponse := aiResponse + chunk;
        // The text only grows, so when it is still empty so was every earlier
        // patch, and the announcement kept by `Patch` is the one from before
        // the loop.
        assert |previous| <= |aiResponse|;
        Patch(aiResponse);
        assert messages == before + [Placeholder(now).(content := aiResponse)];
        i := i + 1;
      }
      assert b.chunks[..i] == b.chunks;
    }

    /** The awaited `deduplicate` call of the `try` block: build the key, share
        a live entry or run the request, and settle. `ok` is false when the
        awaited promise rejects. */
    method AwaitRequest(key: string, body: RequestBody, t: nat,
                        reply: Reply, sharedOk: bool) returns (ok: bool)
      requires Valid()
      modifies this, dedup
      ensures Valid()
      ensures key in old(dedup.pending) ==>
        && ok == sharedOk
        && messages == old(messages) && requests == old(requests)
        && dedup.invocations == old(dedup.invocations)
      ensures key !in old(dedup.pending) ==>
        && ok == Completes(reply)
        && messages == old(messages) + RequestOutcome(reply, t).appended
        && requests == old(requests) + [body]
        && dedup.invocations == old(dedup.invocations) + [key]
      ensures dedup.pending == old(dedup.pending)
      ensures announcement == Announce(old(announcement), messages)
      ensures inputMessage == old(inputMessage) && isLoading == old(isLoading) && settings == old(settings)
    {
      var promise, invoked := dedup.Deduplicate(key);
      if !invoked {
        return sharedOk;
      }
      ok := RunRequest(body, reply, t);
      dedup.Settle(key);
      assert dedup.pending == old(dedup.pending);
    }

    /** The rest of the `try` block after a successful await: one metrics sample. */
    method RecordSuccess(history: seq<Message>, input: string, now: nat)
      modifies monitor
      ensures monitor.metrics == old(monitor.metrics)
        + [P.WithDefaults(SampleFor(history, input, now as real - old(monitor.renderStartTime)))]
      ensures monitor.renderStartTime == old(monitor.renderStartTime)
    {
      var renderTime := monitor.EndRenderTimer(now as real);
      monitor.RecordMetrics(SampleFor(history, input, renderTime));
    }

    /** The `try`/`catch`/`finally` of `handleSendMessage` once the user message
        is in the log: the deduplicated request with its streaming, then one
        metrics sample on success or the error message on failure, and
        `isLoading := false`. `history` is the log as the send captured it;
        `key` and `body` are built from the settings it captured. */
    method FinishSend(key: string, body: RequestBody, input: string, history: seq<Message>, t: Times,
                      reply: Reply, sharedOk: bool, ghost shared: bool)
      requires Valid()
      requires monitor.renderStartTime == t.sent as real
      requires shared == (key in dedup.pending)
      modifies this, monitor, dedup
      ensures Valid()
      ensures messages == old(messages) + ExchangeMessages(shared, sharedOk, reply, t)
      ensures requests == old(requests) + (if shared then [] else [body])
      ensures dedup.invocations == old(dedup.invocations) + (if shared then [] else [key])
      ensures monitor.metrics == old(monitor.metrics)
        + (if Succeeds(shared, sharedOk, reply) then [SendSample(history, input, t)] else [])
      ensures dedup.pending == old(dedup.pending)
      ensures monitor.renderStartTime == old(monitor.renderStartTime)
      ensures announcement == Announce(old(announcement), messages)
      ensures !isLoading && inputMessage == old(inputMessage) && settings == old(settings)
    {
      ghost var own := if shared then [] else RequestOutcome(reply, t.replied).appended;
      var ok := AwaitRequest(key, body, t.replied, reply, sharedOk);
      assert ok == Succeeds(shared, sharedOk, reply);
      assert messages == old(messages) + own;
      ghost var afterRequest := messages;
      Conclude(ok, history, input, t);
      assert ExchangeMessages(shared, sharedOk, reply, t) == own + (if ok then [] else [ErrorMessage(t.settled)]);
      assert messages == old(messages) + ExchangeMessages(shared, sharedOk, reply, t);
    }

    /** After the awaited call: one metrics sample when it succeeded, the error
        message when it threw, and `isLoading := false` either way. */
    method Conclude(ok: bool, history: seq<Message>, input: string, t: Times)
      requires Valid()
      requires monitor.renderStartTime == t.sent as real
      modifies this, monitor
      ensures Valid()
      ensures messages == old(messages) + (if ok then [] else [ErrorMessage(t.settled)])
      ensures monitor.metrics == old(monitor.metrics) + (if ok then [SendSample(history, input, t)] else [])
      ensures monitor.renderStartTime == old(monitor.renderStartTime)
      ensures announcement == Announce(old(announcement), messages)
      ensures !isLoading && requests == old(requests)
      ensures inputMessage == old(inputMessage) && settings == old(settings)
    {
      if ok {
        RecordSuccess(history, input, t.settled);
        assert monitor.metrics == old(monitor.metrics) + [SendSample(history, input, t)];
      } else {
        Append(ErrorMessage(t.settled));
      }
      isLoading := false;
    }

    /** `handleSendMessage`: the guard and the user message, then the request. */
    method HandleSendMessage(t: Times, reply: Reply, sharedOk: bool)
      requires Valid()
      modifies this, monitor, dedup
      ensures Valid()
      ensures settings == old(settings)
      ensures !CanSend(old(inputMessage), old(settings.apiKey)) ==>
        messages == old(messages) && inputMessage == old(inputMessage) && isLoading == old(isLoading)
        && announcement == old(announcement) && requests == old(requests)
        && monitor.metrics == old(monitor.metrics) && monitor.renderStartTime == old(monitor.renderStartTime)
        && dedup.pending == old(dedup.pending) && dedup.invocations == old(dedup.invocations)
      ensures CanSend(old(inputMessage), old(settings.apiKey)) ==>
        var input := old(inputMessage);
        var key := RequestKey(input, old(settings.model), old(settings.apiKey));
        var shared := key in old(dedup.pending);
        var user := UserMessage(input, t.sent);
        && messages == old(messages) + [user] + ExchangeMessages(shared, sharedOk, reply, t)
        && inputMessage == "" && !isLoading
        && announcement == Announce(Label(user), messages)
        && requests == old(requests) + (if shared then [] else [RequestBodyFor(old(settings), input, old(messages))])
        && dedup.pending == old(dedup.pending)
        && dedup.invocations == old(dedup.invocations) + (if shared then [] else [key])
        && monitor.renderStartTime == t.sent as real
        && monitor.metrics == old(monitor.metrics)
             + (if Succeeds(shared, sharedOk, reply) then [SendSample(old(messages), input, t)] else [])
    {
      var input := inputMessage;
      var history := messages;
      var s := settings;
      var started := BeginSend(t.sent);
      if !started {
        return;
      }
      var key := RequestKey(input, s.model, s.apiKey);
      FinishSend(key, RequestBodyFor(s, input, history), input, history, t, reply, sharedOk, key in dedup.pending);
    }
  }

  /** A fresh controller, one send with a valid input and key, an ok response
      whose chunks stream non-empty text: the user message, one AI message
      holding the whole text, loading back to false, and the AI reply announced. */
  method StreamedSendScenario(input: string, apiKey: string, chunks: seq<Chunk>, t: Times)
    returns (msgs: seq<Message>, loading: bool, announced: string)
    requires CanSend(input, apiKey)
    requires Streamed(chunks) != ""
    ensures |msgs| == 2 && msgs[0] == UserMessage(input, t.sent)
    ensures msgs[1] == Placeholder(t.replied).(content := Streamed(chunks))
    ensures !loading
    ensures announced == "AI responded: " + Streamed(chunks)
  {
    var monitor := new P.PerformanceMonitor();
    var dedup := new P.RequestDeduplicator();
    var chat := new ChatController(monitor, dedup);
    chat.SetSettings(InitialSettings.(apiKey := apiKey));
    chat.SetInputMessage(input);
    var reply := Response(true, Some(Body(chunks, false)));
    chat.HandleSendMessage(t, reply, false);
    SuccessAppendsNoError(false, false, reply, t);
    msgs, loading, announced := chat.messages, chat.isLoading, chat.announcement;
  }

  /** A fresh controller, one send with a valid input and key, a non-ok
      status: no placeholder, one error message, loading back to false. */
  method FailedStatusScenario(input: string, apiKey: string, t: Times) returns (msgs: seq<Message>, loading: bool)
    requires CanSend(input, apiKey)
    ensures |msgs| == 2 && msgs[0] == UserMessage(input, t.sent) && msgs[1] == ErrorMessage(t.settled)
    ensures !loading
  {
    var monitor := new P.PerformanceMonitor();
    var dedup := new P.RequestDeduplicator();
    var chat := new ChatController(monitor, dedup);
    chat.SetSettings(InitialSettings.(apiKey := apiKey));
    chat.SetInputMessage(input);
    var reply := Response(false, None);
    chat.HandleSendMessage(t, reply, false);
    assert ExchangeMessages(false, false, reply, t) == [ErrorMessage(t.settled)];
    msgs, loading := chat.messages, chat.isLoading;
  }

  /** The text of the chunks "He" and "llo" is "Hello". */
  lemma HelloStreams()
    ensures Streamed(["He", "llo"]) == "Hello"
  {
    assert ["He", "llo"][1..] == ["llo"];
    assert ["llo"][1..] == [];
  }
}
