/**
 * The Gemini-backed AI service: the retry loop around one model call, the
 * mapping of a transcript excerpt onto the model's chat history, the
 * round-robin conversation loop and the single-role response.
 *
 * The model itself is an oracle: `Model(n, request)` is the outcome of the
 * n-th model call of a run (counting from 0) when `request` is sent. Every
 * run of the real service is reproduced by some such function, so nothing
 * is assumed about what the model answers.
 */
module GeminiService {
  import opened Wrappers
  import opened Text
  import opened BaseService

  /** One entry of the chat history sent to the model: `{"role": ..., "parts": [...]}`. */
  datatype Content = Content(role: string, parts: seq<string>)

  /** One `generate_content_async` call: the contents and the generation settings. */
  datatype Request = Request(contents: seq<Content>, temperature: real, maxOutputTokens: int)

  /** What the model call does: return text, or raise an exception whose `str` is `error`. */
  datatype CallOutcome = Replied(text: string) | Raised(error: string)

  type Model = (nat, Request) -> CallOutcome

  /** The result of `generate_response`, the attempts it made and how many of them reached the model. */
  datatype Exchange = Exchange(result: Result<string>, attempts: nat, calls: nat)

  /** The result of `generate_conversation` and the number of model calls it made. */
  datatype Run = Run(result: Result<seq<Message>>, calls: nat)

  const MaxRetries: nat := 3
  /** `DEFAULT_CONVERSATION_SETTINGS["max_turns"]`. */
  const DefaultMaxTurns: int := 3
  /** `DEFAULT_CONVERSATION_SETTINGS["max_tokens_per_response"]`. */
  const DefaultMaxTokensPerResponse: int := 300
  const ErrorPrefix: string := "Error generating response: "
  /**
   * The text of the AttributeError raised when `max_tokens` is falsy: the
   * fallback reads `self.config`, which the base constructor never sets.
   */
  const MissingConfigError: string := "'GeminiService' object has no attribute 'config'"

  // ---------------------------------------------------------------------------
  // Prompts and message shapes

  /** Python truthiness of an optional `int` argument: neither `None` nor `0`. */
  predicate Truthy(x: Option<int>) {
    x.Some? && x.value != 0
  }

  /** `x or default` for an optional `int`. */
  function OrDefault(x: Option<int>, default: int): (r: int)
    ensures Truthy(x) ==> r == x.value
    ensures !Truthy(x) ==> r == default
  {
    if Truthy(x) then x.value else default
  }

  /** Python truthiness of the optional `user_input` string. */
  predicate HasUserInput(userInput: Option<string>) {
    userInput.Some? && userInput.value != ""
  }

  /*
   * The fixed English sentences of the prompts are not part of this model:
   * each is a constant whose text is left open, so every property below
   * holds whatever the wording. What is modelled is which inputs each
   * prompt interpolates, and in which order.
   */

  /** The text before the topic in the opening prompt. */
  const InitialPromptLead: string
  /** The text between the topic and the token budget in the opening prompt. */
  const BudgetLead: string
  /** The text after a token budget in the opening and per-role prompts. */
  const BudgetTail: string
  /** The text before the role name in the per-role prompts. */
  const RoleLead: string
  /** The text between the role name and the token budget in the conversation prompt. */
  const RoleAsk: string
  /** The text between the role name and the topic in the single-role prompt. */
  const RoleTopicAsk: string
  /** The text after the topic in the single-role prompt. */
  const RoleTopicTail: string
  /** The text between the caller's prompt and the token budget in the prompt sent. */
  const ImportantLead: string
  /** The instructions after the token budget in the prompt sent. */
  const Instructions: string

  /** The opening prompt: the topic, then the token budget. */
  function InitialPrompt(topic: string, maxTokens: int): string {
    InitialPromptLead + topic + BudgetLead + IntToString(maxTokens) + BudgetTail
  }

  /** The opening prompt of a conversation always mentions its topic. */
  lemma InitialPromptContainsTopic(topic: string, maxTokens: int)
    ensures Contains(InitialPrompt(topic, maxTokens), topic)
  {
    var p := InitialPrompt(topic, maxTokens);
    var i := |InitialPromptLead|;
    assert p[i..i + |topic|] == topic;
    assert OccursAt(p, topic, i);
  }

  /** The per-role prompt inside the conversation loop. */
  function RolePrompt(role: string, maxTokens: int): string {
    RoleLead + role + RoleAsk + IntToString(maxTokens) + BudgetTail
  }

  /** The prompt of `get_role_response`. */
  function RoleTopicPrompt(role: string, topic: string): string {
    RoleLead + role + RoleTopicAsk + topic + RoleTopicTail
  }

  /** The prompt actually sent: the caller's prompt followed by the token-budget instructions. */
  function EnhancedPrompt(prompt: string, maxTokens: int): string {
    prompt + ImportantLead + IntToString(maxTokens) + Instructions
  }

  /** The speaker tag put in front of a role's response: `"[" + role.upper() + "] "`. */
  function Tag(role: string): string {
    "[" + Upper(role) + "] "
  }

  /** The message a role contributes to the transcript. */
  function RoleMessage(role: string, response: string): Message {
    FormatMessage("model", Tag(role) + response)
  }

  /** A role's message is a `model` message: its tag, then the response unchanged. */
  lemma RoleMessageShape(role: string, response: string)
    ensures RoleMessage(role, response).role == "model"
    ensures |Tag(role)| <= |RoleMessage(role, response).content|
    ensures RoleMessage(role, response).content[..|Tag(role)|] == Tag(role)
    ensures RoleMessage(role, response).content[|Tag(role)|..] == response
  {
  }

  /** The context handed to each call: the last two messages once there are more than two. */
  function Window(conversation: seq<Message>): seq<Message> {
    if |conversation| > 2 then conversation[|conversation| - 2..] else conversation
  }

  /** The window is the suffix of the transcript of length `min(2, |transcript|)`. */
  lemma WindowIsShortSuffix(conversation: seq<Message>)
    ensures |Window(conversation)| == if |conversation| > 2 then 2 else |conversation|
    ensures Window(conversation) == conversation[|conversation| - |Window(conversation)|..]
  {
  }

  // ---------------------------------------------------------------------------
  // generate_response

  /** Gemini knows only the roles `user` and `model`. */
  function GeminiRole(role: string): (r: string)
    ensures r == "user" <==> role == "user"
    ensures r != "user" ==> r == "model"
  {
    if role == "user" then "user" else "model"
  }

  function ToContent(m: Message): Content {
    Content(GeminiRole(m.role), [m.content])
  }

  /** The history built from a context: same length and order, roles mapped, content kept. */
  function ToHistory(context: seq<Message>): seq<Content> {
    seq(|context|, i requires 0 <= i < |context| => ToContent(context[i]))
  }

  /** The history keeps the context's length and order, maps each role and keeps each content. */
  lemma HistoryFollowsContext(context: seq<Message>)
    ensures |ToHistory(context)| == |context|
    ensures forall i :: 0 <= i < |context| ==>
      ToHistory(context)[i].role == GeminiRole(context[i].role) && ToHistory(context)[i].parts == [context[i].content]
  {
  }

  /** The request of one attempt: the history, then exactly one user turn carrying the prompt. */
  function BuildRequest(settings: Settings, prompt: string, context: seq<Message>, maxTokens: int): Request {
    Request(ToHistory(context) + [Content("user", [EnhancedPrompt(prompt, maxTokens)])],
            settings.temperature, maxTokens)
  }

  /** The contents sent: the history of the context, then exactly one user entry with the prompt. */
  lemma RequestShape(settings: Settings, prompt: string, context: seq<Message>, maxTokens: int)
    ensures var r := BuildRequest(settings, prompt, context, maxTokens);
      && |r.contents| == |context| + 1
      && r.contents[..|context|] == ToHistory(context)
      && r.contents[|context|] == Content("user", [EnhancedPrompt(prompt, maxTokens)])
      && r.temperature == settings.temperature && r.maxOutputTokens == maxTokens
  {
    HistoryFollowsContext(context);
  }

  /** The retry condition: a quota error reported with status 429. */
  predicate IsRateLimited(error: string) {
    Contains(error, "429") && Contains(Lower(error), "quota")
  }

  /** The retry condition does not depend on letter case: "429" has no letters, and "quota" is matched lower-cased. */
  lemma RateLimitIgnoresCase(error: string)
    ensures IsRateLimited(Upper(error)) <==> IsRateLimited(error)
    ensures IsRateLimited(Lower(error)) <==> IsRateLimited(error)
  {
    ContainsIgnoresCase(error, "429");
    LowerAbsorbs(error);
  }

  /**
   * What the try block of one attempt yields. Without a request (falsy
   * `max_tokens`) the block raises before reaching the model.
   */
  function TryOnce(request: Option<Request>, model: Model, next: nat): CallOutcome {
    match request
    case None => Raised(MissingConfigError)
    case Some(r) => model(next, r)
  }

  /** The request every attempt sends, or none when `max_tokens` is falsy and the attempt fails first. */
  function RequestFor(settings: Settings, prompt: string, context: seq<Message>, maxTokens: Option<int>): Option<Request> {
    if Truthy(maxTokens) then Some(BuildRequest(settings, prompt, context, maxTokens.value)) else None
  }

  /** The index of the model call made by the j-th attempt from `next` on. */
  function CallIndex(request: Option<Request>, next: nat, j: nat): nat {
    if request.Some? then next + j else next
  }

  /** Attempts `attempt`, `attempt + 1`, ... of the retry loop; `next` is the index of the next model call. */
  function Retry(request: Option<Request>, model: Model, next: nat, attempt: nat): Exchange
    requires attempt < MaxRetries
    decreases MaxRetries - attempt, 1
  {
    Settle(TryOnce(request, model, next), request, model, next, attempt)
  }

  /**
   * How attempt `attempt` ends once its call yielded `outcome`: a reply is
   * returned, a rate-limit error before the last attempt is retried, any
   * other error is returned with the `ErrorPrefix`.
   */
  function Settle(outcome: CallOutcome, request: Option<Request>, model: Model, next: nat, attempt: nat): Exchange
    requires attempt < MaxRetries
    decreases MaxRetries - attempt, 0
  {
    var made := if request.Some? then 1 else 0;
    match outcome
    case Replied(text) => Exchange(Ok(text), 1, made)
    case Raised(e) =>
      if IsRateLimited(e) && attempt < MaxRetries - 1 then
        var rest := Retry(request, model, next + made, attempt + 1);
        Exchange(rest.result, rest.attempts + 1, rest.calls + made)
      else
        Exchange(Err(ErrorPrefix + e), 1, made)
  }

  /** How attempt `attempt` ends once its try block yielded `outcome`: the cases of `Settle`, one by one. */
  lemma RetryStep(request: Option<Request>, model: Model, n: nat, attempt: nat, outcome: CallOutcome)
    requires attempt < MaxRetries && outcome == TryOnce(request, model, n)
    ensures var x := Retry(request, model, n, attempt);
      var made := if request.Some? then 1 else 0;
      && (outcome.Replied? ==> x == Exchange(Ok(outcome.text), 1, made))
      && (outcome.Raised? && IsRateLimited(outcome.error) && attempt < MaxRetries - 1 ==>
            var rest := Retry(request, model, n + made, attempt + 1);
            x == Exchange(rest.result, rest.attempts + 1, rest.calls + made))
      && (outcome.Raised? && !(IsRateLimited(outcome.error) && attempt < MaxRetries - 1) ==>
            x == Exchange(Err(ErrorPrefix + outcome.error), 1, made))
  {
  }

  /** `generate_response(prompt, context, max_tokens)` started when `next` model calls have been made. */
  function Respond(settings: Settings, prompt: string, context: seq<Message>, maxTokens: Option<int>,
                   model: Model, next: nat): Exchange
  {
    Retry(RequestFor(settings, prompt, context, maxTokens), model, next, 0)
  }

  /**
   * The retry policy: at most `MaxRetries` attempts in all; every attempt but
   * the last raised a rate-limit error; the last one either returned the text
   * that is the result, or raised an error that is not retried (or ran out of
   * attempts) and is reported with the `ErrorPrefix`.
   */
  lemma {:induction false} RetryPolicy(request: Option<Request>, model: Model, next: nat, attempt: nat)
    requires attempt < MaxRetries
    ensures var x := Retry(request, model, next, attempt);
      && 1 <= x.attempts <= MaxRetries - attempt
      && x.calls == (if request.Some? then x.attempts else 0)
      && (forall j :: 0 <= j < x.attempts - 1 ==>
            var o := TryOnce(request, model, CallIndex(request, next, j));
            o.Raised? && IsRateLimited(o.error))
      && var last := TryOnce(request, model, CallIndex(request, next, x.attempts - 1));
         && (last.Replied? ==> x.result == Ok(last.text))
         && (last.Raised? ==> x.result == Err(ErrorPrefix + last.error)
                              && (!IsRateLimited(last.error) || attempt + x.attempts == MaxRetries))
    decreases MaxRetries - attempt
  {
    var made := if request.Some? then 1 else 0;
    var o := TryOnce(request, model, next);
    if o.Raised? && IsRateLimited(o.error) && attempt < MaxRetries - 1 {
      RetryPolicy(request, model, next + made, attempt + 1);
      var rest := Retry(request, model, next + made, attempt + 1);
      var x := Retry(request, model, next, attempt);
      assert x == Exchange(rest.result, rest.attempts + 1, rest.calls + made);
      forall j | 0 <= j < x.attempts - 1
        ensures var o' := TryOnce(request, model, CallIndex(request, next, j));
                o'.Raised? && IsRateLimited(o'.error)
      {
        if j > 0 {
          assert CallIndex(request, next, j) == CallIndex(request, next + made, j - 1);
        }
      }
      assert CallIndex(request, next, x.attempts - 1) == CallIndex(request, next + made, rest.attempts - 1);
    }
  }

  /** Without `max_tokens` the service fails on the first attempt and never reaches the model. */
  lemma MissingMaxTokensNeverCallsModel(settings: Settings, prompt: string, context: seq<Message>,
                                        maxTokens: Option<int>, model: Model, next: nat)
    requires !Truthy(maxTokens)
    ensures Respond(settings, prompt, context, maxTokens, model, next).calls == 0
    ensures Respond(settings, prompt, context, maxTokens, model, next).result.Err?
  {
    RetryPolicy(None, model, next, 0);
  }

  /** A successful response is the text the model returned for the request built from the context. */
  lemma RespondReplied(settings: Settings, prompt: string, context: seq<Message>, maxTokens: int,
                       model: Model, next: nat)
    requires Respond(settings, prompt, context, Some(maxTokens), model, next).result.Ok?
    ensures var x := Respond(settings, prompt, context, Some(maxTokens), model, next);
      model(next + x.calls - 1, BuildRequest(settings, prompt, context, maxTokens)) == Replied(x.result.value)
  {
    RetryPolicy(RequestFor(settings, prompt, context, Some(maxTokens)), model, next, 0);
  }

  /** Every failure of `generate_response` carries the `ErrorPrefix`. */
  lemma RespondErrorPrefix(settings: Settings, prompt: string, context: seq<Message>, maxTokens: Option<int>,
                           model: Model, next: nat)
    ensures var x := Respond(settings, prompt, context, maxTokens, model, next);
      x.result.Err? ==> |x.result.error| >= |ErrorPrefix| && x.result.error[..|ErrorPrefix|] == ErrorPrefix
  {
    RetryPolicy(RequestFor(settings, prompt, context, maxTokens), model, next, 0);
  }

  /** The history loop of `generate_response`: one entry per context message, in order. */
  method BuildHistory(context: seq<Message>) returns (history: seq<Content>)
    ensures history == ToHistory(context)
  {
    history := [];
    if context != [] {
      for i := 0 to |context|
        invariant history == ToHistory(context[..i])
      {
        history := history + [Content(GeminiRole(context[i].role), [context[i].content])];
      }
      assert context[..|context|] == context;
    }
  }

  /** The try block of one attempt: rebuild the history, then call the model unless `max_tokens` is falsy. */
  method Attempt(settings: Settings, prompt: string, context: seq<Message>, maxTokens: Option<int>,
                 model: Model, n: nat)
    returns (outcome: CallOutcome)
    ensures outcome == TryOnce(RequestFor(settings, prompt, context, maxTokens), model, n)
  {
    var history := BuildHistory(context);
    if !Truthy(maxTokens) {
      outcome := Raised(MissingConfigError);
    } else {
      var tokens := maxTokens.value;
      var contents := history + [Content("user", [EnhancedPrompt(prompt, tokens)])];
      outcome := model(n, Request(contents, settings.temperature, tokens));
    }
  }

  /**
   * `generate_response`: the model is called once per attempt; a rate-limit
   * error is retried while attempts remain, any other outcome ends the loop.
   * Rate-limit sleeps are not modelled.
   */
  method GenerateResponse(settings: Settings, prompt: string, context: seq<Message>, maxTokens: Option<int>,
                          model: Model, next: nat)
    returns (result: Result<string>, attempts: nat, calls: nat)
    ensures Exchange(result, attempts, calls) == Respond(settings, prompt, context, maxTokens, model, next)
  {
    ghost var request := RequestFor(settings, prompt, context, maxTokens);
    ghost var goal := Respond(settings, prompt, context, maxTokens, model, next);
    calls := 0;
    var attempt := 0;
    while attempt < MaxRetries
      invariant attempt < MaxRetries
      invariant calls == (if request.Some? then attempt else 0)
      invariant var rest := Retry(request, model, next + calls, attempt);
        goal == Exchange(rest.result, rest.attempts + attempt, rest.calls + calls)
      decreases MaxRetries - attempt
    {
      var outcome := Attempt(settings, prompt, context, maxTokens, model, next + calls);
      RetryStep(request, model, next + calls, attempt, outcome);
      if Truthy(maxTokens) {
        calls := calls + 1;
      }
      match outcome
      case Replied(text) =>
        return Ok(text), attempt + 1, calls;
      case Raised(e) =>
        if IsRateLimited(e) && attempt < MaxRetries - 1 {
          attempt := attempt + 1;
        } else {
          return Err(ErrorPrefix + e), attempt + 1, calls;
        }
    }
    assert false;
  }

  // ---------------------------------------------------------------------------
  // generate_conversation

  /** The number of passes over the roles: `while current_turn < max_turns` runs none for a negative bound. */
  function TurnCount(maxTurns: int): nat {
    if maxTurns > 0 then maxTurns else 0
  }

  /** The messages placed before any role speaks. */
  function Opening(topic: string, maxTokens: int, userInput: Option<string>): seq<Message> {
    [FormatMessage("user", InitialPrompt(topic, maxTokens))]
    + (if HasUserInput(userInput) then [FormatMessage("user", userInput.value)] else [])
  }

  /** The speakers of `turns` passes over `roles`, in order: turn-major, round-robin. */
  function Schedule(roles: seq<string>, turns: nat): seq<string> {
    if turns == 0 then [] else roles + Schedule(roles, turns - 1)
  }

  /** The j-th reply is spoken by `roles[j mod |roles|]`, and there are `turns * |roles|` replies. */
  lemma {:induction false} ScheduleAt(roles: seq<string>, turns: nat)
    ensures |Schedule(roles, turns)| == turns * |roles|
    ensures forall j :: 0 <= j < |Schedule(roles, turns)| ==> Schedule(roles, turns)[j] == roles[j % |roles|]
  {
    if turns > 0 {
      ScheduleAt(roles, turns - 1);
      var s := Schedule(roles, turns);
      var m := |roles|;
      forall j | 0 <= j < |s| ensures s[j] == roles[j % m] {
        if j >= m {
          ModuloStep(j - m, m);
        } else {
          ModuloSmall(j, m);
        }
      }
    }
  }

  lemma ModuloSmall(j: int, m: int)
    requires 0 <= j < m
    ensures j % m == j
  {
  }

  lemma ModuloStep(x: int, m: int)
    requires 0 <= x && 0 < m
    ensures (x + m) % m == x % m
  {
    var q, r := x / m, x % m;
    assert x + m == (q + 1) * m + r;
    ModuloUnique(x + m, q + 1, r, m);
  }

  lemma ModuloUnique(x: int, q: int, r: int, m: int)
    requires 0 < m && 0 <= r < m && x == q * m + r
    ensures x % m == r
  {
    var q', r' := x / m, x % m;
    assert x == q' * m + r';
    if q' < q {
      assert (q - q') * m == q * m - q' * m;
      MulAtLeast(q - q', m);
      assert false;
    } else if q' > q {
      assert (q' - q) * m == q' * m - q * m;
      MulAtLeast(q' - q, m);
      assert false;
    }
  }

  lemma {:induction false} MulAtLeast(a: int, m: int)
    requires a >= 1 && m > 0
    ensures a * m >= m
    decreases a
  {
    if a > 1 {
      MulAtLeast(a - 1, m);
      assert a * m == (a - 1) * m + m;
    }
  }

  /**
   * How one speaker's turn is answered: given the speaker, the context window
   * and the index of the next model call, the outcome of `generate_response`.
   */
  type Responder = (string, seq<Message>, nat) -> Exchange

  /** The responder of `generate_conversation`: the role's prompt and the effective token budget. */
  function RoleResponder(settings: Settings, maxTokens: int, model: Model): Responder {
    (role: string, context: seq<Message>, n: nat) =>
      Respond(settings, RolePrompt(role, maxTokens), context, Some(maxTokens), model, n)
  }

  /**
   * The conversation loop while `speakers` are still to answer, with
   * `conversation` built so far and `next` model calls made before; the run
   * reports the calls it made itself.
   */
  function Converse(conversation: seq<Message>, speakers: seq<string>, respond: Responder, next: nat): Run
    decreases |speakers|
  {
    if speakers == [] then Run(Ok(conversation), 0)
    else
      var x := respond(speakers[0], Window(conversation), next);
      match x.result
      case Err(e) => Run(Err(e), x.calls)
      case Ok(text) =>
        var rest := Converse(conversation + [RoleMessage(speakers[0], text)], speakers[1..], respond, next + x.calls);
        Run(rest.result, x.calls + rest.calls)
  }

  /** `generate_conversation(topic, roles, max_turns, max_tokens, user_input)` started after `next` model calls. */
  function Conversation(settings: Settings, topic: string, roles: seq<string>, maxTurns: Option<int>,
                        maxTokens: Option<int>, userInput: Option<string>, model: Model, next: nat): Run
  {
    var tokens := OrDefault(maxTokens, DefaultMaxTokensPerResponse);
    var turns := TurnCount(OrDefault(maxTurns, DefaultMaxTurns));
    Converse(Opening(topic, tokens, userInput), Schedule(roles, turns), RoleResponder(settings, tokens, model), next)
  }

  /** The message at position `p` of `c` is what `respond` gave `role` for the window of the messages before it. */
  ghost predicate AnsweredAt(c: seq<Message>, p: nat, role: string, respond: Responder)
    requires p < |c|
  {
    exists n: nat :: respond(role, Window(c[..p]), n).result.Ok?
                     && c[p] == RoleMessage(role, respond(role, Window(c[..p]), n).result.value)
  }

  /**
   * The loop only appends: the result extends the conversation so far by one
   * message per remaining speaker, the j-th answering for `speakers[j]` the
   * (at most) two messages before it.
   */
  lemma {:induction false} ConverseAppends(conversation: seq<Message>, speakers: seq<string>, respond: Responder, next: nat)
    requires Converse(conversation, speakers, respond, next).result.Ok?
    ensures var c := Converse(conversation, speakers, respond, next).result.value;
      && |c| == |conversation| + |speakers|
      && c[..|conversation|] == conversation
      && forall j :: 0 <= j < |speakers| ==> AnsweredAt(c, |conversation| + j, speakers[j], respond)
    decreases |speakers|
  {
    if speakers != [] {
      var x := respond(speakers[0], Window(conversation), next);
      var m := RoleMessage(speakers[0], x.result.value);
      var conv' := conversation + [m];
      ConverseAppends(conv', speakers[1..], respond, next + x.calls);
      var c := Converse(conv', speakers[1..], respond, next + x.calls).result.value;
      assert c[..|conversation|] == conversation by {
        assert c[..|conversation|] == c[..|conv'|][..|conversation|];
      }
      assert c[|conversation|] == m by {
        assert c[|conversation|] == c[..|conv'|][|conversation|];
      }
      assert AnsweredAt(c, |conversation|, speakers[0], respond) by {
        assert c[..|conversation|] == conversation;
      }
      forall j | 1 <= j < |speakers|
        ensures AnsweredAt(c, |conversation| + j, speakers[j], respond)
      {
        assert speakers[j] == speakers[1..][j - 1];
        assert |conversation| + j == |conv'| + (j - 1);
      }
    }
  }

  /** `message` is `role`'s reply: tagged with the role, and its text is what the model returned for `request`. */
  ghost predicate IsReplyTo(message: Message, role: string, request: Request, model: Model) {
    && message.role == "model"
    && |Tag(role)| <= |message.content|
    && message.content[..|Tag(role)|] == Tag(role)
    && exists call: nat :: model(call, request) == Replied(message.content[|Tag(role)|..])
  }

  /** The message at position `p` of `c` is role's reply to the window of the messages before it. */
  ghost predicate GeneratedAt(settings: Settings, c: seq<Message>, p: nat, role: string, maxTokens: int, model: Model)
    requires p < |c|
  {
    IsReplyTo(c[p], role, BuildRequest(settings, RolePrompt(role, maxTokens), Window(c[..p]), maxTokens), model)
  }

  /** A message the Gemini responder produced is the tagged text the model returned for the window. */
  lemma AnsweredByModel(settings: Settings, c: seq<Message>, p: nat, role: string, maxTokens: int, model: Model)
    requires p < |c| && maxTokens != 0
    requires AnsweredAt(c, p, role, RoleResponder(settings, maxTokens, model))
    ensures GeneratedAt(settings, c, p, role, maxTokens, model)
  {
    var respond := RoleResponder(settings, maxTokens, model);
    var n: nat :| respond(role, Window(c[..p]), n).result.Ok?
                  && c[p] == RoleMessage(role, respond(role, Window(c[..p]), n).result.value);
    var x := Respond(settings, RolePrompt(role, maxTokens), Window(c[..p]), Some(maxTokens), model, n);
    RespondReplied(settings, RolePrompt(role, maxTokens), Window(c[..p]), maxTokens, model, n);
    RoleMessageShape(role, x.result.value);
    var request := BuildRequest(settings, RolePrompt(role, maxTokens), Window(c[..p]), maxTokens);
    assert model(n + x.calls - 1, request) == Replied(c[p].content[|Tag(role)|..]);
  }

  /**
   * A successful conversation is the opening followed by `turns * |roles|`
   * replies in turn-major, round-robin order, each answering the last two
   * messages before it.
   */
  lemma ConversationReplies(settings: Settings, topic: string, roles: seq<string>, maxTurns: Option<int>,
                            maxTokens: Option<int>, userInput: Option<string>, model: Model, next: nat, c: seq<Message>)
    requires Conversation(settings, topic, roles, maxTurns, maxTokens, userInput, model, next).result == Ok(c)
    ensures var tokens := OrDefault(maxTokens, DefaultMaxTokensPerResponse);
      var turns := TurnCount(OrDefault(maxTurns, DefaultMaxTurns));
      var opening := Opening(topic, tokens, userInput);
      && |c| == |opening| + turns * |roles|
      && c[..|opening|] == opening
      && forall j :: 0 <= j < turns * |roles| ==>
           GeneratedAt(settings, c, |opening| + j, roles[j % |roles|], tokens, model)
  {
    var tokens := OrDefault(maxTokens, DefaultMaxTokensPerResponse);
    var turns := TurnCount(OrDefault(maxTurns, DefaultMaxTurns));
    var opening := Opening(topic, tokens, userInput);
    var speakers := Schedule(roles, turns);
    var respond := RoleResponder(settings, tokens, model);
    ScheduleAt(roles, turns);
    ConverseAppends(opening, speakers, respond, next);
    forall j | 0 <= j < turns * |roles|
      ensures GeneratedAt(settings, c, |opening| + j, roles[j % |roles|], tokens, model)
    {
      AnsweredByModel(settings, c, |opening| + j, speakers[j], tokens, model);
    }
  }

  /**
   * The messages of a successful conversation: the opening prompt (which
   * mentions the topic), the user's input exactly when it is non-empty, then
   * `turns * |roles|` replies. With no roles only the user messages are
   * returned.
   */
  lemma ConversationShape(settings: Settings, topic: string, roles: seq<string>, maxTurns: Option<int>,
                          maxTokens: Option<int>, userInput: Option<string>, model: Model, next: nat, c: seq<Message>)
    requires Conversation(settings, topic, roles, maxTurns, maxTokens, userInput, model, next).result == Ok(c)
    ensures var tokens := OrDefault(maxTokens, DefaultMaxTokensPerResponse);
      var turns := TurnCount(OrDefault(maxTurns, DefaultMaxTurns));
      var offset := if HasUserInput(userInput) then 2 else 1;
      && |c| == offset + turns * |roles|
      && c[0] == Message("user", InitialPrompt(topic, tokens))
      && Contains(c[0].content, topic)
      && (|c| > 1 && c[1].role == "user" <==> HasUserInput(userInput))
      && (HasUserInput(userInput) ==> c[1] == Message("user", userInput.value))
      && (roles == [] ==> c == Opening(topic, tokens, userInput))
  {
    var tokens := OrDefault(maxTokens, DefaultMaxTokensPerResponse);
    var turns := TurnCount(OrDefault(maxTurns, DefaultMaxTurns));
    var opening := Opening(topic, tokens, userInput);
    ConversationReplies(settings, topic, roles, maxTurns, maxTokens, userInput, model, next, c);
    assert c[0] == c[..|opening|][0];
    if HasUserInput(userInput) {
      assert c[1] == c[..|opening|][1];
    } else if |c| > 1 {
      assert GeneratedAt(settings, c, |opening| + 0, roles[0 % |roles|], tokens, model);
    }
    InitialPromptContainsTopic(topic, tokens);
  }

  /** Every failure `respond` reports carries the `ErrorPrefix`. */
  ghost predicate FailsWithPrefix(respond: Responder) {
    forall role, context, n: nat :: respond(role, context, n).result.Err? ==>
      |respond(role, context, n).result.error| >= |ErrorPrefix|
      && respond(role, context, n).result.error[..|ErrorPrefix|] == ErrorPrefix
  }

  /** A conversation fails only with an error of one of its responses. */
  lemma {:induction false} ConverseErrorPrefix(conversation: seq<Message>, speakers: seq<string>, respond: Responder, next: nat)
    requires FailsWithPrefix(respond)
    ensures var r := Converse(conversation, speakers, respond, next).result;
      r.Err? ==> |r.error| >= |ErrorPrefix| && r.error[..|ErrorPrefix|] == ErrorPrefix
    decreases |speakers|
  {
    if speakers != [] {
      var x := respond(speakers[0], Window(conversation), next);
      if x.result.Ok? {
        ConverseErrorPrefix(conversation + [RoleMessage(speakers[0], x.result.value)], speakers[1..], respond, next + x.calls);
      }
    }
  }

  /** A conversation fails only with the very error one of its speakers' responses failed with. */
  lemma {:induction false} ConverseFailsWithResponseError(conversation: seq<Message>, speakers: seq<string>,
                                                          respond: Responder, next: nat)
    ensures var r := Converse(conversation, speakers, respond, next).result;
      r.Err? ==> exists k, c: seq<Message>, n: nat :: 0 <= k < |speakers| && respond(speakers[k], c, n).result == Err(r.error)
    decreases |speakers|
  {
    if speakers != [] {
      var r := Converse(conversation, speakers, respond, next).result;
      var x := respond(speakers[0], Window(conversation), next);
      if x.result.Err? {
        assert respond(speakers[0], Window(conversation), next).result == Err(r.error);
      } else {
        var rest := conversation + [RoleMessage(speakers[0], x.result.value)];
        ConverseFailsWithResponseError(rest, speakers[1..], respond, next + x.calls);
        if r.Err? {
          var k, c: seq<Message>, n: nat :| 0 <= k < |speakers[1..]| && respond(speakers[1..][k], c, n).result == Err(r.error);
          assert respond(speakers[k + 1], c, n).result == Err(r.error);
        }
      }
    }
  }

  /** Every speaker of the schedule is one of the roles. */
  lemma {:induction false} ScheduleFromRoles(roles: seq<string>, turns: nat)
    ensures forall j :: 0 <= j < |Schedule(roles, turns)| ==> Schedule(roles, turns)[j] in roles
  {
    if turns > 0 {
      ScheduleFromRoles(roles, turns - 1);
      var s := Schedule(roles, turns);
      forall j | 0 <= j < |s| ensures s[j] in roles {
        if j >= |roles| {
          assert s[j] == Schedule(roles, turns - 1)[j - |roles|];
        }
      }
    }
  }

  /**
   * Every failure of `generate_conversation` is the error of a failed
   * `generate_response` for one of the roles, passed on unchanged, and so
   * carries the `ErrorPrefix`.
   */
  lemma ConversationErrorPrefix(settings: Settings, topic: string, roles: seq<string>, maxTurns: Option<int>,
                                maxTokens: Option<int>, userInput: Option<string>, model: Model, next: nat)
    ensures var r := Conversation(settings, topic, roles, maxTurns, maxTokens, userInput, model, next).result;
      var tokens := OrDefault(maxTokens, DefaultMaxTokensPerResponse);
      && (r.Err? ==> |r.error| >= |ErrorPrefix| && r.error[..|ErrorPrefix|] == ErrorPrefix)
      && (r.Err? ==> exists role, context: seq<Message>, n: nat ::
                       role in roles && Respond(settings, RolePrompt(role, tokens), context, Some(tokens), model, n).result == Err(r.error))
  {
    var tokens := OrDefault(maxTokens, DefaultMaxTokensPerResponse);
    var respond := RoleResponder(settings, tokens, model);
    var opening := Opening(topic, tokens, userInput);
    var speakers := Schedule(roles, TurnCount(OrDefault(maxTurns, DefaultMaxTurns)));
    var r := Conversation(settings, topic, roles, maxTurns, maxTokens, userInput, model, next).result;
    ConverseFailsWithResponseError(opening, speakers, respond, next);
    ScheduleFromRoles(roles, TurnCount(OrDefault(maxTurns, DefaultMaxTurns)));
    if r.Err? {
      var k, c: seq<Message>, n: nat :| 0 <= k < |speakers| && respond(speakers[k], c, n).result == Err(r.error);
      assert Respond(settings, RolePrompt(speakers[k], tokens), c, Some(tokens), model, n).result == Err(r.error);
    }
    forall role, context, n: nat | respond(role, context, n).result.Err?
      ensures |respond(role, context, n).result.error| >= |ErrorPrefix|
              && respond(role, context, n).result.error[..|ErrorPrefix|] == ErrorPrefix
    {
      RespondErrorPrefix(settings, RolePrompt(role, tokens), context, Some(tokens), model, n);
    }
    ConverseErrorPrefix(Opening(topic, tokens, userInput), Schedule(roles, TurnCount(OrDefault(maxTurns, DefaultMaxTurns))),
                        respond, next);
  }

  /** One step of the conversation loop: the first speaker answers the window, or the run fails. */
  lemma ConverseStep(conversation: seq<Message>, speakers: seq<string>, respond: Responder, next: nat)
    requires speakers != []
    ensures var x := respond(speakers[0], Window(conversation), next);
      && (x.result.Err? ==> Converse(conversation, speakers, respond, next) == Run(Err(x.result.error), x.calls))
      && (x.result.Ok? ==>
            var rest := Converse(conversation + [RoleMessage(speakers[0], x.result.value)], speakers[1..], respond, next + x.calls);
            Converse(conversation, speakers, respond, next) == Run(rest.result, x.calls + rest.calls))
  {
  }

  /**
   * Running the loop over `first ++ second` is running it over `first` and,
   * when that succeeds, over `second` from where it stopped.
   */
  lemma {:induction false} ConverseConcat(conversation: seq<Message>, first: seq<string>, second: seq<string>,
                                          respond: Responder, next: nat)
    ensures var r := Converse(conversation, first, respond, next);
      && (r.result.Err? ==> Converse(conversation, first + second, respond, next) == r)
      && (r.result.Ok? ==>
            var rest := Converse(r.result.value, second, respond, next + r.calls);
            Converse(conversation, first + second, respond, next) == Run(rest.result, r.calls + rest.calls))
    decreases |first|
  {
    if first == [] {
      assert first + second == second;
    } else {
      assert (first + second)[0] == first[0] && (first + second)[1..] == first[1..] + second;
      var x := respond(first[0], Window(conversation), next);
      if x.result.Ok? {
        ConverseConcat(conversation + [RoleMessage(first[0], x.result.value)], first[1..], second, respond, next + x.calls);
      }
    }
  }

  /** `respond` answers every role as `generate_response` does with that role's prompt and `tokens`. */
  ghost predicate AnswersWithRolePrompt(respond: Responder, settings: Settings, tokens: int, model: Model) {
    forall role, context, n: nat {:trigger Respond(settings, RolePrompt(role, tokens), context, Some(tokens), model, n)} ::
      respond(role, context, n) == Respond(settings, RolePrompt(role, tokens), context, Some(tokens), model, n)
  }

  /** The responder of `generate_conversation` answers with the role prompts. */
  lemma GeminiResponder(settings: Settings, tokens: int, model: Model) returns (respond: Responder)
    ensures AnswersWithRolePrompt(respond, settings, tokens, model)
  {
    respond := RoleResponder(settings, tokens, model);
  }

  /** The step the inner loop takes for `roles[i]`, given that role's exchange. */
  lemma RoundStep(current: seq<Message>, roles: seq<string>, i: nat, respond: Responder, next: nat, x: Exchange)
    requires i < |roles|
    requires respond(roles[i], Window(current), next) == x
    ensures x.result.Err? ==> Converse(current, roles[i..], respond, next) == Run(Err(x.result.error), x.calls)
    ensures x.result.Ok? ==>
      var rest := Converse(current + [RoleMessage(roles[i], x.result.value)], roles[i + 1..], respond, next + x.calls);
      Converse(current, roles[i..], respond, next) == Run(rest.result, x.calls + rest.calls)
  {
    assert roles[i..][0] == roles[i] && roles[i..][1..] == roles[i + 1..];
    ConverseStep(current, roles[i..], respond, next);
  }

  /** The outer loop of `generate_conversation` with `k` turns left: one pass over `roles` per turn. */
  function Turns(conversation: seq<Message>, roles: seq<string>, k: nat, respond: Responder, next: nat): Run
    decreases k
  {
    if k == 0 then Run(Ok(conversation), 0)
    else
      var pass := Converse(conversation, roles, respond, next);
      match pass.result
      case Err(_) => pass
      case Ok(c) =>
        var rest := Turns(c, roles, k - 1, respond, next + pass.calls);
        Run(rest.result, pass.calls + rest.calls)
  }

  /** `k` passes over the roles are the loop over the schedule of `k` turns. */
  lemma {:induction false} TurnsFollowSchedule(conversation: seq<Message>, roles: seq<string>, k: nat,
                                               respond: Responder, next: nat)
    ensures Turns(conversation, roles, k, respond, next) == Converse(conversation, Schedule(roles, k), respond, next)
    decreases k
  {
    if k > 0 {
      assert Schedule(roles, k) == roles + Schedule(roles, k - 1);
      ConverseConcat(conversation, roles, Schedule(roles, k - 1), respond, next);
      var pass := Converse(conversation, roles, respond, next);
      if pass.result.Ok? {
        TurnsFollowSchedule(pass.result.value, roles, k - 1, respond, next + pass.calls);
      }
    }
  }

  /** Two responders that agree everywhere give the same run. */
  lemma {:induction false} ConverseAgrees(conversation: seq<Message>, speakers: seq<string>, r1: Responder, r2: Responder,
                                          next: nat)
    requires forall role, context, n: nat :: r1(role, context, n) == r2(role, context, n)
    ensures Converse(conversation, speakers, r1, next) == Converse(conversation, speakers, r2, next)
    decreases |speakers|
  {
    if speakers != [] {
      var x := r1(speakers[0], Window(conversation), next);
      if x.result.Ok? {
        ConverseAgrees(conversation + [RoleMessage(speakers[0], x.result.value)], speakers[1..], r1, r2, next + x.calls);
      }
    }
  }

  /** `generate_conversation` is the loop run with any responder that answers with the role prompts. */
  lemma ConversationWith(settings: Settings, topic: string, roles: seq<string>, maxTurns: Option<int>,
                         maxTokens: Option<int>, userInput: Option<string>, model: Model, next: nat, respond: Responder)
    requires AnswersWithRolePrompt(respond, settings, OrDefault(maxTokens, DefaultMaxTokensPerResponse), model)
    ensures Conversation(settings, topic, roles, maxTurns, maxTokens, userInput, model, next)
         == Turns(Opening(topic, OrDefault(maxTokens, DefaultMaxTokensPerResponse), userInput),
                  roles, TurnCount(OrDefault(maxTurns, DefaultMaxTurns)), respond, next)
  {
    var tokens := OrDefault(maxTokens, DefaultMaxTokensPerResponse);
    var gemini := RoleResponder(settings, tokens, model);
    forall role, context, n: nat
      ensures gemini(role, context, n) == respond(role, context, n)
    {
      assert respond(role, context, n) == Respond(settings, RolePrompt(role, tokens), context, Some(tokens), model, n);
    }
    ConverseAgrees(Opening(topic, tokens, userInput), Schedule(roles, TurnCount(OrDefault(maxTurns, DefaultMaxTurns))),
                   gemini, respond, next);
    TurnsFollowSchedule(Opening(topic, tokens, userInput), roles, TurnCount(OrDefault(maxTurns, DefaultMaxTurns)), respond, next);
  }

  /** One pass of the inner loop of `generate_conversation`: every role answers in order, stopping at the first failure. */
  method Round(settings: Settings, roles: seq<string>, tokens: int, conversation: seq<Message>, model: Model, next: nat,
               ghost respond: Responder)
    returns (result: Result<seq<Message>>, calls: nat)
    requires AnswersWithRolePrompt(respond, settings, tokens, model)
    ensures Run(result, calls) == Converse(conversation, roles, respond, next)
  {
    ghost var goal := Converse(conversation, roles, respond, next);
    var current := conversation;
    calls := 0;
    for i := 0 to |roles|
      invariant var rest := Converse(current, roles[i..], respond, next + calls);
        goal == Run(rest.result, calls + rest.calls)
    {
      var role := roles[i];
      var context := Window(current);
      var response, attempts, used := GenerateResponse(settings, RolePrompt(role, tokens), context, Some(tokens), model, next + calls);
      RoundStep(current, roles, i, respond, next + calls, Exchange(response, attempts, used));
      calls := calls + used;
      match response
      case Err(e) =>
        return Err(e), calls;
      case Ok(text) =>
        current := current + [RoleMessage(role, text)];
    }
    result := Ok(current);
  }

  /** The first lines of `generate_conversation`: the opening prompt, then the user's input when it is non-empty. */
  method StartConversation(topic: string, tokens: int, userInput: Option<string>) returns (conversation: seq<Message>)
    ensures conversation == Opening(topic, tokens, userInput)
  {
    conversation := [];
    conversation := conversation + [FormatMessage("user", InitialPrompt(topic, tokens))];
    if userInput.Some? && userInput.value != "" {
      conversation := conversation + [FormatMessage("user", userInput.value)];
    }
  }

  /**
   * The outer loop of `generate_conversation`: `turns` passes over `roles`
   * (none when `turns` is not positive), stopping at the first failure.
   */
  method Passes(settings: Settings, roles: seq<string>, tokens: int, turns: int, conversation: seq<Message>,
                model: Model, next: nat, ghost respond: Responder)
    returns (result: Result<seq<Message>>, calls: nat)
    requires AnswersWithRolePrompt(respond, settings, tokens, model)
    ensures Run(result, calls) == Turns(conversation, roles, TurnCount(turns), respond, next)
  {
    ghost var goal := Turns(conversation, roles, TurnCount(turns), respond, next);
    var current := conversation;
    var currentTurn := 0;
    calls := 0;
    while currentTurn < turns
      invariant 0 <= currentTurn <= TurnCount(turns)
      invariant var rest := Turns(current, roles, TurnCount(turns) - currentTurn, respond, next + calls);
        goal == Run(rest.result, calls + rest.calls)
    {
      var outcome, used := Round(settings, roles, tokens, current, model, next + calls, respond);
      calls := calls + used;
      match outcome
      case Err(e) =>
        return Err(e), calls;
      case Ok(c) =>
        current := c;
      currentTurn := currentTurn + 1;
    }
    result := Ok(current);
  }

  /**
   * `generate_conversation`: the opening messages, then `max_turns` passes
   * over `roles`, each role answering the last two messages. The first
   * failing response ends the run with its error.
   */
  method GenerateConversation(settings: Settings, topic: string, roles: seq<string>, maxTurns: Option<int>,
                              maxTokens: Option<int>, userInput: Option<string>, model: Model, next: nat)
    returns (result: Result<seq<Message>>, calls: nat)
    ensures Run(result, calls) == Conversation(settings, topic, roles, maxTurns, maxTokens, userInput, model, next)
  {
    var turns := OrDefault(maxTurns, DefaultMaxTurns);
    var tokens := OrDefault(maxTokens, DefaultMaxTokensPerResponse);
    var conversation := StartConversation(topic, tokens, userInput);
    ghost var respond := GeminiResponder(settings, tokens, model);
    result, calls := Passes(settings, roles, tokens, turns, conversation, model, next, respond);
    ConversationWith(settings, topic, roles, maxTurns, maxTokens, userInput, model, next, respond);
  }

  // ---------------------------------------------------------------------------
  // get_role_response

  /** `get_role_response`: one response to the topic prompt, tagged with the role. */
  method GetRoleResponse(settings: Settings, role: string, topic: string, context: seq<Message>,
                         maxTokens: Option<int>, model: Model, next: nat)
    returns (result: Result<Message>, calls: nat)
    ensures var x := Respond(settings, RoleTopicPrompt(role, topic), context, maxTokens, model, next);
      && calls == x.calls
      && (x.result.Ok? ==> result.Ok? && result.value.role == "model"
                           && result.value.content == Tag(role) + x.result.value)
      && (x.result.Err? ==> result == Err(x.result.error))
  {
    var response, _, used := GenerateResponse(settings, RoleTopicPrompt(role, topic), context, maxTokens, model, next);
    calls := used;
    match response
    case Err(e) =>
      result := Err(e);
    case Ok(text) =>
      result := Ok(RoleMessage(role, text));
  }
}
