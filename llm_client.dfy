/**
 * `LLMClient`: the loaded configuration, the cache of SDK client objects,
 * the sticky-override state file, one attempt through the right SDK, and the
 * `chat` / `achat` retry loops.
 */
module LlmClient {
  import opened Wrappers
  import opened Text
  import opened Paths
  import opened LlmRouting
  import opened LlmRetry

  // ------------------------------------------------------------ SDK boundary

  /** How an SDK client object was built: which SDK, with which key and endpoint. */
  datatype ClientSpec =
    | OpenAIClient(apiKey: string, baseUrl: Option<string>, asyncMode: bool)
    | GenaiClient(apiKey: string)

  /** A client object: `id` tells objects apart, `spec` says how it was built. */
  datatype Handle = Handle(id: nat, spec: ClientSpec)

  /** What `_get_client` gives back: a client, or the ImportError it raises. */
  datatype ClientResult = Built(handle: Handle) | ImportFailed(message: string)

  /**
   * A chat-completions request as the OpenAI SDK receives it; the keyword
   * arguments of the call are copied into it.
   */
  datatype ChatRequest = ChatRequest(client: ClientSpec, model: Option<string>, messages: seq<Message>,
                                     kwargs: Kwargs)

  /** A `generate_content` request as the google-genai SDK receives it. */
  datatype GenerateRequest = GenerateRequest(apiKey: string, model: Option<string>, prompt: string,
                                             systemInstruction: Option<string>)

  /** The parts of a completion the client reads. */
  datatype Completion = Completion(content: string, finishReason: string)

  /** An SDK call's answer, or the text of the exception it raised. */
  datatype SdkAnswer<T> = Answered(value: T) | Errored(message: string)

  /**
   * Which SDKs are importable, and what the providers answer to a request
   * on a given attempt (0 for the first): the same request may fail on one
   * attempt and be answered on the next.
   */
  datatype Sdk = Sdk(openaiInstalled: bool, genaiInstalled: bool,
                     openai: (ChatRequest, nat) -> SdkAnswer<Completion>,
                     genai: (GenerateRequest, nat) -> SdkAnswer<seq<Candidate>>)

  const OpenaiMissing: string := "The 'openai' library is required. Please install it with 'pip install openai'."
  const GenaiMissing: string :=
    "The 'google-genai' library is required for native Gemini. Please install it with 'pip install google-genai'."
  /** The text of the import error of `from google.genai import types`. */
  const GenaiTypesMissing: string := "No module named 'google.genai'"
  /** The text of calling `OpenAI(...)` when the import left it `None`. */
  const NoneNotCallable: string := "'NoneType' object is not callable"
  /** The text of asking a google-genai client for `.chat`. */
  const NoChatAttribute: string := "'Client' object has no attribute 'chat'"

  // -------------------------------------------------------------- cache keys

  /** `f"{provider}_{'async' if async_mode else 'sync'}"` */
  function CacheKey(provider: string, asyncMode: bool): string
  {
    provider + "_" + (if asyncMode then "async" else "sync")
  }

  /** Splits a cache key at its last '_' into provider and mode. */
  function DecodeKey(key: string): (string, bool)
  {
    var i := RFind(key, '_');
    if i < 0 then (key, false) else (key[..i], key[i + 1..] == "async")
  }

  /** A cache key names its provider and mode: the suffix has no '_', so the last '_' is the separator. */
  lemma CacheKeyRoundTrip(provider: string, asyncMode: bool)
    ensures DecodeKey(CacheKey(provider, asyncMode)) == (provider, asyncMode)
  {
    var suffix := if asyncMode then "async" else "sync";
    var key := CacheKey(provider, asyncMode);
    assert '_' !in suffix;
    assert key[|provider|] == '_';
    var i := RFind(key, '_');
    assert key[..i] == provider;
    assert key[i + 1..] == suffix;
  }

  /** Distinct providers or modes never share a cache entry. */
  lemma CacheKeyInjective(p: string, a: bool, q: string, b: bool)
    requires CacheKey(p, a) == CacheKey(q, b)
    ensures p == q && a == b
  {
    CacheKeyRoundTrip(p, a);
    CacheKeyRoundTrip(q, b);
  }

  /** The key `_get_client` builds for `provider`: placeholder, literal, then `<PROVIDER>_API_KEY`. */
  function ClientKey(cfg: Config, env: map<string, string>, provider: string): string
  {
    ResolveKey(ProviderConfigOf(cfg, provider).apiKey.GetOr(""), provider, env)
  }

  /** The OpenAI-compatible client `_get_client` builds and caches for a provider and mode. */
  function CachedSpec(cfg: Config, env: map<string, string>, provider: string, asyncMode: bool): ClientSpec
  {
    OpenAIClient(ClientKey(cfg, env, provider), ProviderConfigOf(cfg, provider).baseUrl, asyncMode)
  }

  /** Entries already cached stay as they were; new entries are all of mode `asyncMode`. */
  ghost predicate CacheGrows(before: map<string, Handle>, after: map<string, Handle>, asyncMode: bool)
  {
    (forall k :: k in before ==> k in after && after[k] == before[k]) &&
    (forall k :: k in after && k !in before ==> DecodeKey(k).1 == asyncMode)
  }

  /**
   * Every cached client is the one `_get_client` would build for the
   * provider and mode its key names, and was built before the `made`-th.
   */
  ghost predicate CacheValid(cfg: Config, env: map<string, string>, clients: map<string, Handle>, made: nat)
  {
    forall k :: k in clients ==>
      var d := DecodeKey(k);
      k == CacheKey(d.0, d.1) && clients[k].spec == CachedSpec(cfg, env, d.0, d.1) && clients[k].id < made
  }

  /** A new client built as `_get_client` builds it keeps the cache valid. */
  lemma CacheValidInsert(cfg: Config, env: map<string, string>, clients: map<string, Handle>, made: nat,
                         provider: string, asyncMode: bool, h: Handle)
    requires CacheValid(cfg, env, clients, made)
    requires h == Handle(made, CachedSpec(cfg, env, provider, asyncMode))
    ensures CacheValid(cfg, env, clients[CacheKey(provider, asyncMode) := h], made + 1)
  {
    CacheKeyRoundTrip(provider, asyncMode);
  }

  /** A cached client is the one built for the provider and mode of its key. */
  lemma CacheValidLookup(cfg: Config, env: map<string, string>, clients: map<string, Handle>, made: nat,
                         provider: string, asyncMode: bool)
    requires CacheValid(cfg, env, clients, made) && CacheKey(provider, asyncMode) in clients
    ensures clients[CacheKey(provider, asyncMode)].spec == CachedSpec(cfg, env, provider, asyncMode)
  {
    CacheKeyRoundTrip(provider, asyncMode);
  }

  /** Counting one more client keeps the cache valid. */
  lemma CacheValidMade(cfg: Config, env: map<string, string>, clients: map<string, Handle>, made: nat)
    requires CacheValid(cfg, env, clients, made)
    ensures CacheValid(cfg, env, clients, made + 1)
  {
  }

  /** Caching a client under its own key adds an entry of that mode and keeps the rest. */
  lemma CacheGrowsInsert(before: map<string, Handle>, provider: string, asyncMode: bool, h: Handle)
    requires CacheKey(provider, asyncMode) in before ==> before[CacheKey(provider, asyncMode)] == h
    ensures CacheGrows(before, before[CacheKey(provider, asyncMode) := h], asyncMode)
  {
    CacheKeyRoundTrip(provider, asyncMode);
  }

  // ------------------------------------------------------------- one attempt

  /** The system instruction sent to the native SDK: the last system message's content, if not empty. */
  function SystemArg(ms: seq<Message>): Option<string>
  {
    if Truthy(LastSystem(ms)) then LastSystem(ms) else None
  }

  /** An OpenAI-compatible completion turned into the client's response. */
  function Complete(sdk: Sdk, req: ChatRequest, provider: string, attempt: nat): Outcome
  {
    match sdk.openai(req, attempt)
    case Answered(comp) => Ok(Response(comp.content, req.model, provider, comp.finishReason))
    case Errored(m) => Fail(m)
  }

  /**
   * `_chat_internal`: one synchronous attempt. Native Gemini flattens the
   * conversation and re-raises a "404" as `GeminiNotFound`; a call carrying
   * its own key or base URL gets a one-off client; anything else goes
   * through the cached client.
   */
  function ChatAttempt(cfg: Config, env: map<string, string>, sdk: Sdk, c: Call): Outcome
  {
    var p := if c.provider == "" then DefaultProvider(cfg) else c.provider;
    var model := Or(c.model, ProviderConfigOf(cfg, p).model);
    if UsesNativeGemini(cfg, p) then NativeAttempt(cfg, env, sdk, p, model, c.messages, c.attempt)
    else if Truthy(c.apiKey) || Truthy(c.baseUrl) then OneOffAttempt(cfg, env, sdk, p, model, c)
    else CachedAttempt(cfg, env, sdk, p, model, c.messages, c.kwargs, c.attempt, false)
  }

  /** The google-genai path of `_chat_internal`; the keyword arguments do not reach this SDK. */
  function NativeAttempt(cfg: Config, env: map<string, string>, sdk: Sdk, p: string, model: Option<string>,
                         messages: seq<Message>, attempt: nat): Outcome
  {
    if !sdk.genaiInstalled then Fail(GenaiTypesMissing)
    else
      match sdk.genai(GenerateRequest(ClientKey(cfg, env, p), model, Transcript(messages), SystemArg(messages)), attempt)
      case Answered(candidates) => Ok(Response(ReplyText(candidates), model, p, "stop"))
      case Errored(m) => Fail(NativeFailure(m, model))
  }

  /** `_chat_internal` with a caller's key or base URL: a one-off synchronous client. */
  function OneOffAttempt(cfg: Config, env: map<string, string>, sdk: Sdk, p: string, model: Option<string>,
                         c: Call): Outcome
  {
    var pc := ProviderConfigOf(cfg, p);
    if !sdk.openaiInstalled then Fail(NoneNotCallable)
    else
      var client := OpenAIClient(OneOffKey(c.apiKey, pc.apiKey.GetOr(""), env), Or(c.baseUrl, pc.baseUrl), false);
      Complete(sdk, ChatRequest(client, model, c.messages, c.kwargs), p, c.attempt)
  }

  /** A completion through the cached OpenAI-compatible client of `p` for the mode. */
  function CachedAttempt(cfg: Config, env: map<string, string>, sdk: Sdk, p: string, model: Option<string>,
                         messages: seq<Message>, kwargs: Kwargs, attempt: nat, asyncMode: bool): Outcome
  {
    if !sdk.openaiInstalled then Fail(OpenaiMissing)
    else Complete(sdk, ChatRequest(CachedSpec(cfg, env, p, asyncMode), model, messages, kwargs), p, attempt)
  }

  /**
   * `_achat_internal`: one asynchronous attempt, always through the cached
   * async client. For native Gemini that client is a google-genai one, which
   * has no `chat` attribute.
   */
  function AChatAttempt(cfg: Config, env: map<string, string>, sdk: Sdk, c: Call): Outcome
  {
    var p := c.provider;
    var model := Or(c.model, ProviderConfigOf(cfg, p).model);
    if UsesNativeGemini(cfg, p) then
      if !sdk.genaiInstalled then Fail(GenaiMissing) else Fail(NoChatAttribute)
    else CachedAttempt(cfg, env, sdk, p, model, c.messages, c.kwargs, c.attempt, true)
  }

  /**
   * On the native Gemini path a "404" from the SDK comes back as
   * `GeminiNotFound`, which is retried unless the model name carries a
   * fatal marker.
   */
  lemma Native404IsRetried(cfg: Config, env: map<string, string>, sdk: Sdk, c: Call, m: string)
    requires c.provider == "gemini" && UsesNativeGemini(cfg, "gemini") && sdk.genaiInstalled
    requires sdk.genai(GenerateRequest(ClientKey(cfg, env, "gemini"), Or(c.model, ProviderConfigOf(cfg, "gemini").model),
                                       Transcript(c.messages), SystemArg(c.messages)), c.attempt) == Errored(m)
    requires Contains(m, "404")
    ensures var model := Or(c.model, ProviderConfigOf(cfg, "gemini").model);
      ChatAttempt(cfg, env, sdk, c) == Fail(GeminiNotFound(model)) &&
      (IsFatal(GeminiNotFound(model)) <==> IsFatal(ModelText(model)))
  {
    Native404Reclassified(m, Or(c.model, ProviderConfigOf(cfg, "gemini").model));
  }

  /**
   * A base URL passed by the caller builds a one-off client whose key has no
   * `<PROVIDER>_API_KEY` fallback: with no key configured it is empty, while
   * the cached client of the same provider reads the variable.
   */
  lemma BaseUrlOverrideDropsEnvKey(cfg: Config, env: map<string, string>, sdk: Sdk, c: Call)
    requires c.provider != "" && !UsesNativeGemini(cfg, c.provider) && sdk.openaiInstalled
    requires !Truthy(c.apiKey) && Truthy(c.baseUrl)
    requires ProviderConfigOf(cfg, c.provider).apiKey.GetOr("") == ""
    ensures var model := Or(c.model, ProviderConfigOf(cfg, c.provider).model);
      ChatAttempt(cfg, env, sdk, c) ==
        Complete(sdk, ChatRequest(OpenAIClient("", c.baseUrl, false), model, c.messages, c.kwargs), c.provider, c.attempt)
    ensures ClientKey(cfg, env, c.provider) == EnvGet(env, KeyVariable(c.provider))
  {
    OneOffKeyLacksEnvFallback(c.provider, env);
  }

  /** `achat` on native Gemini can never succeed, and its error is not fatal. */
  lemma AChatNativeGeminiFails(cfg: Config, env: map<string, string>, sdk: Sdk, c: Call)
    requires UsesNativeGemini(cfg, c.provider) && sdk.genaiInstalled
    ensures AChatAttempt(cfg, env, sdk, c) == Fail(NoChatAttribute)
    ensures !IsFatal(NoChatAttribute)
  {
    NoChatAttributeNotFatal();
  }

  /** The text of an OpenAI SDK timeout. */
  const Timeout: string := "Request timed out."

  /** A timeout is not a fatal error. */
  lemma TimeoutNotFatal()
    ensures !IsFatal(Timeout)
  {
    NoMarkerCharNotFatal(Timeout);
  }

  /** An OpenAI SDK that times out on a request's first attempt and answers every later one. */
  function FlakySdk(comp: Completion): Sdk
  {
    Sdk(true, false,
        (req: ChatRequest, k: nat) => if k == 0 then Errored(Timeout) else Answered(comp),
        (req: GenerateRequest, k: nat) => Errored(Timeout))
  }

  /** What a synchronous attempt on a named OpenAI-compatible provider gets from `FlakySdk`. */
  lemma FlakyChat(cfg: Config, env: map<string, string>, comp: Completion, c: Call)
    requires c.provider != "" && !UsesNativeGemini(cfg, c.provider)
    ensures ChatAttempt(cfg, env, FlakySdk(comp), c) ==
      if c.attempt == 0 then Fail(Timeout)
      else Ok(Response(comp.content, Or(c.model, ProviderConfigOf(cfg, c.provider).model), c.provider, comp.finishReason))
  {
  }

  /** What an asynchronous attempt on an OpenAI-compatible provider gets from `FlakySdk`. */
  lemma FlakyAChat(cfg: Config, env: map<string, string>, comp: Completion, c: Call)
    requires !UsesNativeGemini(cfg, c.provider)
    ensures AChatAttempt(cfg, env, FlakySdk(comp), c) ==
      if c.attempt == 0 then Fail(Timeout)
      else Ok(Response(comp.content, Or(c.model, ProviderConfigOf(cfg, c.provider).model), c.provider, comp.finishReason))
  {
  }

  /** A timeout on the first of at least two attempts asks for a retry; a reply never does. */
  lemma FlakySteps(o: Call -> Outcome, route: Route, p: string, n: int)
    requires n >= 2 && o(CallFor(route, p, 0)) == Fail(Timeout) && o(CallFor(route, p, 1)).Ok?
    ensures ProviderSteps(o, route, p, 0, n) ==
      [Step(CallFor(route, p, 0), Fail(Timeout)), Step(CallFor(route, p, 1), o(CallFor(route, p, 1)))]
  {
    var c0, c1 := CallFor(route, p, 0), CallFor(route, p, 1);
    TimeoutNotFatal();
    var s0, s1 := Step(c0, o(c0)), Step(c1, o(c1));
    assert Retryable(s0, n) && !Retryable(s1, n);
    assert ProviderSteps(o, route, p, 1, n) == [s1];
  }

  /**
   * The walk when the first provider of the chain times out on its first
   * attempt and answers `resp` on its second.
   */
  lemma RecoveryRun(o: Call -> Outcome, route: Route, chain: seq<string>, n: int, delay: int, resp: Response)
    requires n >= 2 && chain != []
    requires o(CallFor(route, chain[0], 0)) == Fail(Timeout) && o(CallFor(route, chain[0], 1)) == Ok(resp)
    ensures ChainSteps(o, route, chain, n) ==
      [Step(CallFor(route, chain[0], 0), Fail(Timeout)), Step(CallFor(route, chain[0], 1), Ok(resp))]
    ensures Sleeps(ChainSteps(o, route, chain, n), n, delay) == [delay]
  {
    var p := chain[0];
    FlakySteps(o, route, p, n);
    var s0, s1 := Step(CallFor(route, p, 0), Fail(Timeout)), Step(CallFor(route, p, 1), Ok(resp));
    assert Succeeded([s0, s1]);
    assert ChainSteps(o, route, chain, n) == [s0, s1];
    TimeoutNotFatal();
    OneWait(s0, s1, n, delay);
  }

  /** A retried attempt 0 followed by one that is not retried: one wait, of the base delay. */
  lemma OneWait(s0: Step, s1: Step, n: int, delay: int)
    requires Retryable(s0, n) && !Retryable(s1, n) && s0.call.attempt == 0
    ensures Sleeps([s0, s1], n, delay) == [delay]
  {
    assert [s0, s1][1..] == [s1] && [s1][1..] == [];
    assert Sleeps([s1], n, delay) == [];
    assert Backoff(delay, 0) == delay;
  }

  /**
   * `chat` recovers from a transient failure: when the SDK times out on the
   * first attempt and answers the second, the first provider of the chain is
   * tried twice with one wait of the base delay, and its answer is the reply.
   */
  lemma RetryRecovers(cfg: Config, env: map<string, string>, o: Call -> Outcome, route: Route,
                      chain: seq<string>, n: int, delay: int, comp: Completion)
    requires forall c :: o(c) == ChatAttempt(cfg, env, FlakySdk(comp), c)
    requires n >= 2 && chain != [] && chain[0] != "" && !UsesNativeGemini(cfg, chain[0])
    ensures var steps := ChainSteps(o, route, chain, n);
      && |steps| == 2
      && steps[0].call == CallFor(route, chain[0], 0) && steps[0].outcome == Fail(Timeout)
      && steps[1].call == CallFor(route, chain[0], 1)
      && Sleeps(steps, n, delay) == [delay]
      && Winner(steps) == Some(chain[0])
      && ChatResultOf(steps, |chain|).Replied?
      && ChatResultOf(steps, |chain|).response.content == comp.content
  {
    var c0, c1 := CallFor(route, chain[0], 0), CallFor(route, chain[0], 1);
    FlakyChat(cfg, env, comp, c0);
    FlakyChat(cfg, env, comp, c1);
    assert o(c0) == Fail(Timeout);
    assert o(c1).Ok? && o(c1).response.content == comp.content;
    RecoveryRun(o, route, chain, n, delay, o(c1).response);
  }

  /**
   * The same run with a negative `retry_delay`: the wait after the timeout
   * raises, so `chat` raises the ValueError after that one attempt, with no
   * wait and no winner, although the next attempt would have been answered.
   */
  lemma NegativeDelayRaises(cfg: Config, env: map<string, string>, o: Call -> Outcome, route: Route,
                            chain: seq<string>, n: int, delay: int, comp: Completion, res: ChatResult,
                            trace0: seq<Step>, trace: seq<Step>, sleeps0: seq<int>, sleeps: seq<int>)
    requires forall c :: o(c) == ChatAttempt(cfg, env, FlakySdk(comp), c)
    requires n >= 2 && chain != [] && chain[0] != "" && !UsesNativeGemini(cfg, chain[0]) && delay < 0
    requires ChatMade(o, route, chain, n, delay, res, trace0, trace, sleeps0, sleeps)
    ensures res == Raised(SleepNegative)
    ensures trace == trace0 + [Step(CallFor(route, chain[0], 0), Fail(Timeout))] && sleeps == sleeps0
    ensures ChatWinner(o, route, chain, n, delay) == None
  {
    RetryRecovers(cfg, env, o, route, chain, n, delay, comp);
    var steps := ChainSteps(o, route, chain, n);
    assert FirstRetry(steps, n) == 0;
    assert steps[..1] == [steps[0]];
  }

  /** `achat` recovers in the same way: two attempts, one wait, the second attempt's answer. */
  lemma ARetryRecovers(cfg: Config, env: map<string, string>, o: Call -> Outcome, route: Route, p: string,
                       n: int, comp: Completion)
    requires forall c :: o(c) == AChatAttempt(cfg, env, FlakySdk(comp), c)
    requires n >= 2 && !UsesNativeGemini(cfg, p)
    ensures var steps := ProviderSteps(o, route, p, 0, n);
      && |steps| == 2 && steps[0].outcome == Fail(Timeout)
      && AChatResultOf(steps).Replied?
      && AChatResultOf(steps).response.content == comp.content
  {
    var c0, c1 := CallFor(route, p, 0), CallFor(route, p, 1);
    FlakyAChat(cfg, env, comp, c0);
    FlakyAChat(cfg, env, comp, c1);
    FlakySteps(o, route, p, n);
  }

  /**
   * The error mentions no marker: it has no '4' and no '_', and every
   * fourteen characters of it hold a space, which "authentication" lacks.
   */
  lemma NoChatAttributeNotFatal()
    ensures !IsFatal(NoChatAttribute)
  {
    var s := NoChatAttribute;
    forall i | 0 <= i < 3 ensures !Contains(Lower(s), FatalMarkers[i]) {
      NoChatAttributeLacks(i);
    }
    var m := FatalMarkers[3];
    assert |m| == 14 && ' ' !in m;
    NoChatAttributeWalled();
    WalledNotContains(Lower(s), m, ' ');
  }

  /** The first three markers each have a character, '4' or '_', that the error lacks. */
  lemma NoChatAttributeLacks(i: nat)
    requires i < 3
    ensures !Contains(Lower(NoChatAttribute), FatalMarkers[i])
  {
    var s := NoChatAttribute;
    var w := if i == 0 then '4' else '_';
    assert w in FatalMarkers[i] by {
      if i == 0 { assert FatalMarkers[i][0] == w; }
      else { assert FatalMarkers[i][if i == 1 then 7 else 10] == w; }
    }
    assert w !in s && UpperChar(w) !in s;
    LowerLacks(s, w);
    MissingCharNotContains(Lower(s), FatalMarkers[i], w);
  }

  /** The error's words are at most nine characters long: spaces sit at 8, 15, 19, 22 and 32. */
  lemma NoChatAttributeWalled()
    ensures forall i: nat :: i + 14 <= |Lower(NoChatAttribute)| ==> Walled(Lower(NoChatAttribute), i, 14, ' ')
  {
    var s := NoChatAttribute;
    var l := Lower(s);
    forall i: nat | i + 14 <= |l| ensures Walled(l, i, 14, ' ') {
      var j := if i <= 8 then 8 else if i <= 15 then 15 else if i <= 19 then 19 else if i <= 22 then 22 else 32;
      assert s[j] == ' ';
      assert l[i..i + 14][j - i] == ' ';
    }
  }

  // ------------------------------------------------------------- state file

  /** What `llm_state.json` holds: nothing, unreadable JSON, or overrides per context. */
  datatype StateFile = Missing | Corrupt | Parsed(contexts: map<string, map<string, string>>)

  /** `_load_state`: this context's overrides, or none when there is no context or no readable file. */
  function LoadState(ctx: Option<string>, f: StateFile): map<string, string>
  {
    if !Truthy(ctx) || !f.Parsed? || ctx.value !in f.contexts then map[] else f.contexts[ctx.value]
  }

  /**
   * `_save_state`: the file and the in-memory overrides after recording
   * `original -> stable` for the context. Without a context, or when reading
   * or writing the file fails, nothing changes.
   */
  function SaveEffect(f: StateFile, overrides: map<string, string>, ctx: Option<string>,
                      original: string, stable: string, ioFails: bool): (StateFile, map<string, string>)
  {
    if !Truthy(ctx) || ioFails || f.Corrupt? then (f, overrides)
    else
      var state := if f.Parsed? then f.contexts else map[];
      var mine := (if ctx.value in state then state[ctx.value] else map[])[original := stable];
      (Parsed(state[ctx.value := mine]), mine)
  }

  /**
   * Saving records exactly one entry: this context now maps `original` to
   * `stable`, every other entry of the file is kept, the in-memory overrides
   * become this context's entry, and a client started later on the same
   * file for the same context sends `original` to `stable`.
   */
  lemma SaveEffectSpec(f: StateFile, overrides: map<string, string>, ctx: Option<string>,
                       original: string, stable: string, ioFails: bool)
    ensures var (f', o') := SaveEffect(f, overrides, ctx, original, stable, ioFails);
      if !Truthy(ctx) || ioFails || f.Corrupt? then f' == f && o' == overrides
      else
        var before := if f.Parsed? then f.contexts else map[];
        && f'.Parsed?
        && f'.contexts.Keys == before.Keys + {ctx.value}
        && (forall c :: c in before && c != ctx.value ==> f'.contexts[c] == before[c])
        && o' == f'.contexts[ctx.value]
        && o'.Keys == LoadState(ctx, f).Keys + {original}
        && (forall p :: p in o' && p != original ==> o'[p] == LoadState(ctx, f)[p])
        && LoadState(ctx, f') == o'
        && EffectiveProvider(o', original) == stable
  {
  }

  /**
   * Two clients of different contexts saving in turn on one file, each
   * re-reading it first: both contexts' new overrides are in the file.
   */
  lemma SavesOfTwoContexts(f: StateFile, oa: map<string, string>, ob: map<string, string>,
                           a: Option<string>, b: Option<string>,
                           originalA: string, stableA: string, originalB: string, stableB: string)
    requires Truthy(a) && Truthy(b) && a.value != b.value && !f.Corrupt?
    ensures var f1 := SaveEffect(f, oa, a, originalA, stableA, false).0;
      var f2 := SaveEffect(f1, ob, b, originalB, stableB, false).0;
      && EffectiveProvider(LoadState(a, f2), originalA) == stableA
      && EffectiveProvider(LoadState(b, f2), originalB) == stableB
  {
    SaveEffectSpec(f, oa, a, originalA, stableA, false);
    var f1 := SaveEffect(f, oa, a, originalA, stableA, false).0;
    SaveEffectSpec(f1, ob, b, originalB, stableB, false);
  }

  /** The ensures of `Chat`: the request's route before any override is consulted. */
  function ChatRoute(messages: seq<Message>, overrides: map<string, string>, cfg: Config, provider: Option<string>,
                     model: Option<string>, apiKey: Option<string>, baseUrl: Option<string>, kwargs: Kwargs): (r: Route)
    ensures r.original == RequestedProvider(provider, cfg)
    ensures r.effective == EffectiveProvider(overrides, r.original)
  {
    var original := RequestedProvider(provider, cfg);
    Route(messages, original, EffectiveProvider(overrides, original), model, apiKey, baseUrl, kwargs)
  }

  // ------------------------------------------------------------------ class

  class LLMClient {
    const config: Config
    /** The process environment, read when a key is resolved. */
    const env: map<string, string>
    /** The SHA-256 digest of the context id given to the constructor, if one was. */
    const contextId: Option<string>
    /** The SDKs this process can import and what the providers answer. */
    const sdk: Sdk
    /** What each synchronous attempt (`_chat_internal`) produces. */
    ghost const syncAttempts: Call -> Outcome
    /** What each asynchronous attempt (`_achat_internal`) produces. */
    ghost const asyncAttempts: Call -> Outcome
    /** `_clients`: cached OpenAI-compatible clients by cache key. */
    var clients: map<string, Handle>
    /** How many client objects have been built so far. */
    var handlesMade: nat
    /** `_overrides`: this context's sticky overrides. */
    var overrides: map<string, string>
    /**
     * The shared state file as this client last read or wrote it; other
     * clients may write the file in between.
     */
    var stateFile: StateFile
    /** Every attempt made, in order. */
    ghost var trace: seq<Step>
    /** Every wait, in order. */
    ghost var sleeps: seq<int>

    /** Every cached client is the one `_get_client` would build for its key. */
    ghost predicate Valid()
      reads this`clients, this`handlesMade
    {
      CacheValid(config, env, clients, handlesMade)
    }

    /**
     * The attempt outcomes are those of `ChatAttempt` and `AChatAttempt`. The
     * triggers keep the attempt functions folded until a method names them.
     */
    ghost predicate Linked()
    {
      && (forall c {:trigger ChatAttempt(config, env, sdk, c)} :: syncAttempts(c) == ChatAttempt(config, env, sdk, c))
      && (forall c {:trigger AChatAttempt(config, env, sdk, c)} :: asyncAttempts(c) == AChatAttempt(config, env, sdk, c))
    }

    /** The outcomes of the synchronous or the asynchronous attempts. */
    ghost function Attempts(asyncMode: bool): Call -> Outcome
    {
      if asyncMode then asyncAttempts else syncAttempts
    }

    /** `__init__`: loads the configuration, hashes the context id, and loads its overrides. */
    constructor(configFile: ConfigFile, contextArg: Option<string>, sha256: string -> string,
                environment: map<string, string>, file: StateFile, installed: Sdk)
      ensures Valid() && Linked()
      ensures config == LoadConfig(configFile) && env == environment && sdk == installed
      ensures contextId == if Truthy(contextArg) then Some(sha256(contextArg.value)) else None
      ensures clients == map[] && handlesMade == 0
      ensures stateFile == file && overrides == LoadState(contextId, file)
      ensures trace == [] && sleeps == []
    {
      config := LoadConfig(configFile);
      env := environment;
      sdk := installed;
      syncAttempts := (c: Call) => ChatAttempt(LoadConfig(configFile), environment, installed, c);
      asyncAttempts := (c: Call) => AChatAttempt(LoadConfig(configFile), environment, installed, c);
      contextId := if Truthy(contextArg) then Some(sha256(contextArg.value)) else None;
      clients := map[];
      handlesMade := 0;
      stateFile := file;
      trace := [];
      sleeps := [];
      new;
      overrides := LoadState(contextId, file);
    }

    /** `_save_state`, given the file as it is on disk when the save re-reads it. */
    method SaveState(onDisk: StateFile, original: string, stable: string, ioFails: bool)
      modifies this`stateFile, this`overrides
      ensures (stateFile, overrides) == SaveEffect(onDisk, old(overrides), contextId, original, stable, ioFails)
    {
      stateFile := onDisk;
      if !Truthy(contextId) || ioFails {
        return;
      }
      var state: map<string, map<string, string>>;
      match onDisk {
        case Corrupt => return;
        case Missing => state := map[];
        case Parsed(m) => state := m;
      }
      var ctx := contextId.value;
      ghost var read := state;
      if ctx !in state {
        state := state[ctx := map[]];
      }
      state := state[ctx := state[ctx][original := stable]];
      assert state == read[ctx := state[ctx]];
      stateFile := Parsed(state);
      overrides := state[ctx];
    }

    /**
     * `_get_client`: native Gemini gets a fresh google-genai client every
     * time; other providers get the cached OpenAI-compatible client for
     * their key, built on first use.
     */
    method GetClient(provider: string, asyncMode: bool) returns (r: ClientResult)
      requires Valid()
      modifies this`clients, this`handlesMade
      ensures Valid()
      ensures UsesNativeGemini(config, provider) ==>
        clients == old(clients) &&
        if sdk.genaiInstalled then
          r == Built(Handle(old(handlesMade), GenaiClient(ClientKey(config, env, provider)))) &&
          handlesMade == old(handlesMade) + 1
        else
          r == ImportFailed(GenaiMissing) && handlesMade == old(handlesMade)
      ensures !UsesNativeGemini(config, provider) ==> CachedClientResult(provider, asyncMode, r, old(clients), old(handlesMade))
    {
      var apiKey := ApiKeyFor(provider);
      var baseUrl := ProviderConfigOf(config, provider).baseUrl;
      if provider == "gemini" && (!Truthy(baseUrl) || !Contains(baseUrl.value, "/openai")) {
        if !sdk.genaiInstalled {
          return ImportFailed(GenaiMissing);
        }
        r := Built(Handle(handlesMade, GenaiClient(apiKey)));
        CacheValidMade(config, env, clients, handlesMade);
        handlesMade := handlesMade + 1;
      } else {
        r := CachedClient(provider, asyncMode, apiKey);
      }
    }

    /** The key lookup of `_get_client`: the configured key, `${VAR}` expanded, else `<PROVIDER>_API_KEY`. */
    method ApiKeyFor(provider: string) returns (apiKey: string)
      ensures apiKey == ClientKey(config, env, provider)
    {
      var keyText := ProviderConfigOf(config, provider).apiKey.GetOr("");
      if IsPlaceholder(keyText) {
        apiKey := EnvGet(env, PlaceholderName(keyText));
      } else {
        apiKey := keyText;
      }
      if apiKey == "" {
        apiKey := EnvGet(env, KeyVariable(provider));
      }
    }

    /**
     * What `_get_client` gives for an OpenAI-compatible provider: the
     * ImportError without the `openai` SDK; otherwise the client cached
     * under the provider's key, built from its key and base URL and cached
     * on first use, every other entry kept.
     */
    ghost predicate CachedClientResult(provider: string, asyncMode: bool, r: ClientResult,
                                       before: map<string, Handle>, madeBefore: nat)
      reads this`clients, this`handlesMade
    {
      if !sdk.openaiInstalled then
        r == ImportFailed(OpenaiMissing) && clients == before && handlesMade == madeBefore
      else
        var key := CacheKey(provider, asyncMode);
        && r.Built? && r.handle.spec == CachedSpec(config, env, provider, asyncMode)
        && clients == before[key := r.handle]
        && (key in before ==> r.handle == before[key] && handlesMade == madeBefore)
        && (key !in before ==> r.handle.id == madeBefore && handlesMade == madeBefore + 1)
    }

    /** The OpenAI-compatible half of `_get_client`. */
    method CachedClient(provider: string, asyncMode: bool, apiKey: string) returns (r: ClientResult)
      requires Valid() && apiKey == ClientKey(config, env, provider)
      modifies this`clients, this`handlesMade
      ensures Valid()
      ensures CachedClientResult(provider, asyncMode, r, old(clients), old(handlesMade))
    {
      if !sdk.openaiInstalled {
        return ImportFailed(OpenaiMissing);
      }
      var key := CacheKey(provider, asyncMode);
      if key in clients {
        CacheValidLookup(config, env, clients, handlesMade, provider, asyncMode);
        assert clients[key := clients[key]] == clients;
        return Built(clients[key]);
      }
      var h := BuildCached(provider, asyncMode, apiKey);
      r := Built(h);
    }

    /** A cache miss: the client is built, numbered and stored under its key. */
    method BuildCached(provider: string, asyncMode: bool, apiKey: string) returns (h: Handle)
      requires Valid() && apiKey == ClientKey(config, env, provider)
      modifies this`clients, this`handlesMade
      ensures Valid()
      ensures h == Handle(old(handlesMade), CachedSpec(config, env, provider, asyncMode))
      ensures clients == old(clients)[CacheKey(provider, asyncMode) := h] && handlesMade == old(handlesMade) + 1
    {
      h := Handle(handlesMade, OpenAIClient(apiKey, ProviderConfigOf(config, provider).baseUrl, asyncMode));
      CacheValidInsert(config, env, clients, handlesMade, provider, asyncMode, h);
      handlesMade := handlesMade + 1;
      clients := clients[CacheKey(provider, asyncMode) := h];
    }

    /** One synchronous attempt (`_chat_internal`). */
    method Invoke(c: Call) returns (o: Outcome)
      requires Valid()
      modifies this`clients, this`handlesMade
      ensures Valid()
      ensures o == ChatAttempt(config, env, sdk, c)
      ensures CacheGrows(old(clients), clients, false)
      ensures Truthy(c.apiKey) || Truthy(c.baseUrl) ==> clients == old(clients)
    {
      var p := if c.provider == "" then DefaultProvider(config) else c.provider;
      var model := Or(c.model, ProviderConfigOf(config, p).model);
      if UsesNativeGemini(config, p) {
        o := InvokeNative(p, model, c.messages, c.attempt);
      } else if Truthy(c.apiKey) || Truthy(c.baseUrl) {
        o := OneOffAttempt(config, env, sdk, p, model, c);
      } else {
        o := InvokeCached(p, model, c.messages, c.kwargs, c.attempt, false);
      }
    }

    /** The google-genai path of `_chat_internal`: a fresh native client, the flattened prompt, one call. */
    method InvokeNative(p: string, model: Option<string>, messages: seq<Message>, attempt: nat) returns (o: Outcome)
      requires Valid() && UsesNativeGemini(config, p)
      modifies this`clients, this`handlesMade
      ensures Valid() && clients == old(clients)
      ensures o == NativeAttempt(config, env, sdk, p, model, messages, attempt)
    {
      if !sdk.genaiInstalled {
        return Fail(GenaiTypesMissing);
      }
      var h := GetClient("gemini", false);
      var prompt, instruction := FlattenForGemini(messages);
      match sdk.genai(GenerateRequest(h.handle.spec.apiKey, model, prompt, instruction), attempt) {
        case Answered(candidates) => o := Ok(Response(ReplyText(candidates), model, p, "stop"));
        case Errored(m) => o := Fail(NativeFailure(m, model));
      }
    }

    /** A completion through the cached client of `p`, built on first use. */
    method InvokeCached(p: string, model: Option<string>, messages: seq<Message>, kwargs: Kwargs, attempt: nat,
                        asyncMode: bool) returns (o: Outcome)
      requires Valid() && !UsesNativeGemini(config, p)
      modifies this`clients, this`handlesMade
      ensures Valid()
      ensures o == CachedAttempt(config, env, sdk, p, model, messages, kwargs, attempt, asyncMode)
      ensures CacheGrows(old(clients), clients, asyncMode)
    {
      var h := GetClient(p, asyncMode);
      if h.Built? {
        CacheGrowsInsert(old(clients), p, asyncMode, h.handle);
      }
      if h.ImportFailed? {
        return Fail(h.message);
      }
      o := Complete(sdk, ChatRequest(h.handle.spec, model, messages, kwargs), p, attempt);
    }

    /** One asynchronous attempt (`_achat_internal`). */
    method AInvoke(c: Call) returns (o: Outcome)
      requires Valid()
      modifies this`clients, this`handlesMade
      ensures Valid()
      ensures o == AChatAttempt(config, env, sdk, c)
      ensures CacheGrows(old(clients), clients, true)
    {
      var model := Or(c.model, ProviderConfigOf(config, c.provider).model);
      if !UsesNativeGemini(config, c.provider) {
        o := InvokeCached(c.provider, model, c.messages, c.kwargs, c.attempt, true);
        return;
      }
      var h := GetClient(c.provider, true);
      if h.ImportFailed? {
        return Fail(h.message);
      }
      o := Fail(NoChatAttribute);
    }

    /**
     * One pass of the attempt loop: the call, its outcome, and the wait
     * before the next attempt when the failure is retryable. A synchronous
     * wait of negative length raises instead (`time.sleep`); an
     * asynchronous one returns at once.
     */
    method AttemptOnce(route: Route, p: string, attempt: nat, n: int, delay: int, asyncMode: bool)
      returns (out: Outcome, retry: bool, sleepFailed: bool)
      requires Valid() && Linked()
      modifies this`clients, this`handlesMade, this`trace, this`sleeps
      ensures Valid()
      ensures var c := CallFor(route, p, attempt);
        && out == Attempts(asyncMode)(c)
        && retry == Retryable(Step(c, out), n)
        && sleepFailed == (retry && !asyncMode && delay < 0)
        && trace == old(trace) + [Step(c, out)]
        && sleeps == old(sleeps) + if retry && !sleepFailed then [Backoff(delay, attempt)] else []
      ensures CacheGrows(old(clients), clients, asyncMode)
    {
      var c := CallFor(route, p, attempt);
      if asyncMode {
        out := AInvoke(c);
      } else {
        out := Invoke(c);
      }
      trace := trace + [Step(c, out)];
      retry := Retryable(Step(c, out), n);
      sleepFailed := retry && !asyncMode && delay < 0;
      if retry && !sleepFailed {
        sleeps := sleeps + [Backoff(delay, attempt)];
      }
    }

    /**
     * The attempt loop of `chat` and `achat` on one provider: attempts with
     * exponential backoff until a reply, a fatal error, or the last allowed
     * attempt. Gives the last outcome, or nothing when no attempt is allowed;
     * `sleepFailed` when a synchronous wait of negative length raised after
     * the first attempt.
     */
    method TryProvider(route: Route, p: string, n: int, delay: int, asyncMode: bool)
      returns (last: Option<Outcome>, sleepFailed: bool)
      requires Valid() && Linked()
      modifies this`clients, this`handlesMade, this`trace, this`sleeps
      ensures Valid()
      ensures sleepFailed ==> !asyncMode && delay < 0
      ensures sleepFailed ==>
        var steps := ProviderSteps(Attempts(asyncMode), route, p, 0, n);
        |steps| >= 2 && trace == old(trace) + steps[..1] && sleeps == old(sleeps)
      ensures !sleepFailed ==>
        AttemptsMade(Attempts(asyncMode), route, p, n, delay, last, old(trace), trace, old(sleeps), sleeps)
      ensures !sleepFailed && !asyncMode && delay < 0 ==> |ProviderSteps(Attempts(asyncMode), route, p, 0, n)| <= 1
    {
      ghost var local: seq<Step> := [];
      last, sleepFailed := None, false;
      var attempt: nat := 0;
      AttemptLoopStart(Attempts(asyncMode), route, p, n, delay, trace, sleeps);
      while attempt < n
        invariant Valid()
        invariant AttemptLoop(Attempts(asyncMode), route, p, n, delay, attempt, local, last, old(trace), trace, old(sleeps), sleeps)
        invariant !asyncMode && delay < 0 ==> attempt == 0
        invariant !sleepFailed
      {
        ghost var t, s := trace, sleeps;
        var out, retry;
        out, retry, sleepFailed := AttemptOnce(route, p, attempt, n, delay, asyncMode);
        if sleepFailed {
          AttemptLoopRaise(Attempts(asyncMode), route, p, n, delay, local, last, old(trace), t, old(sleeps), s, out);
          return;
        }
        AttemptLoopStep(Attempts(asyncMode), route, p, n, delay, attempt, local, last, old(trace), t, old(sleeps), s, out);
        local := local + [Step(CallFor(route, p, attempt), out)];
        last := Some(out);
        if !retry {
          return;
        }
        attempt := attempt + 1;
      }
      AttemptLoopExit(Attempts(asyncMode), route, p, n, delay, attempt, local, last, old(trace), trace, old(sleeps), sleeps);
    }

    /**
     * `chat`: walks the fallback chain from the effective provider, retrying
     * transient failures with exponential backoff, moving on at once after a
     * fatal one, and recording a sticky override when a provider other than
     * the requested one answers.
     */
    method Chat(messages: seq<Message>, provider: Option<string>, model: Option<string>, apiKey: Option<string>,
                baseUrl: Option<string>, kwargs: Kwargs, fileAtSave: StateFile, saveFails: bool)
      returns (r: ChatResult)
      requires Valid() && Linked()
      modifies this`clients, this`handlesMade, this`overrides, this`stateFile, this`trace, this`sleeps
      ensures Valid()
      ensures var route := ChatRoute(messages, old(overrides), config, provider, model, apiKey, baseUrl, kwargs);
        var chain := BuildChain(route.effective);
        var winner := ChatWinner(syncAttempts, route, chain, kwargs.maxRetries.GetOr(3), kwargs.retryDelay.GetOr(2));
        && ChatMade(syncAttempts, route, chain, kwargs.maxRetries.GetOr(3), kwargs.retryDelay.GetOr(2), r,
                    old(trace), trace, old(sleeps), sleeps)
        && if winner.Some? && winner.value != route.original then
             (stateFile, overrides) ==
               SaveEffect(fileAtSave, old(overrides), contextId, route.original, winner.value, saveFails)
           else
             stateFile == old(stateFile) && overrides == old(overrides)
    {
      var original := RequestedProvider(provider, config);
      var effective := EffectiveProvider(overrides, original);
      var route := Route(messages, original, effective, model, apiKey, baseUrl, kwargs);
      assert route == ChatRoute(messages, overrides, config, provider, model, apiKey, baseUrl, kwargs);
      var chain := BuildChain(effective);
      ChainDistinct(effective);
      var winner;
      r, winner := Walk(route, chain, kwargs.maxRetries.GetOr(3), kwargs.retryDelay.GetOr(2));
      SaveIfMoved(original, winner, fileAtSave, saveFails);
    }

    /** The end of `chat`'s success path: a provider other than the requested one becomes sticky. */
    method SaveIfMoved(original: string, winner: Option<string>, fileAtSave: StateFile, saveFails: bool)
      modifies this`stateFile, this`overrides
      ensures if winner.Some? && winner.value != original then
          (stateFile, overrides) == SaveEffect(fileAtSave, old(overrides), contextId, original, winner.value, saveFails)
        else
          stateFile == old(stateFile) && overrides == old(overrides)
    {
      if winner.Some? && winner.value != original {
        SaveState(fileAtSave, original, winner.value, saveFails);
      }
    }

    /**
     * The loop of `chat` over the providers of `chain`: each provider's
     * attempts in turn until one answers, then that provider. After an
     * attempt that failed, the `sys` of the fallback message is bound; when
     * nothing was ever tried and providers remain, it is not.
     */
    method Walk(route: Route, chain: seq<string>, n: int, delay: int) returns (r: ChatResult, winner: Option<string>)
      requires Valid() && Linked() && Distinct(chain)
      modifies this`clients, this`handlesMade, this`trace, this`sleeps
      ensures Valid()
      ensures ChatMade(syncAttempts, route, chain, n, delay, r, old(trace), trace, old(sleeps), sleeps)
      ensures winner == ChatWinner(syncAttempts, route, chain, n, delay)
    {
      ghost var done: seq<Step> := [];
      var lastError: Option<string> := None;
      var sysBound := false;
      var i := 0;
      ChainLoopStart(syncAttempts, route, chain, n, delay, trace, sleeps);
      while i < |chain|
        invariant Valid()
        invariant ChainLoop(syncAttempts, route, chain, n, delay, i, done, lastError, sysBound,
                            old(trace), trace, old(sleeps), sleeps)
      {
        var p := chain[i];
        ghost var t, s := trace, sleeps;
        var last, sleepFailed := TryProvider(route, p, n, delay, false);
        if sleepFailed {
          ChainLoopSleepRaised(syncAttempts, route, chain, n, delay, i, done, lastError, sysBound,
                               old(trace), t, old(sleeps), s, trace, sleeps);
          return Raised(SleepNegative), None;
        }
        ChainLoopAfter(syncAttempts, route, chain, n, delay, i, done, lastError, sysBound,
                       old(trace), t, old(sleeps), s, last, trace, sleeps);
        if last.Some? && last.value.Ok? {
          return Replied(last.value.response), Some(p);
        }
        if !(last.Some? || sysBound) && p != chain[|chain| - 1] {
          return RaisedUnbound, None;
        }
        done := done + ProviderSteps(syncAttempts, route, p, 0, n);
        lastError := if last.Some? then Some(last.value.message) else lastError;
        sysBound := sysBound || last.Some?;
        i := i + 1;
      }
      ChainLoopExit(syncAttempts, route, chain, n, delay, i, done, lastError, sysBound,
                    old(trace), trace, old(sleeps), sleeps);
      r := if lastError.None? then RaisedNone else Raised(lastError.value);
      winner := None;
    }

    /**
     * `achat`: retries the one requested provider with exponential backoff,
     * re-raising a fatal error or the last failure; no fallback chain and no
     * overrides. With no attempts allowed it returns `None`.
     */
    method AChat(messages: seq<Message>, provider: Option<string>, model: Option<string>, kwargs: Kwargs)
      returns (r: ChatResult)
      requires Valid() && Linked()
      modifies this`clients, this`handlesMade, this`trace, this`sleeps
      ensures Valid()
      ensures var p := RequestedProvider(provider, config);
        AChatMade(asyncAttempts, Route(messages, p, p, model, None, None, kwargs), p,
                  kwargs.maxRetries.GetOr(3), kwargs.retryDelay.GetOr(2), r, old(trace), trace, old(sleeps), sleeps)
    {
      var p := RequestedProvider(provider, config);
      var route := Route(messages, p, p, model, None, None, kwargs);
      var last, _ := TryProvider(route, p, kwargs.maxRetries.GetOr(3), kwargs.retryDelay.GetOr(2), true);
      match last {
        case None => r := ReturnedNone;
        case Some(Ok(response)) => r := Replied(response);
        case Some(Fail(message)) => r := Raised(message);
      }
    }
  }

}
