/**
 * The expression-level rules of the multi-provider chat client: default
 * provider, sticky-override lookup, fallback chain, fatal-error
 * classification, backoff, which caller overrides reach a candidate, API-key
 * resolution, and the native-Gemini request/response shapes.
 */
module LlmRouting {
  import opened Wrappers
  import opened Text

  /** The fixed priority list the fallback chain is cut from. */
  const FallbackChain: seq<string> := ["deepseek", "dashscope", "siliconflow", "gemini", "openai"]

  /** Lower-case substrings that make an error fatal for the provider that raised it. */
  const FatalMarkers: seq<string> := ["404", "invalid_api_key", "permission_denied", "authentication"]

  /** Python's `a or b` on optional strings. */
  function Or(a: Option<string>, b: Option<string>): (r: Option<string>)
    ensures Truthy(a) ==> r == a
    ensures !Truthy(a) ==> r == b
  {
    if Truthy(a) then a else b
  }

  // ------------------------------------------------------------ configuration

  /** One provider's entry of the configuration file. */
  datatype ProviderConfig = ProviderConfig(apiKey: Option<string>, baseUrl: Option<string>, model: Option<string>)

  /** The configuration: per-provider entries and the `provider.default` setting. */
  datatype Config = Config(providers: map<string, ProviderConfig>, defaultProvider: Option<string>)

  /** What reading the configuration file found. */
  datatype ConfigFile = NoFile | Malformed | Loaded(config: Config)

  /** `{"provider": {"default": "openai"}}` */
  const MinimalConfig: Config := Config(map[], Some("openai"))

  /** `_load_config`: a missing or undecodable file gives the minimal configuration. */
  function LoadConfig(f: ConfigFile): Config
  {
    if f.Loaded? then f.config else MinimalConfig
  }

  /** `config.get(provider, {})` */
  function ProviderConfigOf(cfg: Config, provider: string): ProviderConfig
  {
    if provider in cfg.providers then cfg.providers[provider] else ProviderConfig(None, None, None)
  }

  /** `config.get("provider", {}).get("default", "openai")` */
  function DefaultProvider(cfg: Config): string
  {
    cfg.defaultProvider.GetOr("openai")
  }

  /** `provider or <configured default>`: the provider a chat request asks for. */
  function RequestedProvider(arg: Option<string>, cfg: Config): (p: string)
    ensures Truthy(arg) ==> p == arg.value
    ensures !Truthy(arg) && cfg.defaultProvider.Some? ==> p == cfg.defaultProvider.value
    ensures !Truthy(arg) && cfg.defaultProvider.None? ==> p == "openai"
  {
    if Truthy(arg) then arg.value else DefaultProvider(cfg)
  }

  /** Without a usable configuration file, a request naming no provider goes to "openai". */
  lemma MissingConfigDefaultsToOpenai(f: ConfigFile, arg: Option<string>)
    requires !f.Loaded? && !Truthy(arg)
    ensures RequestedProvider(arg, LoadConfig(f)) == "openai"
  {
  }

  // ------------------------------------------------------ override and chain

  /** The sticky override: one lookup, never followed further. */
  function EffectiveProvider(overrides: map<string, string>, requested: string): (p: string)
    ensures requested in overrides ==> p == overrides[requested]
    ensures requested !in overrides ==> p == requested
  {
    if requested in overrides then overrides[requested] else requested
  }

  /** Override lookup is not transitive: a -> b and b -> c still sends a to b. */
  lemma OverrideIsOneStep()
    ensures var o := map["a" := "b", "b" := "c"];
      EffectiveProvider(o, "a") == "b" && EffectiveProvider(o, EffectiveProvider(o, "a")) == "c"
  {
  }

  /**
   * The candidates to try: the tail of the fixed list from the provider's own
   * position, or the provider followed by the whole list. The inner test
   * repeats the source's re-check after a successful `index`, which can
   * never be true.
   */
  function BuildChain(p: string): (chain: seq<string>)
    ensures |chain| > 0 && chain[0] == p
    ensures p in FallbackChain ==> chain == FallbackChain[IndexOf(FallbackChain, p)..]
    ensures p !in FallbackChain ==> chain == [p] + FallbackChain
  {
    if p in FallbackChain then
      var tail := FallbackChain[IndexOf(FallbackChain, p)..];
      if p !in FallbackChain then [p] + FallbackChain else tail
    else
      [p] + FallbackChain
  }

  ghost predicate Distinct<T>(s: seq<T>)
  {
    forall i, j :: 0 <= i < j < |s| ==> s[i] != s[j]
  }

  /** No provider is tried twice in one call, and the chain has at most six entries. */
  lemma ChainDistinct(p: string)
    ensures Distinct(BuildChain(p))
    ensures |BuildChain(p)| <= |FallbackChain| + 1
  {
    var f := FallbackChain;
    assert Distinct(f) by {
      assert f[0] == "deepseek" && f[1] == "dashscope" && f[2] == "siliconflow" && f[3] == "gemini" && f[4] == "openai";
    }
    if p in f {
      var i := IndexOf(f, p);
      assert BuildChain(p) == f[i..];
    } else {
      var c := [p] + f;
      forall i, j | 0 <= i < j < |c| ensures c[i] != c[j] {
        if i == 0 { assert c[j] == f[j - 1]; }
      }
    }
  }

  // ------------------------------------------------------ error classification

  /** A failure whose lower-cased text holds a fatal marker ends its provider's attempts. */
  predicate IsFatal(message: string)
  {
    exists i :: 0 <= i < |FatalMarkers| && Contains(Lower(message), FatalMarkers[i])
  }

  /** The markers are matched case-insensitively wherever they sit in the message. */
  lemma FatalAnywhere(before: string, marker: string, after: string)
    requires Lower(marker) in FatalMarkers
    ensures IsFatal(before + marker + after)
  {
    LowerAppend(before + marker, after);
    LowerAppend(before, marker);
    ContainsInfix(Lower(before), Lower(marker), Lower(after));
    var i :| 0 <= i < |FatalMarkers| && FatalMarkers[i] == Lower(marker);
  }

  /** A message with none of '4', '_', 'h' or 'H' cannot hold a marker, whatever its case. */
  lemma NoMarkerCharNotFatal(message: string)
    requires '4' !in message && '_' !in message && 'h' !in message && 'H' !in message
    ensures !IsFatal(message)
  {
    forall i | 0 <= i < |FatalMarkers| ensures !Contains(Lower(message), FatalMarkers[i]) {
      var w := if i == 0 then '4' else if i == 3 then 'h' else '_';
      assert w in FatalMarkers[i] by {
        if i == 0 { assert FatalMarkers[i][0] == w; }
        else if i == 3 { assert FatalMarkers[i][3] == w; }
        else { assert FatalMarkers[i][if i == 1 then 7 else 10] == w; }
      }
      LowerLacks(message, w);
      MissingCharNotContains(Lower(message), FatalMarkers[i], w);
    }
  }

  function Pow2(k: nat): (r: nat)
    ensures r >= 1
  {
    if k == 0 then 1 else 2 * Pow2(k - 1)
  }

  /** `retry_delay * (2 ** attempt)` */
  function Backoff(delay: int, attempt: nat): int
  {
    delay * Pow2(attempt)
  }

  /** Each retry waits twice as long as the one before. */
  lemma BackoffDoubles(delay: int, attempt: nat)
    ensures Backoff(delay, attempt + 1) == 2 * Backoff(delay, attempt)
    ensures Backoff(delay, 0) == delay
  {
  }

  // ------------------------------------------------------------- forwarding

  datatype Message = Message(role: string, content: string)

  /**
   * The keyword arguments `chat` and `achat` read themselves (`max_retries`,
   * `retry_delay`); they stay in `**kwargs` and travel with every attempt.
   */
  datatype Kwargs = Kwargs(maxRetries: Option<int>, retryDelay: Option<int>)

  /**
   * What `chat` hands to `_chat_internal` for one attempt: the messages, the
   * candidate, the attempt index, the model, API key and base URL it
   * forwards, and the keyword arguments.
   */
  datatype Call = Call(messages: seq<Message>, provider: string, attempt: nat,
                       model: Option<string>, apiKey: Option<string>, baseUrl: Option<string>,
                       kwargs: Kwargs)

  /** Everything about a request that stays fixed while the chain is walked. */
  datatype Route = Route(messages: seq<Message>, original: string, effective: string,
                         model: Option<string>, apiKey: Option<string>, baseUrl: Option<string>,
                         kwargs: Kwargs)

  /** Caller overrides reach a candidate only on the requested provider with no override applied. */
  predicate ForwardsCallerOverrides(r: Route, p: string)
  {
    p == r.original && r.effective == r.original
  }

  /** The call made for attempt `k` on candidate `p`. */
  function CallFor(r: Route, p: string, k: nat): (c: Call)
    ensures c.provider == p && c.attempt == k && c.messages == r.messages
    ensures c.baseUrl == r.baseUrl && c.kwargs == r.kwargs
    ensures ForwardsCallerOverrides(r, p) ==> c.model == r.model && c.apiKey == r.apiKey
    ensures !ForwardsCallerOverrides(r, p) ==> c.model == None && c.apiKey == None
  {
    if ForwardsCallerOverrides(r, p) then Call(r.messages, p, k, r.model, r.apiKey, r.baseUrl, r.kwargs)
    else Call(r.messages, p, k, None, None, r.baseUrl, r.kwargs)
  }

  // ------------------------------------------------------------- API keys

  /** `s.startswith("${") and s.endswith("}")` */
  predicate IsPlaceholder(s: string)
  {
    "${" <= s && |s| > 0 && s[|s| - 1] == '}'
  }

  /** `s[2:-1]` of a placeholder. */
  function PlaceholderName(s: string): string
    requires IsPlaceholder(s)
  {
    assert s[1] == '{';
    s[2..|s| - 1]
  }

  /** `os.environ.get(name, "")` */
  function EnvGet(env: map<string, string>, name: string): string
  {
    if name in env then env[name] else ""
  }

  /** The environment variable consulted when no key is configured. */
  function KeyVariable(provider: string): string
  {
    Upper(provider) + "_API_KEY"
  }

  /**
   * `_get_client`'s key: a `${NAME}` placeholder reads the environment, other
   * text is the key itself, and an empty result falls back to
   * `<PROVIDER>_API_KEY`.
   */
  function ResolveKey(configured: string, provider: string, env: map<string, string>): (key: string)
    ensures IsPlaceholder(configured) && EnvGet(env, PlaceholderName(configured)) != "" ==>
      key == env[PlaceholderName(configured)]
    ensures !IsPlaceholder(configured) && configured != "" ==> key == configured
    ensures (if IsPlaceholder(configured) then EnvGet(env, PlaceholderName(configured)) else configured) == "" ==>
      key == EnvGet(env, KeyVariable(provider))
  {
    var first := if IsPlaceholder(configured) then EnvGet(env, PlaceholderName(configured)) else configured;
    if first == "" then EnvGet(env, KeyVariable(provider)) else first
  }

  predicate IsWordChar(c: char)
  {
    'a' <= c <= 'z' || 'A' <= c <= 'Z' || '0' <= c <= '9' || c == '_'
  }

  /** Length of the longest prefix of word characters. */
  function WordRun(s: string): (n: nat)
    ensures n <= |s|
    ensures forall i :: 0 <= i < n ==> IsWordChar(s[i])
    ensures n < |s| ==> !IsWordChar(s[n])
  {
    if s == [] || !IsWordChar(s[0]) then 0 else 1 + WordRun(s[1..])
  }

  /**
   * `os.path.expandvars`: `$NAME` and `${NAME}` are replaced by the
   * variable's value when it is set and left as they are otherwise;
   * substituted text is not scanned again.
   */
  function ExpandVars(s: string, env: map<string, string>): (r: string)
    ensures '$' !in s ==> r == s
    decreases |s|
  {
    if s == [] then []
    else if s[0] != '$' then [s[0]] + ExpandVars(s[1..], env)
    else
      var w := WordRun(s[1..]);
      if w > 0 then
        var name := s[1..1 + w];
        (if name in env then env[name] else s[..1 + w]) + ExpandVars(s[1 + w..], env)
      else if |s| > 1 && s[1] == '{' && '}' in s[2..] then
        var j := 2 + IndexOf(s[2..], '}');
        var name := s[2..j];
        (if name in env then env[name] else s[..j + 1]) + ExpandVars(s[j + 1..], env)
      else
        [s[0]] + ExpandVars(s[1..], env)
  }

  /**
   * The key of the temporary client built when a call carries its own key or
   * base URL: the caller's key, else the configured key with variables
   * expanded; a remaining placeholder reads the environment. There is no
   * `<PROVIDER>_API_KEY` fallback here.
   */
  function OneOffKey(apiKey: Option<string>, configured: string, env: map<string, string>): string
  {
    var k := if Truthy(apiKey) then apiKey.value else ExpandVars(configured, env);
    if IsPlaceholder(k) then EnvGet(env, PlaceholderName(k)) else k
  }

  /**
   * The two key paths disagree: with no key configured, the cached path reads
   * `<PROVIDER>_API_KEY` and the one-off path sends an empty key.
   */
  lemma OneOffKeyLacksEnvFallback(provider: string, env: map<string, string>)
    ensures OneOffKey(None, "", env) == ""
    ensures ResolveKey("", provider, env) == EnvGet(env, KeyVariable(provider))
  {
  }

  /** On a `${NAME}` placeholder the one-off path reads the same variable as the cached path. */
  lemma PlaceholderKeysAgree(name: string, env: map<string, string>)
    requires '}' !in name
    requires name in env ==> !IsPlaceholder(env[name])
    ensures IsPlaceholder("${" + name + "}") && PlaceholderName("${" + name + "}") == name
    ensures OneOffKey(None, "${" + name + "}", env) == EnvGet(env, name)
  {
    var s := "${" + name + "}";
    assert s[1..][0] == '{';
    assert WordRun(s[1..]) == 0;
    assert s[2..] == name + "}";
    assert '}' in s[2..] by { assert s[2..][|name|] == '}'; }
    assert IndexOf(s[2..], '}') == |name|;
    assert s[2..2 + |name|] == name;
    assert s[2 + |name| + 1..] == [];
    assert ExpandVars(s, env) == (if name in env then env[name] else s);
  }

  // ------------------------------------------------------- native Gemini shape

  /** The native Gemini SDK serves "gemini" unless its base URL points at an OpenAI-compatible endpoint. */
  predicate UsesNativeGemini(cfg: Config, provider: string)
  {
    provider == "gemini" &&
    var b := ProviderConfigOf(cfg, provider).baseUrl;
    !Truthy(b) || !Contains(b.value, "/openai")
  }

  /** The turn line a message contributes to the flattened prompt. */
  function Turn(m: Message): string
  {
    if m.role == "user" then "User: " + m.content + "\n"
    else if m.role == "assistant" then "Model: " + m.content + "\n"
    else ""
  }

  /** The native prompt of a conversation: the turn lines of its messages, in order. */
  function Transcript(ms: seq<Message>): string
  {
    if ms == [] then "" else Transcript(ms[..|ms| - 1]) + Turn(ms[|ms| - 1])
  }

  /** The content of the last system message, if any. */
  function LastSystem(ms: seq<Message>): Option<string>
  {
    if ms == [] then None
    else if ms[|ms| - 1].role == "system" then Some(ms[|ms| - 1].content)
    else LastSystem(ms[..|ms| - 1])
  }

  /**
   * Flattening a conversation for the native SDK: turn lines are appended in
   * order, and the system instruction is the last system message's content,
   * sent only when it is not empty.
   */
  method FlattenForGemini(ms: seq<Message>) returns (prompt: string, systemInstruction: Option<string>)
    ensures prompt == Transcript(ms)
    ensures systemInstruction == if Truthy(LastSystem(ms)) then LastSystem(ms) else None
  {
    prompt := "";
    var system: Option<string> := None;
    for i := 0 to |ms|
      invariant prompt == Transcript(ms[..i])
      invariant system == LastSystem(ms[..i])
    {
      var m := ms[i];
      assert ms[..i + 1][..i] == ms[..i];
      if m.role == "system" {
        system := Some(m.content);
      } else if m.role == "user" {
        prompt := prompt + "User: " + m.content + "\n";
      } else if m.role == "assistant" {
        prompt := prompt + "Model: " + m.content + "\n";
      }
    }
    assert ms[..|ms|] == ms;
    systemInstruction := if Truthy(system) then system else None;
  }

  /** Flattening distributes over concatenation: the prompt keeps message order. */
  lemma {:induction false} TranscriptAppend(a: seq<Message>, b: seq<Message>)
    ensures Transcript(a + b) == Transcript(a) + Transcript(b)
    decreases |b|
  {
    if b != [] {
      var b' := b[..|b| - 1];
      assert (a + b)[..|a + b| - 1] == a + b';
      TranscriptAppend(a, b');
    } else {
      assert a + b == a;
    }
  }

  lemma TranscriptSingle(a: seq<Message>, m: Message)
    ensures Transcript(a + [m]) == Transcript(a) + Turn(m)
  {
    assert (a + [m])[..|a|] == a;
  }

  /** Messages that are neither user nor assistant turns add nothing to the prompt. */
  lemma OtherRolesDropped(a: seq<Message>, m: Message, b: seq<Message>)
    requires m.role != "user" && m.role != "assistant"
    ensures Transcript(a + [m] + b) == Transcript(a + b)
  {
    TranscriptAppend(a + [m], b);
    TranscriptSingle(a, m);
    TranscriptAppend(a, b);
  }

  /** `i` is the last system message of `ms`, and its content is `c`. */
  ghost predicate LastSystemAt(ms: seq<Message>, i: int, c: string)
  {
    0 <= i < |ms| && ms[i].role == "system" && ms[i].content == c &&
    forall j :: i < j < |ms| ==> ms[j].role != "system"
  }

  /** The system instruction found is the content of the last system message. */
  lemma {:induction false} LastSystemFound(ms: seq<Message>)
    requires LastSystem(ms).Some?
    ensures exists i :: LastSystemAt(ms, i, LastSystem(ms).value)
    decreases |ms|
  {
    var n := |ms| - 1;
    if ms[n].role == "system" {
      assert LastSystemAt(ms, n, LastSystem(ms).value);
    } else {
      var pre := ms[..n];
      LastSystemFound(pre);
      var i :| LastSystemAt(pre, i, LastSystem(pre).value);
      assert LastSystemAt(ms, i, LastSystem(ms).value);
    }
  }

  /** The last system message's content is the system instruction found. */
  lemma {:induction false} LastSystemOfLast(ms: seq<Message>, i: int, c: string)
    requires LastSystemAt(ms, i, c)
    ensures LastSystem(ms) == Some(c)
    decreases |ms|
  {
    var n := |ms| - 1;
    if i < n {
      var pre := ms[..n];
      assert LastSystemAt(pre, i, c);
      LastSystemOfLast(pre, i, c);
    }
  }

  /** The system instruction is the content of the last system message, in both directions. */
  lemma LastSystemIsLast(ms: seq<Message>, c: string)
    ensures LastSystem(ms) == Some(c) <==> exists i :: LastSystemAt(ms, i, c)
  {
    if LastSystem(ms) == Some(c) {
      LastSystemFound(ms);
    }
    if exists i :: LastSystemAt(ms, i, c) {
      var i :| LastSystemAt(ms, i, c);
      LastSystemOfLast(ms, i, c);
    }
  }

  /** One part of a candidate's content; `text` is absent for non-text parts. */
  datatype Part = Part(text: Option<string>)

  datatype Candidate = Candidate(parts: seq<Part>)

  /** `"".join(part.text for part in parts if part.text)` */
  function PartsText(parts: seq<Part>): string
  {
    if parts == [] then ""
    else (if Truthy(parts[0].text) then parts[0].text.value else "") + PartsText(parts[1..])
  }

  /** The reply text: the text parts of the first candidate, or "" when there is none. */
  function ReplyText(candidates: seq<Candidate>): string
  {
    if candidates != [] && candidates[0].parts != [] then PartsText(candidates[0].parts) else ""
  }

  /** Text assembly keeps the parts' order. */
  lemma {:induction false} PartsTextAppend(a: seq<Part>, b: seq<Part>)
    ensures PartsText(a + b) == PartsText(a) + PartsText(b)
  {
    if a != [] {
      assert (a + b)[1..] == a[1..] + b;
      PartsTextAppend(a[1..], b);
    } else {
      assert a + b == b;
    }
  }

  /** A part without text adds nothing to the reply, wherever it sits. */
  lemma NonTextPartDropped(a: seq<Part>, p: Part, b: seq<Part>)
    requires !Truthy(p.text)
    ensures PartsText(a + [p] + b) == PartsText(a + b)
  {
    PartsTextAppend(a + [p], b);
    PartsTextAppend(a, [p]);
    PartsTextAppend(a, b);
  }

  /** Only the first candidate is read. */
  lemma OnlyFirstCandidate(c: Candidate, rest1: seq<Candidate>, rest2: seq<Candidate>)
    ensures ReplyText([c] + rest1) == ReplyText([c] + rest2)
  {
  }

  /** `str(model)` as it appears in the re-raised error. */
  function ModelText(model: Option<string>): string
  {
    if model.Some? then model.value else "None"
  }

  /**
   * The fixed words before and after the model name in the re-raised error
   * (the tail is written in short pieces so that facts about its characters
   * can be checked piece by piece).
   */
  const NotFoundHead: string := "Gemini Model "
  const NotFoundTail: string :=
    " not " + "found " + "via " + "google-" + "genai " + "SDK. " + "Verify " + "model " + "ID " + "validity."

  /** The error the native path raises in place of one that mentions "404". */
  function GeminiNotFound(model: Option<string>): string
  {
    NotFoundHead + "'" + ModelText(model) + "'" + NotFoundTail
  }

  /** The native path's error: a message with "404" is replaced by `GeminiNotFound`. */
  function NativeFailure(message: string, model: Option<string>): string
  {
    if Contains(message, "404") then GeminiNotFound(model) else message
  }

  /** Neither a character nor its capital occurs in the fixed words. */
  predicate FrameLacks(c: char)
  {
    c !in NotFoundHead && c !in NotFoundTail && UpperChar(c) !in NotFoundHead && UpperChar(c) !in NotFoundTail
  }

  lemma FrameLacksDigit()
    ensures FrameLacks('4')
  {
  }

  lemma FrameLacksUnderscore()
    ensures FrameLacks('_')
  {
  }

  lemma TailLacksH()
    ensures 'h' !in NotFoundTail
  {
  }

  lemma TailLacksCapitalH()
    ensures 'H' !in NotFoundTail
  {
  }

  lemma FrameLacksH()
    ensures FrameLacks('h')
  {
    TailLacksH();
    TailLacksCapitalH();
  }

  /** Each fatal marker has a character that the fixed words lack, in either case. */
  lemma FrameLacksMarkerChar(i: nat) returns (w: char)
    requires i < |FatalMarkers|
    ensures w in FatalMarkers[i]
    ensures w !in Lower(NotFoundHead) && w !in Lower(NotFoundTail)
  {
    if i == 0 {
      w := '4';
      assert FatalMarkers[i][0] == w;
      FrameLacksDigit();
    } else if i == 3 {
      w := 'h';
      assert FatalMarkers[i][3] == w;
      FrameLacksH();
    } else {
      w := '_';
      assert FatalMarkers[i][if i == 1 then 7 else 10] == w;
      FrameLacksUnderscore();
    }
    LowerLacks(NotFoundHead, w);
    LowerLacks(NotFoundTail, w);
  }

  lemma FramedOnlyInMiddle(lh: string, ln: string, lt: string, m: string, w: char)
    requires '\'' !in m && w in m && w !in lh && w !in lt
    requires Contains(lh + ['\''] + (ln + ['\''] + lt), m)
    ensures Contains(ln, m)
  {
    MissingCharNotContains(lh, m, w);
    MissingCharNotContains(lt, m, w);
    ContainsAcrossSeparator(lh, '\'', ln + ['\''] + lt, m);
    ContainsAcrossSeparator(ln, '\'', lt, m);
  }

  lemma FramedMiddleFound(lh: string, ln: string, lt: string, m: string)
    requires Contains(ln, m)
    ensures Contains(lh + ['\''] + (ln + ['\''] + lt), m)
  {
    ContainsWithin(lh + ['\''], ln, ['\''] + lt, m);
    assert lh + ['\''] + ln + (['\''] + lt) == lh + ['\''] + (ln + ['\''] + lt);
  }

  /** A marker with no quote, missing a character from both outer parts, is found only in the middle. */
  lemma FramedContains(lh: string, ln: string, lt: string, m: string, w: char)
    requires '\'' !in m && w in m && w !in lh && w !in lt
    ensures Contains(lh + ['\''] + (ln + ['\''] + lt), m) <==> Contains(ln, m)
  {
    if Contains(lh + ['\''] + (ln + ['\''] + lt), m) {
      FramedOnlyInMiddle(lh, ln, lt, m, w);
    }
    if Contains(ln, m) {
      FramedMiddleFound(lh, ln, lt, m);
    }
  }

  /** Lower-casing the re-raised error lower-cases its three pieces. */
  lemma LowerGeminiNotFound(model: Option<string>)
    ensures Lower(GeminiNotFound(model)) ==
      Lower(NotFoundHead) + ['\''] + (Lower(ModelText(model)) + ['\''] + Lower(NotFoundTail))
  {
    var name := ModelText(model);
    assert GeminiNotFound(model) == NotFoundHead + ['\''] + (name + ['\''] + NotFoundTail);
    LowerAppend(NotFoundHead + ['\''], name + ['\''] + NotFoundTail);
    LowerAppend(NotFoundHead, ['\'']);
    LowerAppend(name + ['\''], NotFoundTail);
    LowerAppend(name, ['\'']);
    assert Lower(['\'']) == ['\''];
  }

  /**
   * The replacement text is fatal only when the model name itself holds a
   * fatal marker: the fixed words around it have no '4', '_' or 'h', and the
   * quotes around the name keep a marker from spanning the boundary.
   */
  lemma GeminiNotFoundFatalIff(model: Option<string>)
    ensures IsFatal(GeminiNotFound(model)) <==> IsFatal(ModelText(model))
  {
    var msg := GeminiNotFound(model);
    var lh, ln, lt := Lower(NotFoundHead), Lower(ModelText(model)), Lower(NotFoundTail);
    LowerGeminiNotFound(model);
    forall i | 0 <= i < |FatalMarkers|
      ensures Contains(Lower(msg), FatalMarkers[i]) <==> Contains(ln, FatalMarkers[i])
    {
      var w := FrameLacksMarkerChar(i);
      assert '\'' !in FatalMarkers[i];
      FramedContains(lh, ln, lt, FatalMarkers[i], w);
    }
  }

  /**
   * A native-path "404" (fatal as raised) becomes transient once re-raised,
   * unless the model name carries a marker.
   */
  lemma Native404Reclassified(message: string, model: Option<string>)
    requires Contains(message, "404")
    ensures IsFatal(message)
    ensures IsFatal(NativeFailure(message, model)) <==> IsFatal(ModelText(model))
  {
    Contains404Fatal(message);
    assert NativeFailure(message, model) == GeminiNotFound(model);
    GeminiNotFoundFatalIff(model);
  }

  /** A message holding "404" is fatal. */
  lemma Contains404Fatal(message: string)
    requires Contains(message, "404")
    ensures IsFatal(message)
  {
    var i: nat :| OccursAt(message, "404", i);
    assert Lower("404") == "404";
    assert message == message[..i] + "404" + message[i + 3..];
    FatalAnywhere(message[..i], "404", message[i + 3..]);
  }
}
