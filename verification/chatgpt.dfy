/** The chat extension: its configuration, the client's proxy settings,
    and the assembly and dispatch of a streamed chat completion request. */
module ChatGPT {
  import opened Wrappers
  import opened Messages

  /** Bounds of the seed drawn when none is configured. */
  const SeedMin := 0
  const SeedMax := 10000

  /** The line that introduces a scenario in the system prompt. */
  const ScenarioHeader := "##scenario\n"

  /** The message every dispatch failure carries before its cause. */
  const DispatchErrorPrefix := "CreateChatCompletionStream failed, err: "

  /** The extension's settings. Sampling parameters are floating-point
      values that are only ever copied. */
  datatype Config = Config(
    baseUrl: string,
    apiKey: string,
    model: string,
    prompt: string,
    scenario: Option<string>,
    frequencyPenalty: real,
    presencePenalty: real,
    topP: real,
    temperature: real,
    maxTokens: int,
    seed: int,
    proxyUrl: Option<string>)

  /** A streamed chat completion request. */
  datatype ChatRequest = ChatRequest(
    model: string,
    messages: seq<Message>,
    temperature: real,
    topP: real,
    presencePenalty: real,
    frequencyPenalty: real,
    maxTokens: int,
    seed: int,
    stream: bool)

  /** A client bound to one configuration, with the proxies set on the
      session attached to the client (scheme to proxy URL). */
  datatype Client = Client(config: Config, proxies: map<string, string>)

  /** Python truthiness of an optional string: `None` and `""` are false. */
  predicate IsSet(s: Option<string>) {
    s.Some? && s.value != ""
  }

  /** Builds a configuration. Every argument is stored as given, except an
      absent seed, which becomes some integer drawn from
      [SeedMin, SeedMax]; the draw happens here, once. */
  method NewConfig(
    baseUrl: string, apiKey: string, model: string, prompt: string,
    frequencyPenalty: real, presencePenalty: real, topP: real, temperature: real,
    maxTokens: int, seed: Option<int>, proxyUrl: Option<string>, scenario: Option<string>)
    returns (c: Config)
    ensures c.baseUrl == baseUrl && c.apiKey == apiKey && c.model == model && c.prompt == prompt
    ensures c.scenario == scenario && c.proxyUrl == proxyUrl
    ensures c.frequencyPenalty == frequencyPenalty && c.presencePenalty == presencePenalty
    ensures c.topP == topP && c.temperature == temperature && c.maxTokens == maxTokens
    ensures seed.Some? ==> c.seed == seed.value
    ensures seed.None? ==> SeedMin <= c.seed <= SeedMax
  {
    var s: int;
    if seed.Some? {
      s := seed.value;
    } else {
      s :| SeedMin <= s <= SeedMax;
    }
    c := Config(baseUrl, apiKey, model, prompt, scenario,
                frequencyPenalty, presencePenalty, topP, temperature, maxTokens, s, proxyUrl);
  }

  /** The proxies a client's session uses: both schemes through the
      configured proxy when one is set, none otherwise. */
  function ProxyMap(proxyUrl: Option<string>): (m: map<string, string>)
    ensures forall scheme :: scheme in m <==> IsSet(proxyUrl) && scheme in {"http", "https"}
    ensures forall scheme :: scheme in m ==> m[scheme] == proxyUrl.value
  {
    if IsSet(proxyUrl) then map["http" := proxyUrl.value, "https" := proxyUrl.value] else map[]
  }

  /** Creates the client for a configuration. */
  function NewClient(config: Config): (c: Client)
    ensures c.config == config
    ensures c.proxies.Keys == if IsSet(config.proxyUrl) then {"http", "https"} else {}
    ensures forall scheme :: scheme in c.proxies ==> c.proxies[scheme] == config.proxyUrl.value
  {
    Client(config, ProxyMap(config.proxyUrl))
  }

  /** The system prompt of one call: the configured prompt, preceded by the
      scenario under its header line when a scenario is set. */
  function EffectivePrompt(config: Config): (p: string)
    ensures |p| >= |config.prompt| && p[|p| - |config.prompt|..] == config.prompt
    ensures !IsSet(config.scenario) ==> p == config.prompt
    ensures IsSet(config.scenario) ==>
              var sc := config.scenario.value;
              && |p| == |ScenarioHeader| + |sc| + 1 + |config.prompt|
              && p[..|ScenarioHeader|] == ScenarioHeader
              && p[|ScenarioHeader|..|ScenarioHeader| + |sc|] == sc
              && p[|ScenarioHeader| + |sc|] == '\n'
  {
    if IsSet(config.scenario) then ScenarioHeader + config.scenario.value + "\n" + config.prompt
    else config.prompt
  }

  /** The scenario of a call can be read back from its system prompt. */
  lemma {:induction false} ScenarioRecoverable(c1: Config, c2: Config)
    requires c1.prompt == c2.prompt && IsSet(c1.scenario) && IsSet(c2.scenario)
    requires EffectivePrompt(c1) == EffectivePrompt(c2)
    ensures c1.scenario == c2.scenario
  {
    var p := EffectivePrompt(c1);
    var n := |ScenarioHeader|;
    assert |c1.scenario.value| == |c2.scenario.value|;
    assert c1.scenario.value == p[n..n + |c1.scenario.value|] == c2.scenario.value;
  }

  /** A scenario `SCN` on the prompt `BASE` gives the system prompt
      "##scenario\nSCN\nBASE"; without a scenario it is "BASE". */
  lemma ScenarioPromptExample(config: Config)
    requires config.prompt == "BASE"
    ensures EffectivePrompt(config.(scenario := Some("SCN"))) == "##scenario\nSCN\nBASE"
    ensures EffectivePrompt(config.(scenario := None)) == "BASE"
    ensures EffectivePrompt(config.(scenario := Some(""))) == "BASE"
  {
  }

  /** The request for one call: the system turn, then the caller's turns in
      their order, with the configured model and sampling parameters and
      streaming on. */
  function BuildChatRequest(config: Config, messages: seq<Message>): (r: ChatRequest)
    ensures |r.messages| == |messages| + 1
    ensures r.messages[0] == Message(System, PlainText(EffectivePrompt(config)))
    ensures forall i :: 0 <= i < |messages| ==> r.messages[i + 1] == messages[i]
    ensures r.model == config.model && r.maxTokens == config.maxTokens && r.seed == config.seed
    ensures r.temperature == config.temperature && r.topP == config.topP
    ensures r.presencePenalty == config.presencePenalty && r.frequencyPenalty == config.frequencyPenalty
    ensures r.stream
  {
    ChatRequest(
      config.model,
      [Message(System, PlainText(EffectivePrompt(config)))] + messages,
      config.temperature,
      config.topP,
      config.presencePenalty,
      config.frequencyPenalty,
      config.maxTokens,
      config.seed,
      true)
  }

  /** The caller's turns are exactly the request's turns after the first. */
  lemma CallerTurnsPreserved(config: Config, messages: seq<Message>)
    ensures BuildChatRequest(config, messages).messages[1..] == messages
  {
  }

  /** A scenario changes the system turn of a call and nothing else. */
  lemma ScenarioOnlyChangesSystemTurn(config: Config, scenario: Option<string>, messages: seq<Message>)
    ensures var r1 := BuildChatRequest(config, messages);
            var r2 := BuildChatRequest(config.(scenario := scenario), messages);
            r1.(messages := r1.messages[1..]) == r2.(messages := r2.messages[1..])
  {
  }

  /** Sends the call's request through `create`, the provider, which either
      returns a stream or raises with a cause. A stream comes back as it is;
      a failure becomes a single error naming the cause. */
  function GetChatCompletionsStream<S>(
    client: Client, messages: seq<Message>, create: ChatRequest -> Result<S, string>): (r: Result<S, string>)
    ensures var sent := create(BuildChatRequest(client.config, messages));
            && (sent.Ok? <==> r.Ok?)
            && (sent.Ok? ==> r.value == sent.value)
            && (sent.Err? ==> DispatchCause(r.error) == Some(sent.error))
  {
    match create(BuildChatRequest(client.config, messages))
    case Ok(stream) => Ok(stream)
    case Err(cause) => Err(DispatchErrorPrefix + cause)
  }

  /** The cause a dispatch error message reports, if it is one. */
  function DispatchCause(message: string): Option<string> {
    var n := |DispatchErrorPrefix|;
    if |message| >= n && message[..n] == DispatchErrorPrefix then Some(message[n..]) else None
  }
}
