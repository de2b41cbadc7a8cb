/**
 * The AI service base class: the message record every service emits and the
 * settings its constructor reads from a configuration object with defaults.
 */
module BaseService {
  import opened Wrappers

  /** A transcript entry, `{"role": ..., "content": ...}`; the backend and both frontends share it. */
  datatype Message = Message(role: string, content: string)

  /** `format_message(role, content)`: a record carrying exactly the two given fields. */
  function FormatMessage(role: string, content: string): (m: Message)
    ensures m.role == role && m.content == content
  {
    Message(role, content)
  }

  /** Any two records built by `FormatMessage` from the same fields are equal: a record has no other field. */
  lemma FormatMessageFieldsOnly(m: Message)
    ensures FormatMessage(m.role, m.content) == m
  {
  }

  /**
   * The configuration handed to the constructor. A Python `dict` has no attribute
   * named `model`, `temperature`, `max_tokens` or `system_prompt`, so `getattr`
   * never sees its keys; an object exposes the attributes it has.
   */
  datatype Config =
    | DictConfig(keys: map<string, string>)
    | ObjectConfig(model: Option<string>, temperature: Option<real>,
                   maxTokens: Option<int>, systemPrompt: Option<string>)

  /** The fields `BaseAIService.__init__` sets. Temperatures are opaque numbers. */
  datatype Settings = Settings(model: string, temperature: real, maxTokens: int, systemPrompt: string)

  const DefaultModel: string := ""
  const DefaultTemperature: real := 0.7
  const DefaultMaxTokens: int := 500
  const DefaultSystemPrompt: string := ""

  /** `getattr(config, name, default)` for one attribute. */
  function GetAttr<T>(attribute: Option<T>, default: T): T {
    if attribute.Some? then attribute.value else default
  }

  /** `BaseAIService.__init__`: each field is the attribute when present, else its default. */
  function InitSettings(config: Config): (s: Settings)
    ensures config.DictConfig? ==>
      s == Settings(DefaultModel, DefaultTemperature, DefaultMaxTokens, DefaultSystemPrompt)
    ensures config.ObjectConfig? ==>
      && (config.model.None? ==> s.model == DefaultModel)
      && (config.temperature.None? ==> s.temperature == DefaultTemperature)
      && (config.maxTokens.None? ==> s.maxTokens == DefaultMaxTokens)
      && (config.systemPrompt.None? ==> s.systemPrompt == DefaultSystemPrompt)
      && (config.model.Some? ==> s.model == config.model.value)
      && (config.temperature.Some? ==> s.temperature == config.temperature.value)
      && (config.maxTokens.Some? ==> s.maxTokens == config.maxTokens.value)
      && (config.systemPrompt.Some? ==> s.systemPrompt == config.systemPrompt.value)
  {
    match config
    case DictConfig(_) =>
      Settings(DefaultModel, DefaultTemperature, DefaultMaxTokens, DefaultSystemPrompt)
    case ObjectConfig(model, temperature, maxTokens, systemPrompt) =>
      Settings(GetAttr(model, DefaultModel), GetAttr(temperature, DefaultTemperature),
               GetAttr(maxTokens, DefaultMaxTokens), GetAttr(systemPrompt, DefaultSystemPrompt))
  }

  /** A dictionary configuration, whatever its keys, yields the same settings as an object with no attributes. */
  lemma DictConfigIgnoresKeys(keys: map<string, string>)
    ensures InitSettings(DictConfig(keys)) == InitSettings(ObjectConfig(None, None, None, None))
  {
  }
}
