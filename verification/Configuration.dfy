/**
 * `Config::new` (src/main.rs:58-83): the API key and the appliance host, read
 * from the process environment. The environment is a map from variable names
 * to values; a value the platform cannot turn into text (the `into_string`
 * failure) is the `NotUnicode` marker.
 */
module Configuration {
  import opened Wrappers

  datatype Variable = ApiKey | Host

  function Name(v: Variable): string {
    match v
    case ApiKey => "UNIFI_API_KEY"
    case Host => "UNIFI_VIDEO_HOST"
  }

  datatype EnvValue = Text(s: string) | NotUnicode

  type Environment = map<string, EnvValue>

  datatype Config = Config(apiKey: string, host: string)

  datatype ConfigError = MissingVariable(variable: Variable) | EncodingError(variable: Variable)

  /** True when the environment holds a textual value for `v`. */
  predicate Present(env: Environment, v: Variable) {
    Name(v) in env && env[Name(v)].Text?
  }

  /** Reads one variable. */
  function Read(env: Environment, v: Variable): (r: Result<string, ConfigError>)
    ensures r.Success? <==> Present(env, v)
    ensures r.Success? ==> r.value == env[Name(v)].s
    ensures r == Failure(MissingVariable(v)) <==> Name(v) !in env
    ensures r == Failure(EncodingError(v)) <==> Name(v) in env && env[Name(v)].NotUnicode?
  {
    if Name(v) !in env then Failure(MissingVariable(v))
    else match env[Name(v)]
      case Text(s) => Success(s)
      case NotUnicode => Failure(EncodingError(v))
  }

  /**
   * `Config::new`: the key is read before the host, so when both are unusable
   * the error is about the key.
   */
  function New(env: Environment): (r: Result<Config, ConfigError>)
    ensures r.Success? <==> Present(env, ApiKey) && Present(env, Host)
    ensures r.Success? ==> r.value.apiKey == env[Name(ApiKey)].s && r.value.host == env[Name(Host)].s
    ensures !Present(env, ApiKey) ==> r.Failure? && r.error.variable == ApiKey
    ensures r.Failure? && r.error.MissingVariable? ==> Name(r.error.variable) !in env
    ensures r.Failure? && r.error.EncodingError? ==>
              Name(r.error.variable) in env && env[Name(r.error.variable)].NotUnicode?
  {
    var apiKey :- Read(env, ApiKey);
    var host :- Read(env, Host);
    Success(Config(apiKey, host))
  }

  // The diagnostics the source attaches to each failure.
  const ApiKeyEncodingText := "Could not convert api key env variable to string"
  const ApiKeyMissingText := "Could not get api key; try setting UNIFI_API_KEY env variable"
  const HostEncodingText := "Could not convert unifi video host env variable to string"
  const HostMissingText := "Could not get unifi video host; try setting UNIFI_VIDEO_HOST env variable"

  /** The message for each error; the missing-host text is the corrected one (see `NewAsWritten`). */
  function Message(e: ConfigError): string {
    match e
    case EncodingError(ApiKey) => ApiKeyEncodingText
    case MissingVariable(ApiKey) => ApiKeyMissingText
    case EncodingError(Host) => HostEncodingText
    case MissingVariable(Host) => HostMissingText
  }

  /** Different failures are reported with different messages. */
  lemma MessagesDistinct(e1: ConfigError, e2: ConfigError)
    requires e1 != e2
    ensures Message(e1) != Message(e2)
  {
  }

  /**
   * `Config::new` as written: the branch for a missing host returns the
   * API-key message (src/main.rs:78 repeats the text of src/main.rs:70).
   */
  function NewAsWritten(env: Environment): (r: Result<Config, string>)
    ensures r.Success? <==> New(env).Success?
    ensures r.Success? ==> r.value == New(env).value
  {
    var apiKey :-
      if Name(ApiKey) !in env then Failure(ApiKeyMissingText)
      else if env[Name(ApiKey)].NotUnicode? then Failure(ApiKeyEncodingText)
      else Success(env[Name(ApiKey)].s);
    var host :-
      if Name(Host) !in env then Failure(ApiKeyMissingText)
      else if env[Name(Host)].NotUnicode? then Failure(HostEncodingText)
      else Success(env[Name(Host)].s);
    Success(Config(apiKey, host))
  }

  /** Apart from the missing-host message, the code as written agrees with `New`. */
  lemma AsWrittenAgrees(env: Environment)
    requires New(env) != Failure(MissingVariable(Host))
    ensures NewAsWritten(env) == (if New(env).Success? then Success(New(env).value)
                                  else Failure(Message(New(env).error)))
  {
  }

  /**
   * With a usable key and no host, the code as written reports the key as
   * missing: the message is the one for an absent UNIFI_API_KEY.
   */
  lemma HostMissingMisreported()
    ensures var env := map[Name(ApiKey) := Text("abc")];
            && New(env) == Failure(MissingVariable(Host))
            && NewAsWritten(env) == Failure(Message(MissingVariable(ApiKey)))
            && NewAsWritten(env) != Failure(Message(New(env).error))
  {
    var env := map[Name(ApiKey) := Text("abc")];
    assert Name(Host) !in env;
    MessagesDistinct(MissingVariable(ApiKey), MissingVariable(Host));
  }

  /**
   * For every environment with a usable key and no host, the code as written
   * reports a missing API key, while `New` reports the missing host.
   */
  lemma HostMissingAlwaysMisreported(env: Environment)
    requires Present(env, ApiKey) && Name(Host) !in env
    ensures New(env) == Failure(MissingVariable(Host))
    ensures NewAsWritten(env) == Failure(ApiKeyMissingText)
    ensures NewAsWritten(env) == Failure(Message(MissingVariable(ApiKey)))
    ensures NewAsWritten(env) != Failure(Message(New(env).error))
  {
    MessagesDistinct(MissingVariable(ApiKey), MissingVariable(Host));
  }
}
