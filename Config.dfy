/**
 * The process-wide settings the relay reads from its environment at startup, and
 * the provider client handles built from them.
 */
module Config {
  import opened Outcomes
  import opened JsValues

  /** The environment variables the relay reads; `None` is an unset variable. */
  datatype Env = Env(
    allowedOrigins: Option<string>,
    openAiApiKey: Option<string>,
    openAiModel: Option<string>,
    twilioAccountSid: Option<string>,
    twilioAuthToken: Option<string>,
    twilioWhatsAppFrom: Option<string>,
    twilioWhatsAppTo: Option<string>)

  const DEFAULT_ALLOWED_ORIGINS := ""
  const DEFAULT_OPENAI_MODEL := "gpt-4o-mini"

  /** A set variable: one that is truthy, so present and non-empty. */
  predicate IsSet(setting: Option<string>)
    ensures IsSet(setting) <==> Truthy(FromOption(setting))
  {
    setting.Some? && setting.value != []
  }

  /** A destructuring default: it replaces an unset variable only, not an empty one. */
  function OrDefault(setting: Option<string>, default: string): (value: string)
    ensures setting.None? ==> value == default
    ensures setting.Some? ==> value == setting.value
    ensures setting == Some("") ==> value == ""
  {
    if setting.Some? then setting.value else default
  }

  /** All four messaging settings are present and non-empty. */
  predicate TwilioConfigured(env: Env)
    ensures TwilioConfigured(env) ==> IsSet(env.twilioWhatsAppFrom) && IsSet(env.twilioWhatsAppTo)
    ensures !IsSet(env.twilioAccountSid) || !IsSet(env.twilioAuthToken) ==> !TwilioConfigured(env)
    ensures !IsSet(env.twilioWhatsAppFrom) || !IsSet(env.twilioWhatsAppTo) ==> !TwilioConfigured(env)
  {
    IsSet(env.twilioAccountSid) && IsSet(env.twilioAuthToken)
    && IsSet(env.twilioWhatsAppFrom) && IsSet(env.twilioWhatsAppTo)
  }

  /** The completion provider's client, built from its API key. */
  datatype AiClient = AiClient(apiKey: string)

  /** The messaging provider's client, built from the account credentials. */
  datatype TwilioClient = TwilioClient(accountSid: string, authToken: string)
}
