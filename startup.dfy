/** The mapping from the action's options to the options of one bot
    (src/main.ts, `deriveBotOptions`): the light bot gets the summary token
    budget, the heavy bot the review budget. */
module Startup {
  import opened Wrappers
  import Settings
  import Bots

  /** What the bot is for. */
  datatype Mode = Summary | Review

  /** The bot options for `mode`, or the error thrown for a provider name
      other than "azure" and "openai". Both shapes copy the shared settings
      and take the token budget of the mode; the OpenAI shape takes its API
      key from the Azure key setting. */
  function DeriveBotOptions(options: Settings.Options, mode: Mode): (r: Result<Bots.BotOptions, string>)
    ensures r.Success? <==> options.modelProvider in {"azure", "openai"}
    ensures r.Failure? ==> r.error == "Unknown model provider: " + options.modelProvider
    ensures r.Success? ==>
              && r.value.modelProvider == options.modelProvider
              && r.value.debug == options.debug
              && r.value.language == options.language
              && r.value.systemMessage == options.systemMessage
              && r.value.timeoutMs == options.timeoutMS
              && r.value.retries == options.retries
              && r.value.responseTokens == (if mode == Summary then options.summaryTokens else options.reviewTokens)
    ensures options.modelProvider == "azure" ==>
              && r.value.AzureBotOptions?
              && r.value.azureOpenaiEndpoint == options.azureOpenaiEndpoint
              && r.value.azureOpenaiApiKey == options.azureOpenaiApiKey
              && r.value.azureOpenaiDeploymentName == options.azureOpenaiDeploymentName
    ensures options.modelProvider == "openai" ==>
              && r.value.OpenAIBotOptions?
              && r.value.openaiModel == options.openaiModel
              && r.value.openaiTemperature == options.openaiModelTemperature
              && r.value.openaiApiKey == options.azureOpenaiApiKey
              && r.value.openaiApiOrg.None?
  {
    var responseTokens := if mode == Summary then options.summaryTokens else options.reviewTokens;
    match options.modelProvider
    case "azure" =>
      Success(Bots.AzureBotOptions(
        "azure", options.azureOpenaiEndpoint, options.azureOpenaiApiKey, options.azureOpenaiDeploymentName,
        options.debug, options.language, options.systemMessage, options.timeoutMS, options.retries,
        responseTokens))
    case "openai" =>
      Success(Bots.OpenAIBotOptions(
        "openai", options.openaiModel, options.openaiModelTemperature, options.azureOpenaiApiKey, None,
        options.debug, options.language, options.systemMessage, options.timeoutMS, options.retries,
        responseTokens))
    case _ =>
      Failure("Unknown model provider: " + options.modelProvider)
  }

  /** Options that derive successfully always build a bot: the bot's
      constructor picks the client the provider name asks for and never
      reaches its error branch. */
  lemma DerivedOptionsBuildABot(options: Settings.Options, mode: Mode)
    requires DeriveBotOptions(options, mode).Success?
    ensures var botOptions := DeriveBotOptions(options, mode).value;
            && Bots.NamesItsShape(botOptions)
            && Bots.SelectProvider(botOptions).Success?
            && (Bots.SelectProvider(botOptions).value == Bots.AzureProvider <==> options.modelProvider == "azure")
  {
  }

  /** The light and the heavy bot differ only in their token budget. */
  lemma ModesDifferOnlyInBudget(options: Settings.Options)
    requires DeriveBotOptions(options, Summary).Success?
    ensures var light := DeriveBotOptions(options, Summary).value;
            var heavy := DeriveBotOptions(options, Review).value;
            && light.responseTokens == options.summaryTokens
            && heavy.responseTokens == options.reviewTokens
            && light.(responseTokens := options.reviewTokens) == heavy
  {
  }
}
