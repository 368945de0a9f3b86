/** The two persona records (chatroom/src/agent/configuration.py). */
module Configuration {

  /** Sampling temperature in tenths (0.7 is 7); it is only handed to the model. */
  type Temperature = nat

  /** `ChatbotConfig`: an immutable persona description. */
  datatype ChatbotConfig = ChatbotConfig(
    modelName: string,
    temperature: Temperature,
    systemPrompt: string,
    assistantName: string)

  const ModelAConfig := ChatbotConfig(
    "gpt-4o-mini",
    7,
    "You are a contrarian thinker who callenges assumptions and provides counterintuitive insights.",
    "Model A")

  const ModelBConfig := ChatbotConfig(
    "gpt-4o-mini",
    9,
    "You are an optimistic thinker who sees the glass as half full and provides positive and uplifting insights.",
    "Model B")

  /**
   * The personas are told apart by name, and neither is called "user", so a
   * persona's reply is never framed as the user's message.
   */
  lemma PersonaNamesDistinct()
    ensures ModelAConfig.assistantName == "Model A" && ModelBConfig.assistantName == "Model B"
    ensures ModelAConfig.assistantName != ModelBConfig.assistantName
    ensures ModelAConfig.assistantName != "user" && ModelBConfig.assistantName != "user"
  {
  }

  lemma PersonaSettings()
    ensures ModelAConfig.modelName == "gpt-4o-mini" && ModelBConfig.modelName == "gpt-4o-mini"
    ensures ModelAConfig.temperature == 7 && ModelBConfig.temperature == 9
    ensures ModelAConfig.systemPrompt != ModelBConfig.systemPrompt
  {
  }
}
