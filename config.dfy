/** The one configuration value that enters the session logic (src/config.ts). */
module Config {
  /** Model given to every newly created conversation. */
  const DefaultModel: string := "mistral"
}
