/** The `ENV` configuration record, read once from the process environment.
    Every field but `isProduction` takes the variable's value when it is set
    and a fixed default otherwise (`??` replaces only an unset variable, so a
    variable set to the empty string stays empty). */
module Env {

  datatype Config = Config(
    appId: string,
    cookieSecret: string,
    databaseUrl: string,
    oAuthServerUrl: string,
    ownerOpenId: string,
    isProduction: bool,
    forgeApiUrl: string,
    forgeApiKey: string,
    stripeSecretKey: string,
    stripeWebhookSecret: string,
    ownerName: string,
    adminPassword: string)

  const DefaultAppId := "axa-shop-app"
  const DefaultCookieSecret := "default-secret-key-change-me-in-production"
  const DefaultAdminPassword := "admin123"

  /** `process.env[key] ?? default`. */
  function VarOr(env: map<string, string>, key: string, default: string): (v: string)
    ensures key in env ==> v == env[key]
    ensures key !in env ==> v == default
  {
    if key in env then env[key] else default
  }

  /** `ENV`: the payment client is configured exactly when its secret key
      is set and not empty, and the admin password is the default unless
      its variable is set. */
  function FromEnvironment(env: map<string, string>): (cfg: Config)
    ensures StripeConfigured(cfg) <==> "STRIPE_SECRET_KEY" in env && env["STRIPE_SECRET_KEY"] != ""
    ensures "ADMIN_PASSWORD" !in env ==> cfg.adminPassword == DefaultAdminPassword
    ensures cfg.isProduction ==> "NODE_ENV" in env
  {
    Config(
      appId := VarOr(env, "VITE_APP_ID", DefaultAppId),
      cookieSecret := VarOr(env, "JWT_SECRET", DefaultCookieSecret),
      databaseUrl := VarOr(env, "DATABASE_URL", ""),
      oAuthServerUrl := VarOr(env, "OAUTH_SERVER_URL", ""),
      ownerOpenId := VarOr(env, "OWNER_OPEN_ID", ""),
      isProduction := "NODE_ENV" in env && env["NODE_ENV"] == "production",
      forgeApiUrl := VarOr(env, "BUILT_IN_FORGE_API_URL", ""),
      forgeApiKey := VarOr(env, "BUILT_IN_FORGE_API_KEY", ""),
      stripeSecretKey := VarOr(env, "STRIPE_SECRET_KEY", ""),
      stripeWebhookSecret := VarOr(env, "STRIPE_WEBHOOK_SECRET", ""),
      ownerName := VarOr(env, "OWNER_NAME", ""),
      adminPassword := VarOr(env, "ADMIN_PASSWORD", DefaultAdminPassword))
  }

  /** The lazily created payment-processor client exists exactly when a
      secret key is configured (`!stripe && ENV.stripeSecretKey`). */
  predicate StripeConfigured(cfg: Config) {
    cfg.stripeSecretKey != ""
  }

  /** With nothing set, every field takes its default: the payment client is
      not configured, both payment secrets are empty, the owner identity is
      empty and the admin password is "admin123". */
  lemma DefaultsWhenUnset()
    ensures var cfg := FromEnvironment(map[]);
      && cfg.appId == "axa-shop-app"
      && cfg.cookieSecret == "default-secret-key-change-me-in-production"
      && cfg.databaseUrl == "" && cfg.ownerOpenId == "" && !cfg.isProduction
      && cfg.stripeSecretKey == "" && cfg.stripeWebhookSecret == ""
      && !StripeConfigured(cfg)
      && cfg.adminPassword == "admin123"
  {
  }

  /** A variable set to the empty string is kept, not replaced by the default. */
  lemma EmptyStringIsKept(env: map<string, string>)
    requires "ADMIN_PASSWORD" in env && env["ADMIN_PASSWORD"] == ""
    requires "STRIPE_SECRET_KEY" in env && env["STRIPE_SECRET_KEY"] == ""
    ensures FromEnvironment(env).adminPassword == ""
    ensures !StripeConfigured(FromEnvironment(env))
  {
  }

  /** `isProduction` holds exactly when NODE_ENV is the string "production". */
  lemma IsProductionExactly(env: map<string, string>)
    ensures FromEnvironment(env).isProduction <==> ("NODE_ENV" in env && env["NODE_ENV"] == "production")
  {
  }

  /** Each field reads its own variable. */
  lemma FieldsReadTheirVariables(env: map<string, string>)
    ensures FromEnvironment(env).stripeSecretKey == VarOr(env, "STRIPE_SECRET_KEY", "")
    ensures FromEnvironment(env).stripeWebhookSecret == VarOr(env, "STRIPE_WEBHOOK_SECRET", "")
    ensures FromEnvironment(env).ownerOpenId == VarOr(env, "OWNER_OPEN_ID", "")
    ensures FromEnvironment(env).databaseUrl == VarOr(env, "DATABASE_URL", "")
  {
  }
}
