/** internal/config/config.go: the process configuration read from the environment. */
module Configuration {
  import opened External

  /** The process environment; a variable that is not in the map is unset. */
  type Environ = map<string, string>

  datatype Config = Config(
    databaseUrl: string,
    port: string,
    environment: string,        // "development" or "production"
    githubClientId: string,
    githubClientSecret: string,
    sessionSecret: string,
    loginRedirectUrl: string)

  const DefaultPort := "8080"
  const DefaultEnvironment := "production"
  const LoginRedirectUrl := "/admin"

  /** The variables Load reads. */
  const Variables := {"PORT", "ENV", "DATABASE_URL", "GITHUB_CLIENT_ID", "GITHUB_CLIENT_SECRET", "SESSION_SECRET"}

  /** os.Getenv: the empty string for an unset variable. */
  function Getenv(env: Environ, key: string): string {
    GetOrEmpty(env, key)
  }

  function Load(env: Environ): (cfg: Config)
    ensures Getenv(env, "PORT") == "" ==> cfg.port == DefaultPort
    ensures Getenv(env, "PORT") != "" ==> cfg.port == env["PORT"]
    ensures Getenv(env, "ENV") == "" ==> cfg.environment == DefaultEnvironment
    ensures Getenv(env, "ENV") != "" ==> cfg.environment == env["ENV"]
    ensures cfg.port != "" && cfg.environment != ""
    ensures cfg.databaseUrl == Getenv(env, "DATABASE_URL")
    ensures cfg.githubClientId == Getenv(env, "GITHUB_CLIENT_ID")
    ensures cfg.githubClientSecret == Getenv(env, "GITHUB_CLIENT_SECRET")
    ensures cfg.sessionSecret == Getenv(env, "SESSION_SECRET")
    ensures cfg.loginRedirectUrl == "/admin"
  {
    var port := if Getenv(env, "PORT") == "" then DefaultPort else Getenv(env, "PORT");
    var environment := if Getenv(env, "ENV") == "" then DefaultEnvironment else Getenv(env, "ENV");
    Config(
      databaseUrl := Getenv(env, "DATABASE_URL"),
      port := port,
      environment := environment,
      githubClientId := Getenv(env, "GITHUB_CLIENT_ID"),
      githubClientSecret := Getenv(env, "GITHUB_CLIENT_SECRET"),
      sessionSecret := Getenv(env, "SESSION_SECRET"),
      loginRedirectUrl := LoginRedirectUrl)
  }

  /** Load sees nothing of the environment but its six variables. */
  lemma LoadReadsOnlyItsVariables(e1: Environ, e2: Environ)
    requires forall k :: k in Variables ==> Getenv(e1, k) == Getenv(e2, k)
    ensures Load(e1) == Load(e2)
  {
  }

  /** A variable set to the empty string is the same as an unset one. */
  lemma EmptyIsUnset(env: Environ, key: string)
    ensures Load(env[key := ""]) == Load(env - {key})
  {
  }
}
