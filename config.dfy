/** config/config.go: the process configuration is read from the environment;
    PORT, DOCUMENTS_DIR and LIMIT have defaults, and an empty API_BASE_URL stops
    the process (log.Fatal), modelled as a failure. */
module Configuration {
  import opened Common
  import opened Strconv

  /** The process environment; os.Getenv gives "" for an unset variable. */
  type Env = map<string, string>

  function Getenv(env: Env, key: string): string {
    if key in env then env[key] else ""
  }

  datatype Config = Config(
    apiToken: string,
    apiBaseUrl: string,
    docsBaseUrl: string,
    openWebUiApiToken: string,
    knowledgeCollectionId: string,
    openWebUiApiUrl: string,
    documentsDir: string,
    limit: int,
    port: string,
    databaseUrl: string)

  const DefaultPort: string := "8080"
  const DefaultDocumentsDir: string := "./tmp-files"
  const DefaultLimit: int := 100

  function OrDefault(value: string, default: string): string {
    if value == "" then default else value
  }

  /** LIMIT: its integer value when strconv.Atoi accepts it (zero and negative
      values included), otherwise 100. Atoi rejects "", so an unset LIMIT takes
      the default too. */
  function LimitSetting(s: string): int {
    match Atoi(s)
    case Some(l) => l
    case None => DefaultLimit
  }

  /** The configuration LoadConfig leaves behind. */
  function ConfigFromEnv(env: Env): Result<Config> {
    if Getenv(env, "API_BASE_URL") == "" then Failure(MissingApiBaseUrl)
    else Success(Config(
      apiToken := Getenv(env, "API_TOKEN"),
      apiBaseUrl := Getenv(env, "API_BASE_URL"),
      docsBaseUrl := Getenv(env, "DOCS_BASE_URL"),
      openWebUiApiToken := Getenv(env, "OPENWEBUI_API_TOKEN"),
      knowledgeCollectionId := Getenv(env, "KNOWLEDGE_COLLECTION_ID"),
      openWebUiApiUrl := Getenv(env, "OPENWEBUI_API_URL"),
      documentsDir := OrDefault(Getenv(env, "DOCUMENTS_DIR"), DefaultDocumentsDir),
      limit := LimitSetting(Getenv(env, "LIMIT")),
      port := OrDefault(Getenv(env, "PORT"), DefaultPort),
      databaseUrl := Getenv(env, "DATABASE_URL")))
  }

  /** LoadConfig: build the record from the environment, then overwrite Port,
      DocumentsDir and Limit one after the other, then insist on API_BASE_URL. */
  method LoadConfig(env: Env) returns (r: Result<Config>)
    ensures r.Failure? <==> Getenv(env, "API_BASE_URL") == ""
    ensures r.Failure? ==> r.error == MissingApiBaseUrl
    ensures r.Success? ==>
      && r.value.port == (if Getenv(env, "PORT") == "" then "8080" else Getenv(env, "PORT"))
      && r.value.documentsDir ==
           (if Getenv(env, "DOCUMENTS_DIR") == "" then "./tmp-files" else Getenv(env, "DOCUMENTS_DIR"))
      && r.value.apiBaseUrl == Getenv(env, "API_BASE_URL")
      && r.value.databaseUrl == Getenv(env, "DATABASE_URL")
    ensures r == ConfigFromEnv(env)
  {
    var cfg := Config(
      apiToken := Getenv(env, "API_TOKEN"),
      apiBaseUrl := Getenv(env, "API_BASE_URL"),
      docsBaseUrl := Getenv(env, "DOCS_BASE_URL"),
      openWebUiApiToken := Getenv(env, "OPENWEBUI_API_TOKEN"),
      knowledgeCollectionId := Getenv(env, "KNOWLEDGE_COLLECTION_ID"),
      openWebUiApiUrl := Getenv(env, "OPENWEBUI_API_URL"),
      documentsDir := Getenv(env, "DOCUMENTS_DIR"),
      limit := 0,
      port := Getenv(env, "PORT"),
      databaseUrl := Getenv(env, "DATABASE_URL"));
    if cfg.port == "" {
      cfg := cfg.(port := DefaultPort);
    }
    if cfg.documentsDir == "" {
      cfg := cfg.(documentsDir := DefaultDocumentsDir);
    }
    var limitStr := Getenv(env, "LIMIT");
    if limitStr != "" {
      match Atoi(limitStr)
      case Some(l) => cfg := cfg.(limit := l);
      case None => cfg := cfg.(limit := DefaultLimit);
    } else {
      cfg := cfg.(limit := DefaultLimit);
    }
    if cfg.apiBaseUrl == "" {
      return Failure(MissingApiBaseUrl);
    }
    return Success(cfg);
  }

  /** LIMIT: any int64 written in decimal is taken as it is (0 and negatives
      too); unset or malformed values give 100. */
  lemma LimitSettingValues(n: int, s: string)
    requires MinInt64 <= n <= MaxInt64
    requires Atoi(s) == None
    ensures LimitSetting(Itoa(n)) == n
    ensures LimitSetting(s) == 100
    ensures LimitSetting("") == 100
  {
    AtoiItoa(n);
  }

  /** A decimal LIMIT in the environment becomes Config.Limit unchanged. */
  lemma ConfigLimitFromEnv(env: Env, n: int)
    requires MinInt64 <= n <= MaxInt64
    requires Getenv(env, "API_BASE_URL") != "" && Getenv(env, "LIMIT") == Itoa(n)
    ensures ConfigFromEnv(env).Success? && ConfigFromEnv(env).value.limit == n
  {
    AtoiItoa(n);
  }
}
