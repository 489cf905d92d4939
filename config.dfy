/**
 * The central configuration (app/config.py): settings read from the process environment,
 * given here as a map, with their defaults; the OpenAI key that loading cannot do without;
 * and `validate_config`, which names the missing API keys.
 */
module Config {
  import opened Wrappers
  import opened Text

  /** `os.getenv(key)`: the value, or `None` when the variable is not set. */
  function Lookup(env: map<string, string>, key: string): (v: Option<string>)
    ensures v.Some? <==> key in env
    ensures v.Some? ==> v.value == env[key]
  {
    if key in env then Some(env[key]) else None
  }

  /** `os.getenv(key, default)`: a variable that is set wins, even when it is empty. */
  function Getenv(env: map<string, string>, key: string, default: string): (v: string)
    ensures key in env ==> v == env[key]
    ensures key !in env ==> v == default
  {
    Lookup(env, key).GetOr(default)
  }

  /** Python's `a or b` on optional strings: `a` when it is truthy, `b` otherwise. */
  function Or(a: Option<string>, b: Option<string>): (r: Option<string>)
    ensures Truthy(a) ==> r == a
    ensures !Truthy(a) ==> r == b
  {
    if Truthy(a) then a else b
  }

  const DefaultModelName := "gpt-4o-mini"
  const DefaultCreatorName := "Diallo Mamadou Cherif"
  const DefaultDocsDir := "data"
  const DefaultPersistDir := "vectorstore"
  const DefaultBackend := "faiss"

  /** The message loading exits with when there is no OpenAI key. */
  const MissingOpenAiKey :=
    "ERREUR: OPENAI_API_KEY (ou openai_key) non définie dans le fichier .env. "
    + "Veuillez créer un compte sur platform.openai.com pour en obtenir une et le mettre dans le .env."

  /** The module's constants once loaded. */
  datatype Settings = Settings(
    openAiKey: string,
    modelName: string,
    creatorName: string,
    docsDir: string,
    persistDir: string,
    vsBackend: string,
    tavilyKey: Option<string>)

  /** Loading the module: the settings, or the `SystemExit` raised without an OpenAI key. */
  datatype Loaded = Ready(settings: Settings) | Exit(message: string)

  /** The OpenAI key: `OPENAI_API_KEY`, or `openai_key` when the first is unset or empty. */
  function OpenAiKey(env: map<string, string>): (key: Option<string>)
    ensures Truthy(key) <==> Truthy(Lookup(env, "OPENAI_API_KEY")) || Truthy(Lookup(env, "openai_key"))
    ensures Truthy(Lookup(env, "OPENAI_API_KEY")) ==> key == Some(env["OPENAI_API_KEY"])
    ensures !Truthy(Lookup(env, "OPENAI_API_KEY")) ==> key == Lookup(env, "openai_key")
  {
    Or(Lookup(env, "OPENAI_API_KEY"), Lookup(env, "openai_key"))
  }

  /** Loading app/config.py under the environment `env`. */
  function LoadConfig(env: map<string, string>): (r: Loaded)
    ensures r.Exit? <==> !Truthy(OpenAiKey(env))
    ensures r.Exit? ==> r.message == MissingOpenAiKey
    ensures r.Ready? ==>
              var s := r.settings;
              && Some(s.openAiKey) == OpenAiKey(env) && s.openAiKey != []
              && s.modelName == Getenv(env, "MODEL_NAME", DefaultModelName)
              && s.creatorName == Getenv(env, "CREATOR_NAME", DefaultCreatorName)
              && s.docsDir == Getenv(env, "DOCS_DIR", DefaultDocsDir)
              && s.persistDir == Getenv(env, "PERSIST_PATH", DefaultPersistDir)
              && s.vsBackend == Getenv(env, "VECTORSTORE_BACKEND", DefaultBackend)
              && s.tavilyKey == Lookup(env, "TAVILY_API_KEY")
  {
    var key := OpenAiKey(env);
    if !Truthy(key) then Exit(MissingOpenAiKey)
    else
      Ready(Settings(
        key.value,
        Getenv(env, "MODEL_NAME", DefaultModelName),
        Getenv(env, "CREATOR_NAME", DefaultCreatorName),
        Getenv(env, "DOCS_DIR", DefaultDocsDir),
        Getenv(env, "PERSIST_PATH", DefaultPersistDir),
        Getenv(env, "VECTORSTORE_BACKEND", DefaultBackend),
        Lookup(env, "TAVILY_API_KEY")))
  }

  /** An empty `OPENAI_API_KEY` counts as absent: the key then comes from `openai_key`. */
  lemma EmptyKeyFallsBack(env: map<string, string>)
    requires "OPENAI_API_KEY" in env && env["OPENAI_API_KEY"] == []
    requires "openai_key" in env && env["openai_key"] != []
    ensures LoadConfig(env).Ready? && LoadConfig(env).settings.openAiKey == env["openai_key"]
  {
  }

  /** With only an OpenAI key set, every other setting takes its default and there is no Tavily key. */
  lemma LoadDefaults(env: map<string, string>)
    requires env.Keys == {"OPENAI_API_KEY"} && env["OPENAI_API_KEY"] != []
    ensures LoadConfig(env) == Ready(Settings(env["OPENAI_API_KEY"], DefaultModelName, DefaultCreatorName,
                                              DefaultDocsDir, DefaultPersistDir, DefaultBackend, None))
  {
  }

  /** The keys `validate_config` reports, in the order it checks them. */
  function MissingKeys(openAiKey: Option<string>, tavilyKey: Option<string>): (ks: seq<string>)
    ensures |ks| <= 2
    ensures "OPENAI_API_KEY" in ks <==> !Truthy(openAiKey)
    ensures "TAVILY_API_KEY" in ks <==> !Truthy(tavilyKey)
    ensures forall i :: 0 <= i < |ks| ==> ks[i] in {"OPENAI_API_KEY", "TAVILY_API_KEY"}
    ensures |ks| == 2 ==> ks == ["OPENAI_API_KEY", "TAVILY_API_KEY"]
  {
    (if Truthy(openAiKey) then [] else ["OPENAI_API_KEY"])
    + (if Truthy(tavilyKey) then [] else ["TAVILY_API_KEY"])
  }

  /** The text of the `SystemExit` raised by `validate_config`. */
  function MissingKeysMessage(missing: seq<string>): string {
    "ERREUR: clés manquantes: " + Join(missing, ", ")
  }

  /**
   * `validate_config`: `None` when it returns normally, otherwise the message of the
   * `SystemExit` it raises, naming the missing keys.
   */
  method ValidateConfig(openAiKey: Option<string>, tavilyKey: Option<string>) returns (exit: Option<string>)
    ensures exit.None? <==> Truthy(openAiKey) && Truthy(tavilyKey)
    ensures exit.Some? ==> exit.value == MissingKeysMessage(MissingKeys(openAiKey, tavilyKey))
  {
    var missing: seq<string> := [];
    if !Truthy(openAiKey) {
      missing := missing + ["OPENAI_API_KEY"];
    }
    if !Truthy(tavilyKey) {
      missing := missing + ["TAVILY_API_KEY"];
    }
    if missing != [] {
      return Some(MissingKeysMessage(missing));
    }
    return None;
  }

  /**
   * Once the module has loaded, the OpenAI key is present, so `validate_config` can only
   * ever report the Tavily key.
   */
  lemma LoadedMissesOnlyTavily(env: map<string, string>)
    requires LoadConfig(env).Ready?
    ensures var s := LoadConfig(env).settings;
      MissingKeys(Some(s.openAiKey), s.tavilyKey) == (if Truthy(s.tavilyKey) then [] else ["TAVILY_API_KEY"])
  {
  }
}
