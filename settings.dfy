/** Where the scripts take their credentials from. */
module Settings {
  import opened Common

  /** What reading the JSON config file at the configured path gave. */
  datatype ConfigFile =
    | Missing                                // no file at the path
    | Parsed(entries: map<string, string>)   // a JSON object
    | NotJson                                // json.JSONDecodeError
    | Unreadable(detail: string)             // any other exception while reading

  datatype Credentials = Credentials(email: string, apiKey: string)

  /** `config.get(key)` */
  function Lookup(config: map<string, string>, key: string): Option<string> {
    if key in config then Some(config[key]) else None
  }

  /** The account email comes from the command line, else from the config;
      the API key from the `CF_API_KEY` environment variable, else from the
      config. A value counts only when it is a non-empty string, and the run
      cannot start unless both are found. */
  function ResolveCredentials(cliEmail: Option<string>, envKey: Option<string>, config: map<string, string>)
    : (r: Option<Credentials>)
    ensures r.Some? <==> (Truthy(cliEmail) || Truthy(Lookup(config, "email")))
                         && (Truthy(envKey) || Truthy(Lookup(config, "api_key")))
    ensures r.Some? && Truthy(cliEmail) ==> r.value.email == cliEmail.value
    ensures r.Some? && !Truthy(cliEmail) ==> r.value.email == config["email"]
    ensures r.Some? && Truthy(envKey) ==> r.value.apiKey == envKey.value
    ensures r.Some? && !Truthy(envKey) ==> r.value.apiKey == config["api_key"]
    ensures r.Some? ==> r.value.email != "" && r.value.apiKey != ""
  {
    var email := Or(cliEmail, Lookup(config, "email"));
    var apiKey := Or(envKey, Lookup(config, "api_key"));
    if Truthy(email) && Truthy(apiKey) then Some(Credentials(email.value, apiKey.value)) else None
  }
}
