/** Credential resolution: `get_credentials` in src/tools.py. */
module Credentials {
  import opened Common
  import opened Values

  /** The name of the credential, both as an override key and as an environment variable. */
  const KeyName := "DART_API_KEY"

  /** `arguments` is a dictionary whose `"env"` entry is a dictionary holding the key. */
  predicate HasOverride(arguments: Value) {
    && arguments.VDict?
    && "env" in arguments.entries
    && arguments.entries["env"].VDict?
    && KeyName in arguments.entries["env"].entries
  }

  /** The value `arguments["env"]["DART_API_KEY"]`, present when `HasOverride(arguments)`. */
  function Override(arguments: Value): Value
    requires HasOverride(arguments)
  {
    arguments.entries["env"].entries[KeyName]
  }

  /**
   * The API key a lookup uses, given its `arguments` and the process
   * environment. A truthy override wins; otherwise the environment variable;
   * otherwise `""`. `None` stands for the call raising: the masked log line
   * slices the chosen key, which fails for a truthy value that is not a string.
   */
  function GetCredentials(arguments: Value, environ: map<string, string>): (r: Option<string>)
    ensures HasOverride(arguments) && Override(arguments).VStr? && Override(arguments).s != ""
            ==> r == Some(Override(arguments).s)
    ensures HasOverride(arguments) && Truthy(Override(arguments)) && !Override(arguments).VStr?
            ==> r == None
    ensures !(HasOverride(arguments) && Truthy(Override(arguments)))
            ==> r == Some(if KeyName in environ then environ[KeyName] else "")
  {
    var chosen := if HasOverride(arguments) then Override(arguments) else VStr("");
    if Truthy(chosen) then
      if chosen.VStr? then Some(chosen.s) else None
    else
      Some(if KeyName in environ then environ[KeyName] else "")
  }

  /** The resolved key is empty exactly when no source supplies a non-empty one. */
  lemma EmptyKeyWhenNoSource(arguments: Value, environ: map<string, string>)
    ensures GetCredentials(arguments, environ) == Some("")
            <==> && !(HasOverride(arguments) && Truthy(Override(arguments)))
                 && (KeyName in environ ==> environ[KeyName] == "")
  {
  }
}
