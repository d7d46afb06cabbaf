/** What the two scripts see of the world, made explicit: the values the
    secret store hands back, the process environment, the exceptions they
    raise, and a trace of the outward effects (network calls) of a run. */
module Runtime {
  import opened Wrappers

  /** A value read from the secret store, or a value placed in a JSON
      payload: either a plain string or a string-to-string mapping. */
  datatype Value = Raw(s: string) | Fields(m: map<string, string>)

  /** Python truthiness of a value: a non-empty string or a non-empty dict. */
  predicate Truthy(v: Value)
    ensures Truthy(v) <==> v != Raw("") && v != Fields(map[])
  {
    match v
    case Raw(s) => s != ""
    case Fields(m) => m != map[]
  }

  /** Python truthiness of an optional string (`os.getenv(...)`, `dict.get(...)`):
      set and non-empty. */
  predicate NonEmpty(o: Option<string>)
    ensures NonEmpty(o) <==> o != None && o != Some("")
  {
    o.Some? && o.value != ""
  }

  /** A JSON object as sent to the webhook. */
  type Payload = map<string, Value>

  /** The runtime the scripts execute in: whether the `hvac` client library
      could be imported, and the environment variables they read. */
  datatype Env = Env(
    hvacInstalled: bool,
    vaultAddr: Option<string>,    // VAULT_ADDR
    vaultToken: Option<string>,   // VAULT_TOKEN
    vaultBase: Option<string>,    // VAULT_BASE
    slackChannel: Option<string>  // SLACK_CHANNEL
  )

  /** The exceptions the scripts raise or let through. */
  datatype Error =
    | ImportError(message: string)       // the client library is missing
    | NotConfigured(message: string)     // VaultNotConfigured
    | LookupFailed(path: string)         // the store has no secret at the path
    | KeyError(key: string)              // the response envelope lacks a field
    | ValueError(message: string)        // a resolved value is unusable
    | Usage(message: string)             // too few command-line arguments

  /** An outward effect: a network call made by the run. */
  datatype Effect =
    | Authenticate(addr: string, token: string)  // the client's session check
    | Read(path: string)                         // a secret lookup
    | Post(url: string, payload: Payload)        // the webhook POST

  /** The effects a run performed, in order, and how it ended. */
  datatype Run<+T> = Run(trace: seq<Effect>, result: Result<T, Error>)

  predicate NoPosts(trace: seq<Effect>) {
    forall i | 0 <= i < |trace| :: !trace[i].Post?
  }

  predicate NoReads(trace: seq<Effect>) {
    forall i | 0 <= i < |trace| :: !trace[i].Read?
  }
}
