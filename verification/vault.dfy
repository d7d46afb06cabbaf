/** The secret resolver of vault_client.py: the lookup path built from a base
    and a relative path, the guard that establishes an authenticated
    session, the single lookup, and the unwrap of the KV version 2 response
    envelope. The client library and the store are inputs. */
module Vault {
  import opened Wrappers
  import opened Text
  import opened Runtime

  /** The base path used when VAULT_BASE is unset. */
  const DefaultBase: string := "secret/data/akari-value"
  const Separator: char := '/'

  const NoClientLibrary: string := "hvac library not installed"
  const MissingCredentials: string := "VAULT_ADDR / VAULT_TOKEN missing"
  const AuthenticationFailed: string := "Vault authentication failed"
  /** The response field unwrapped twice. */
  const DataField: string := "data"

  /** A KV version 2 read response: its `data` field, when present, holds the
      versioned record (other response fields are not modelled). */
  datatype Envelope = Envelope(data: Option<Versioned>)
  /** The versioned record: its `data` field is the stored secret
      (the `metadata` field is not modelled). */
  datatype Versioned = Versioned(data: Option<Value>)

  /** The store as seen through the client: whether the session check
      succeeds for the configured token, and the response for each path. */
  datatype Server = Server(authenticates: bool, secrets: map<string, Envelope>)

  /** An authenticated client session. */
  datatype Session = Session(addr: string, token: string)

  /** The base path: VAULT_BASE when set (even to the empty string), the
      default otherwise. */
  function BaseOf(env: Env): (r: string)
    ensures env.vaultBase.None? ==> r == DefaultBase
    ensures env.vaultBase.Some? ==> r == env.vaultBase.value
  {
    env.vaultBase.GetOr(DefaultBase)
  }

  /** `path` is `base` and `rel` joined at base position `k` and rel position
      `j`: `base[k..]` and `rel[..j]` are all separators, the kept part of the
      base does not end in one, the kept part of `rel` does not start with
      one, and exactly one separator stands between them. */
  ghost predicate JoinsAt(base: string, rel: string, path: string, k: int, j: int) {
    && 0 <= k <= |base| && 0 <= j <= |rel|
    && path == base[..k] + [Separator] + rel[j..]
    && AllOf(base[k..], Separator) && (k == 0 || base[k - 1] != Separator)
    && AllOf(rel[..j], Separator) && (j == |rel| || rel[j] != Separator)
  }

  /** The full lookup path: `base.rstrip('/') + '/' + rel.lstrip('/')`. */
  function FullPath(base: string, rel: string): (r: string)
    ensures exists k, j :: JoinsAt(base, rel, r, k, j)
  {
    var b := TrimEnd(base, Separator);
    var t := TrimStart(rel, Separator);
    assert base[..|b|] == b;
    assert JoinsAt(base, rel, b + [Separator] + t, |b|, |rel| - |t|);
    b + [Separator] + t
  }

  /** The join positions are determined by the inputs, so JoinsAt is a
      reference definition of FullPath. */
  lemma JoinsAtDeterminesPath(base: string, rel: string, path: string, k: int, j: int)
    requires JoinsAt(base, rel, path, k, j)
    ensures path == FullPath(base, rel)
    ensures k == |TrimEnd(base, Separator)| && j == |rel| - |TrimStart(rel, Separator)|
  {
    TrimEndUnique(base, Separator, base[..k]);
    TrimStartUnique(rel, Separator, rel[j..]);
  }

  /** Exactly one separator at the join point: the character at the join is a
      separator, and neither neighbour is. */
  lemma SingleSeparator(base: string, rel: string)
    ensures var k := |TrimEnd(base, Separator)|;
            var r := FullPath(base, rel);
            && k < |r| && r[k] == Separator
            && (k == 0 || r[k - 1] != Separator)
            && (k + 1 == |r| || r[k + 1] != Separator)
  {
  }

  /** Extra trailing separators on the base and extra leading separators on
      the relative path do not change the full path. */
  lemma FullPathIgnoresExtraSeparators(base: string, tail: string, head: string, rel: string)
    requires AllOf(tail, Separator) && AllOf(head, Separator)
    ensures FullPath(base + tail, head + rel) == FullPath(base, rel)
  {
    TrimEndPadding(base, tail, Separator);
    TrimStartPadding(head, rel, Separator);
  }

  /** Joining already-stripped parts gives the same path: stripping is idempotent. */
  lemma FullPathOfStripped(base: string, rel: string)
    ensures FullPath(TrimEnd(base, Separator), TrimStart(rel, Separator)) == FullPath(base, rel)
  {
    TrimEndIdempotent(base, Separator);
    TrimStartIdempotent(rel, Separator);
  }

  /** Parts without separators at the join are joined with exactly one. */
  lemma FullPathPlain(base: string, rel: string)
    requires base == [] || base[|base| - 1] != Separator
    requires rel == [] || rel[0] != Separator
    ensures FullPath(base, rel) == base + [Separator] + rel
  {
  }

  /** `_client()`: the checks run in a fixed order. A missing library wins
      over everything; then an unset or empty address or token; only then is
      the server asked whether the token authenticates. */
  function Connect(env: Env, server: Server): (r: Run<Session>)
    ensures !env.hvacInstalled ==> r == Run([], Failure(ImportError(NoClientLibrary)))
    ensures env.hvacInstalled && !(NonEmpty(env.vaultAddr) && NonEmpty(env.vaultToken)) ==>
              r == Run([], Failure(NotConfigured(MissingCredentials)))
    ensures env.hvacInstalled && NonEmpty(env.vaultAddr) && NonEmpty(env.vaultToken) ==>
              && r.trace == [Authenticate(env.vaultAddr.value, env.vaultToken.value)]
              && (r.result.Success? <==> server.authenticates)
              && (r.result.Failure? ==> r.result.error == NotConfigured(AuthenticationFailed))
    ensures r.result.Success? ==> r.result.value == Session(env.vaultAddr.value, env.vaultToken.value)
  {
    if !env.hvacInstalled then
      Run([], Failure(ImportError(NoClientLibrary)))
    else if !NonEmpty(env.vaultAddr) || !NonEmpty(env.vaultToken) then
      Run([], Failure(NotConfigured(MissingCredentials)))
    else
      var session := Session(env.vaultAddr.value, env.vaultToken.value);
      var trace := [Authenticate(session.addr, session.token)];
      if !server.authenticates then Run(trace, Failure(NotConfigured(AuthenticationFailed)))
      else Run(trace, Success(session))
  }

  /** `response["data"]["data"]`: a missing field raises KeyError. */
  function Unwrap(response: Envelope): (r: Result<Value, Error>)
    ensures r.Success? <==> response.data.Some? && response.data.value.data.Some?
    ensures r.Failure? ==> r.error == KeyError(DataField)
  {
    match response.data
    case None => Failure(KeyError(DataField))
    case Some(record) =>
      match record.data
      case None => Failure(KeyError(DataField))
      case Some(v) => Success(v)
  }

  /** The envelope the store wraps around a stored secret. */
  function Wrap(v: Value): Envelope {
    Envelope(Some(Versioned(Some(v))))
  }

  /** Unwrapping returns exactly the secret the store wrapped, and any
      successfully unwrapped envelope is such a wrapping. */
  lemma UnwrapWrap(v: Value, response: Envelope)
    ensures Unwrap(Wrap(v)) == Success(v)
    ensures Unwrap(response) == Success(v) <==> response == Wrap(v)
  {
  }

  /** `get_secret(rel)`: guard, then exactly one lookup of the full path,
      then the unwrap. A lookup failure propagates unchanged. */
  function GetSecret(env: Env, server: Server, rel: string): (r: Run<Value>)
    ensures var c := Connect(env, server);
            && (c.result.Failure? ==> r.trace == c.trace && r.result == Failure(c.result.error))
            && (c.result.Success? ==> r.trace == c.trace + [Read(FullPath(BaseOf(env), rel))])
    ensures NoPosts(r.trace)
    ensures var path := FullPath(BaseOf(env), rel);
            && (Connect(env, server).result.Success? && path in server.secrets ==>
                  r.result == Unwrap(server.secrets[path]))
            && (Connect(env, server).result.Success? && path !in server.secrets ==>
                  r.result == Failure(LookupFailed(path)))
    ensures r.result.Success? ==>
              var path := FullPath(BaseOf(env), rel);
              path in server.secrets && server.secrets[path] == Wrap(r.result.value)
  {
    var path := FullPath(BaseOf(env), rel);
    var c := Connect(env, server);
    if c.result.Failure? then
      Run(c.trace, Failure(c.result.error))
    else
      var trace := c.trace + [Read(path)];
      if path !in server.secrets then Run(trace, Failure(LookupFailed(path)))
      else
        Run(trace, Unwrap(server.secrets[path]))
  }

  /** No secret is looked up unless every guard check passes; a missing
      library or missing credentials cause no network call at all. */
  lemma LookupOnlyAfterGuard(env: Env, server: Server, rel: string)
    ensures !NoReads(GetSecret(env, server, rel).trace) <==> Connect(env, server).result.Success?
    ensures !(env.hvacInstalled && NonEmpty(env.vaultAddr) && NonEmpty(env.vaultToken)) ==>
              GetSecret(env, server, rel).trace == []
  {
    var c := Connect(env, server);
    var r := GetSecret(env, server, rel);
    if c.result.Success? {
      assert r.trace[|r.trace| - 1].Read?;
    }
  }

  /** Under the default base, a relative path without a leading separator
      is appended after a single separator. */
  lemma DefaultBasePath(rel: string)
    requires rel == [] || rel[0] != Separator
    ensures FullPath(DefaultBase, rel) == "secret/data/akari-value/" + rel
  {
    assert "secret/data/akari-value/" == DefaultBase + [Separator];
    FullPathPlain(DefaultBase, rel);
  }

  /** With VAULT_BASE unset, the lookup goes to the default base. */
  lemma DefaultBaseLookup(env: Env, server: Server, rel: string)
    requires env.vaultBase.None?
    requires rel == [] || rel[0] != Separator
    requires Connect(env, server).result.Success?
    ensures Read("secret/data/akari-value/" + rel) in GetSecret(env, server, rel).trace
  {
    DefaultBasePath(rel);
    var r := GetSecret(env, server, rel);
    assert r.trace[|r.trace| - 1] == Read(FullPath(BaseOf(env), rel));
  }

  /** VAULT_BASE set to the empty string is used as is, and the path then
      starts with the separator. */
  lemma EmptyBaseKeepsSeparator(env: Env, rel: string)
    requires env.vaultBase == Some("")
    ensures FullPath(BaseOf(env), rel) == [Separator] + TrimStart(rel, Separator)
  {
  }

  /** The command-line entry point: the first argument is the relative path;
      with none, a usage error and no effects. Further arguments are ignored. */
  function Cli(argv: seq<string>, env: Env, server: Server): (r: Run<Value>)
    ensures |argv| < 2 <==> r.result.Failure? && r.result.error.Usage?
    ensures |argv| < 2 ==> r.trace == []
    ensures |argv| >= 2 ==> r == GetSecret(env, server, argv[1])
  {
    if |argv| < 2 then Run([], Failure(Usage("Usage: python vault_client.py <relative_path>")))
    else GetSecret(env, server, argv[1])
  }
}
