# Secret resolution and Slack notification, modelled in Dafny

This project models the two small scripts of the akari-value-metric utilities
that carry logic:

- **vault_client.py**, the secret resolver. `get_secret(rel)` builds the lookup
  path from the base path (VAULT_BASE, default `secret/data/akari-value`) and
  the relative path, with exactly one `/` between them. It opens an
  authenticated client through the `_client()` guard, reads the path once from
  the KV version 2 engine and returns the inner `data.data` of the response.
- **notify_slack.py**, the notifier. `post_message(text, channel)` fetches
  the webhook secret. The secret is either a plain string or a mapping with a
  `webhook_url` field. The notifier rejects a missing or empty URL before any
  POST, builds the payload `{"text": ..., "channel"?: ...}` and POSTs it once.
  The command-line entry point joins its arguments with single spaces. It takes
  the channel from a non-empty SLACK_CHANNEL, otherwise from the store.

Everything the scripts get from outside is an explicit input:

- `Runtime.Env` holds whether the `hvac` library is importable and the
  environment variables, each as an `Option<string>`.
- `Vault.Server` holds whether the token authenticates and the response
  envelope stored at each path.

Each operation returns a `Runtime.Run`. It holds the trace of network effects
(`Authenticate`, `Read`, `Post`) and either a value or the exception raised.
Ordering and absence properties are stated on the trace: no lookup before the
guard passes, no POST after a validation failure.

Modules: `Wrappers` (Option, Result), `Text` (rstrip/lstrip of one
character, join/split), `Runtime` (values, environment, errors, effects),
`Vault`, `Slack`.

Four points where the code behaves differently from what a reader might expect; the model follows the code:

- `post_message` declares its channel as an optional string, but the entry
  point passes whatever `get_secret("slack/channel")` returns to
  `post_message`. That is the store's inner data, normally a mapping, and
  `if channel:` then tests dict truthiness. The model therefore types the
  channel as a `Value`, a string or a mapping, and payload values likewise.
- VAULT_BASE set to the empty string is used as is. The default applies only
  when the variable is unset, so the path then starts with `/`
  (`Vault.EmptyBaseKeepsSeparator`).
- The module docstring calls `slack/channel` optional, but with
  SLACK_CHANNEL unset or empty the entry point always looks it up. If
  nothing is stored there the lookup failure ends the run before any POST
  (`Slack.CliChannelLookupFails`).
- Nothing checks that the relative path is non-empty. The model accepts any
  string.

## Model

| member | source | states |
|---|---|---|
| Text.TrimEnd | vault_client.py:52 | `rstrip('/')` returns a prefix of its input that does not end in `/`, and everything it dropped is `/` |
| Text.TrimStart | vault_client.py:52 | `lstrip('/')` returns a suffix of its input that does not start with `/`, and everything it dropped is `/` |
| Text.TrimEndUnique | vault_client.py:52 | those three properties determine the rstrip result uniquely |
| Text.TrimStartUnique | vault_client.py:52 | those three properties determine the lstrip result uniquely |
| Text.TrimEndIdempotent | vault_client.py:52 | stripping trailing separators twice equals stripping once |
| Text.TrimStartIdempotent | vault_client.py:52 | stripping leading separators twice equals stripping once |
| Text.TrimEndPadding | vault_client.py:52 | appending any run of separators to the base does not change its stripped form |
| Text.TrimStartPadding | vault_client.py:52 | prepending any run of separators to the relative path does not change its stripped form |
| Text.Join | notify_slack.py:51 | joining no pieces gives the empty string; otherwise the result is as long as the pieces plus one separator between each pair, starts with the first piece, and has a separator right after it when there are two or more |
| Text.JoinAppend | notify_slack.py:51 | joining one more piece appends exactly one separator and that piece, so with the one-piece case the joined message is determined for every argument list, spaces inside arguments included |
| Text.JoinSplit | notify_slack.py:51 | splitting on spaces and re-joining with single spaces gives back any string |
| Text.SplitJoin | notify_slack.py:51 | the joined message splits back into exactly the space-free arguments it was built from |
| Runtime.Truthy | notify_slack.py:34 | a secret or payload value is falsy exactly when it is the empty string or the empty mapping |
| Runtime.NonEmpty | vault_client.py:39 | an optional string is falsy exactly when it is unset or the empty string (used for `not addr`, `not token`, `not webhook_url` and `os.getenv("SLACK_CHANNEL") or ...`) |
| Vault.BaseOf | vault_client.py:50 | the base is VAULT_BASE whenever it is set, even to the empty string, and `secret/data/akari-value` when it is unset |
| Vault.FullPath | vault_client.py:51-52 | the lookup path is the base without its trailing `/` run, one `/`, then the relative path without its leading `/` run |
| Vault.JoinsAtDeterminesPath | vault_client.py:51-52 | any path meeting that join description is the computed full path, and the join positions are unique |
| Vault.SingleSeparator | vault_client.py:51-52 | at the join point there is exactly one `/`, with no `/` on either side |
| Vault.FullPathIgnoresExtraSeparators | vault_client.py:52 | extra trailing `/` on the base or extra leading `/` on the relative path leave the full path unchanged |
| Vault.FullPathOfStripped | vault_client.py:52 | joining already-stripped parts gives the same full path |
| Vault.FullPathPlain | vault_client.py:52 | with no `/` at either side of the join, the full path is `base + "/" + rel` |
| Vault.DefaultBasePath | vault_client.py:50-52 | under the default base, a relative path without a leading `/` is appended as `secret/data/akari-value/` + rel |
| Vault.DefaultBaseLookup | vault_client.py:50-55 | with VAULT_BASE unset and the guard passing, the lookup of a relative path without a leading `/` reads `secret/data/akari-value/` + rel |
| Vault.EmptyBaseKeepsSeparator | vault_client.py:50-52 | VAULT_BASE set to the empty string is not replaced by the default, so the path is `/` + the stripped relative path |
| Vault.Connect | vault_client.py:31-45 | checks run in order: missing library gives ImportError whatever the config; else unset or empty address or token gives VaultNotConfigured with no network call; else a failed session check gives VaultNotConfigured; else a session for that address and token |
| Vault.Unwrap | vault_client.py:56 | the result is defined exactly when both nested `data` fields are present; otherwise KeyError on `data` |
| Vault.UnwrapWrap | vault_client.py:55-56 | unwrapping returns exactly the secret wrapped in the envelope, and only such envelopes unwrap to it |
| Vault.GetSecret | vault_client.py:48-56 | a guard failure is returned unchanged after the guard's own effects; otherwise exactly one read of the full path follows, and the result is the unwrap of the envelope stored there (its inner data, or KeyError on `data`), or LookupFailed for that path when nothing is stored; a returned value is the inner data of the envelope at that path; no POST |
| Vault.LookupOnlyAfterGuard | vault_client.py:36-55 | a secret is read if and only if all guard checks pass; a missing library or missing credentials cause no network effect at all |
| Vault.Cli | vault_client.py:62-67 | fewer than two arguments is a usage error with no effects; otherwise the secret at the first argument is fetched |
| Slack.UrlOf | notify_slack.py:29 | a raw secret is its own URL; a mapping yields its `webhook_url` field, and nothing exactly when that key is absent |
| Slack.ResolveWebhook | notify_slack.py:28-31 | a raw secret is the URL itself; a mapping gives its `webhook_url` field; a missing or empty URL is the "Webhook URL not found in Vault" error; a resolved URL is never empty |
| Slack.BuildPayload | notify_slack.py:33-35 | the payload always maps `text` to the text, even an empty one; it has `channel`, mapped to the channel, exactly when the channel is given and truthy; it has no other key |
| Slack.PostMessage | notify_slack.py:26-43 | a lookup failure or validation failure ends the call with no POST; otherwise exactly one POST of the built payload to the resolved URL follows the lookup |
| Slack.PostOnlyOnSuccess | notify_slack.py:30-43 | the trace has no POST exactly when the call fails; on success the single POST is the last effect and its URL is non-empty |
| Slack.EffectiveChannel | notify_slack.py:53 | a non-empty SLACK_CHANNEL is the channel and the store is not read; otherwise the channel is what `get_secret("slack/channel")` yields, failure included |
| Slack.Cli | notify_slack.py:46-56 | fewer than two arguments is a usage error with no effects; otherwise the channel is resolved first, its failure ends the run with that error, and then the joined message is posted, whose failure ends the run with the error `post_message` raised; the reported message is the arguments after the program name joined by single spaces |
| Slack.CliWithChannelOverride | notify_slack.py:51-55 | with SLACK_CHANNEL set and non-empty, a successful run ends with a POST of exactly `{text: message, channel: SLACK_CHANNEL}`, and the message splits back into space-free arguments |
| Slack.CliChannelFromStore | notify_slack.py:53-55 | with SLACK_CHANNEL unset or empty, the store is read at `slack/channel` and a successful run POSTs the stored mapping itself as `channel` when it is non-empty, and no `channel` when it is empty |
| Slack.CliChannelLookupFails | notify_slack.py:53-55 | with SLACK_CHANNEL unset or empty, a failed lookup at `slack/channel` ends the run with that lookup's error and no POST |
| Slack.EndToEnd | notify_slack.py:26-43 | with the webhook stored as `{"webhook_url": "https://hooks.example/xyz"}` and no channel, the run is a session check, one lookup and one POST of `{"text": "hello"}` to that URL |

## Left out

- Slack.PostMessage: success means the POST was issued. The HTTP status and `raise_for_status` are not modelled, because the HTTP client is a foreign library whose status semantics are not visible here.
- Slack.Cli: for the same reason, a success of the entry point means the POST was issued, not that the endpoint accepted it.
- The POST's headers, its 10-second timeout and the JSON encoding of the payload are not modelled. These are transport details of the HTTP library. The `Post` effect records the URL and the payload as a map.
- `hvac.Client` construction, `is_authenticated()` and `read_secret_version` are foreign code. They become `Vault.Server`: a boolean for the session check and a map from path to response envelope. A path absent from the map is a propagated lookup failure.
- Vault.Unwrap: models responses whose `data` fields are present or absent. A `data` field of the wrong shape, which would raise TypeError in Python, is not representable. Envelope metadata and other response fields are not modelled.
- Secret mappings are string-to-string. Non-string field values, which the store can hold, are not modelled.
- Environment variables are read once into `Runtime.Env`. The scripts read them at each call, but nothing changes them between calls.
- `print`, `json.dumps` and the process exit status are output plumbing. Usage failures are the `Usage` error, and a successful entry point returns the value it would print.
- evaluate_value.py is not part of this model. Its scoring functions are declared placeholders that compute floats and promise nothing.
