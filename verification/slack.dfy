/** The notifier of notify_slack.py: resolve the incoming-webhook URL from the
    secret store, build the JSON payload, POST it; and the command-line entry
    point that joins the message words and picks the channel. */
module Slack {
  import opened Wrappers
  import opened Text
  import opened Runtime
  import Vault

  /** Store paths, relative to the base. */
  const WebhookKey: string := "slack/webhook_url"
  const ChannelKey: string := "slack/channel"
  /** The field holding the URL when the webhook secret is a mapping. */
  const UrlField: string := "webhook_url"
  /** Payload fields. */
  const TextField: string := "text"
  const ChannelField: string := "channel"
  const WebhookNotFound: string := "Webhook URL not found in Vault"
  const UsageMessage: string := "Usage: python notify_slack.py \"メッセージ\""
  /** The message words are joined with this character. */
  const Space: char := ' '

  /** The URL a secret names: the string itself, or the mapping's
      `webhook_url` field (absent when the key is missing). */
  function UrlOf(secret: Value): (r: Option<string>)
    ensures secret.Raw? ==> r == Some(secret.s)
    ensures secret.Fields? ==> (r.Some? <==> UrlField in secret.m)
    ensures secret.Fields? && r.Some? ==> r.value == secret.m[UrlField]
  {
    match secret
    case Raw(s) => Some(s)
    case Fields(m) => if UrlField in m then Some(m[UrlField]) else None
  }

  /** Webhook URL resolution: a missing or empty URL is a validation error. */
  function ResolveWebhook(secret: Value): (r: Result<string, Error>)
    ensures r.Success? ==> r.value != ""
    ensures secret.Raw? ==> (r.Success? <==> secret.s != "") && (r.Success? ==> r.value == secret.s)
    ensures secret.Fields? ==>
              && (r.Success? <==> UrlField in secret.m && secret.m[UrlField] != "")
              && (r.Success? ==> r.value == secret.m[UrlField])
    ensures r.Failure? ==> r.error == ValueError(WebhookNotFound)
  {
    var url := UrlOf(secret);
    if !NonEmpty(url) then Failure(ValueError(WebhookNotFound)) else Success(url.value)
  }

  /** The payload: always `text`; `channel` exactly when the channel given is
      truthy; nothing else. */
  function BuildPayload(text: string, channel: Option<Value>): (r: Payload)
    ensures TextField in r && r[TextField] == Raw(text)
    ensures ChannelField in r <==> channel.Some? && Truthy(channel.value)
    ensures ChannelField in r ==> r[ChannelField] == channel.value
    ensures r.Keys <= {TextField, ChannelField}
  {
    var payload := map[TextField := Raw(text)];
    if channel.Some? && Truthy(channel.value) then payload[ChannelField := channel.value]
    else payload
  }

  /** `post_message(text, channel)`: fetch the webhook secret, resolve the
      URL, and POST the payload once. Any failure happens before the POST. */
  function PostMessage(env: Env, server: Vault.Server, text: string, channel: Option<Value>): (r: Run<()>)
    ensures var s := Vault.GetSecret(env, server, WebhookKey);
            && (s.result.Failure? ==> r == Run(s.trace, Failure(s.result.error)))
            && (s.result.Success? && ResolveWebhook(s.result.value).Failure? ==>
                  r == Run(s.trace, Failure(ValueError(WebhookNotFound))))
            && (r.result.Success? <==> s.result.Success? && ResolveWebhook(s.result.value).Success?)
            && (r.result.Success? ==>
                  r.trace == s.trace + [Post(ResolveWebhook(s.result.value).value, BuildPayload(text, channel))])
    ensures r.result.Failure? ==> NoPosts(r.trace)
  {
    var s := Vault.GetSecret(env, server, WebhookKey);
    if s.result.Failure? then Run(s.trace, Failure(s.result.error))
    else
      match ResolveWebhook(s.result.value)
      case Failure(e) => Run(s.trace, Failure(e))
      case Success(url) => Run(s.trace + [Post(url, BuildPayload(text, channel))], Success(()))
  }

  /** A successful post issues exactly one POST, as the last effect, with a
      non-empty URL; a failed one issues none. */
  lemma PostOnlyOnSuccess(env: Env, server: Vault.Server, text: string, channel: Option<Value>)
    ensures var r := PostMessage(env, server, text, channel);
            && (NoPosts(r.trace) <==> r.result.Failure?)
            && (r.result.Success? ==>
                  && NoPosts(r.trace[..|r.trace| - 1])
                  && r.trace[|r.trace| - 1].Post?
                  && r.trace[|r.trace| - 1].url != "")
  {
    var r := PostMessage(env, server, text, channel);
    if r.result.Success? {
      assert r.trace[|r.trace| - 1].Post?;
    }
  }

  /** The channel used by the entry point: a non-empty SLACK_CHANNEL, without
      touching the store; otherwise whatever the store holds at
      `slack/channel` (a lookup failure propagates). */
  function EffectiveChannel(env: Env, server: Vault.Server): (r: Run<Value>)
    ensures NonEmpty(env.slackChannel) ==> r == Run([], Success(Raw(env.slackChannel.value)))
    ensures !NonEmpty(env.slackChannel) ==> r == Vault.GetSecret(env, server, ChannelKey)
  {
    if NonEmpty(env.slackChannel) then Run([], Success(Raw(env.slackChannel.value)))
    else Vault.GetSecret(env, server, ChannelKey)
  }

  /** The command-line entry point: with fewer than two arguments a usage
      error and no effects; otherwise the message is the arguments after the
      program name joined by single spaces, the channel is resolved first,
      then the message is posted. The result is the message reported as sent. */
  function Cli(argv: seq<string>, env: Env, server: Vault.Server): (r: Run<string>)
    ensures |argv| < 2 <==> r.result.Failure? && r.result.error.Usage?
    ensures |argv| < 2 ==> r.trace == []
    ensures |argv| >= 2 ==>
              var message := Join(argv[1..], Space);
              var ch := EffectiveChannel(env, server);
              && (ch.result.Failure? ==> r == Run(ch.trace, Failure(ch.result.error)))
              && (ch.result.Success? ==>
                    var p := PostMessage(env, server, message, Some(ch.result.value));
                    && r.trace == ch.trace + p.trace
                    && (r.result.Success? <==> p.result.Success?)
                    && (p.result.Failure? ==> r.result == Failure(p.result.error)))
    ensures r.result.Success? ==> r.result.value == Join(argv[1..], Space)
  {
    if |argv| < 2 then Run([], Failure(Usage(UsageMessage)))
    else
      var message := Join(argv[1..], Space);
      var ch := EffectiveChannel(env, server);
      if ch.result.Failure? then Run(ch.trace, Failure(ch.result.error))
      else
        var p := PostMessage(env, server, message, Some(ch.result.value));
        Run(ch.trace + p.trace, if p.result.Success? then Success(message) else Failure(p.result.error))
  }

  /** When SLACK_CHANNEL is set and non-empty, a successful run posts exactly
      the joined message to that channel, and splitting the reported message
      on spaces gives back the arguments when none of them contains a space. */
  lemma CliWithChannelOverride(argv: seq<string>, env: Env, server: Vault.Server)
    requires NonEmpty(env.slackChannel)
    requires Cli(argv, env, server).result.Success?
    ensures var r := Cli(argv, env, server);
            && r.trace[|r.trace| - 1].Post?
            && r.trace[|r.trace| - 1].payload ==
                 map[TextField := Raw(r.result.value), ChannelField := Raw(env.slackChannel.value)]
    ensures (forall i | 1 <= i < |argv| :: Space !in argv[i]) ==>
              Split(Cli(argv, env, server).result.value, Space) == argv[1..]
  {
    var r := Cli(argv, env, server);
    var message := Join(argv[1..], Space);
    var p := PostMessage(env, server, message, Some(Raw(env.slackChannel.value)));
    assert r.trace == p.trace;
    var payload := r.trace[|r.trace| - 1].payload;
    assert payload == BuildPayload(message, Some(Raw(env.slackChannel.value)));
    assert payload.Keys == {TextField, ChannelField};
    if forall i | 1 <= i < |argv| :: Space !in argv[i] {
      SplitJoin(argv[1..], Space);
    }
  }

  /** With SLACK_CHANNEL unset or empty, the channel is the store's inner data
      at `slack/channel` as it stands: a stored mapping is posted as the
      payload's `channel` itself when non-empty, and dropped when empty. */
  lemma CliChannelFromStore(argv: seq<string>, env: Env, server: Vault.Server, m: map<string, string>)
    requires !NonEmpty(env.slackChannel)
    requires Vault.FullPath(Vault.BaseOf(env), ChannelKey) in server.secrets
    requires server.secrets[Vault.FullPath(Vault.BaseOf(env), ChannelKey)] == Vault.Wrap(Fields(m))
    requires Cli(argv, env, server).result.Success?
    ensures var r := Cli(argv, env, server);
            && Read(Vault.FullPath(Vault.BaseOf(env), ChannelKey)) in r.trace
            && r.trace[|r.trace| - 1].Post?
            && r.trace[|r.trace| - 1].payload ==
                 if m != map[] then map[TextField := Raw(r.result.value), ChannelField := Fields(m)]
                 else map[TextField := Raw(r.result.value)]
  {
  }

  /** The store's `slack/channel` entry is not optional in practice: with
      SLACK_CHANNEL unset or empty, a failed lookup there (nothing stored, or
      any guard failure) ends the run with that error and nothing is posted. */
  lemma CliChannelLookupFails(argv: seq<string>, env: Env, server: Vault.Server)
    requires |argv| >= 2
    requires !NonEmpty(env.slackChannel)
    requires Vault.GetSecret(env, server, ChannelKey).result.Failure?
    ensures Cli(argv, env, server).result == Failure(Vault.GetSecret(env, server, ChannelKey).result.error)
    ensures NoPosts(Cli(argv, env, server).trace)
  {
  }

  /** The end-to-end scenario: the store holds a mapping with the webhook
      URL, no channel is given, and the post is one POST of `{"text": "hello"}`
      to that URL after the session check and one lookup. */
  lemma EndToEnd(env: Env, server: Vault.Server)
    requires env.hvacInstalled && env.vaultAddr == Some("https://vault") && env.vaultToken == Some("t")
    requires server.authenticates
    requires server.secrets == map[Vault.FullPath(Vault.BaseOf(env), WebhookKey) :=
                                   Vault.Wrap(Fields(map[UrlField := "https://hooks.example/xyz"]))]
    ensures PostMessage(env, server, "hello", None) ==
              Run([Authenticate("https://vault", "t"),
                   Read(Vault.FullPath(Vault.BaseOf(env), WebhookKey)),
                   Post("https://hooks.example/xyz", map[TextField := Raw("hello")])],
                  Success(()))
  {
  }
}
