/** The `invite` command reply as src/commands/inviteCommand.ts builds it (the one the router calls). */
module InviteCommand {
  import opened Wrappers
  import opened Strings
  import opened Discord

  const INVITE_PREFIX := "https://discord.com/oauth2/authorize?client_id="
  const INVITE_SUFFIX := "&scope=applications.commands"

  /** The OAuth2 link that adds the bot with the application-commands scope. */
  function InviteUrl(env: Env): (url: string)
    ensures StartsWith(url, INVITE_PREFIX)
    ensures |url| == |INVITE_PREFIX| + |env.discordApplicationId| + |INVITE_SUFFIX|
    ensures url[|url| - |INVITE_SUFFIX|..] == INVITE_SUFFIX
  {
    INVITE_PREFIX + env.discordApplicationId + INVITE_SUFFIX
  }

  /** The inverse of InviteUrl: the text between the fixed prefix and suffix, if both are there. */
  function ApplicationIdOf(url: string): Option<string> {
    if |url| >= |INVITE_PREFIX| + |INVITE_SUFFIX|
       && url[..|INVITE_PREFIX|] == INVITE_PREFIX
       && url[|url| - |INVITE_SUFFIX|..] == INVITE_SUFFIX
    then Some(url[|INVITE_PREFIX|..|url| - |INVITE_SUFFIX|])
    else None
  }

  /** The reply: the invite link, visible only to the caller. */
  function HandleInviteCommand(env: Env): (e: Envelope)
    ensures e.kind == ChannelMessageWithSource
    ensures ContentOf(e) == Some(InviteUrl(env))
    ensures e.data.Message? && e.data.flags == Some(Ephemeral) && e.data.components == []
  {
    Envelope(ChannelMessageWithSource, Message(Some(InviteUrl(env)), [], Some(Ephemeral)))
  }

  /** Stripping the fixed prefix and suffix from the reply recovers the application id. */
  lemma ApplicationIdRoundTrip(env: Env)
    ensures ApplicationIdOf(HandleInviteCommand(env).data.content.value) == Some(env.discordApplicationId)
  {
    var url := InviteUrl(env);
    assert url[..|INVITE_PREFIX|] == INVITE_PREFIX;
    assert url[|INVITE_PREFIX|..|url| - |INVITE_SUFFIX|] == env.discordApplicationId;
  }

  /** The reply depends on the environment only through the application id. */
  lemma OnlyApplicationIdMatters(a: Env, b: Env)
    ensures HandleInviteCommand(a) == HandleInviteCommand(b) <==> a.discordApplicationId == b.discordApplicationId
  {
    if HandleInviteCommand(a) == HandleInviteCommand(b) {
      ApplicationIdRoundTrip(a);
      ApplicationIdRoundTrip(b);
    }
  }
}
