/** The `invite` command reply as src/commands/invite.ts builds it (the handler commands/commands.ts re-exports). */
module Invite {
  import opened Wrappers
  import opened Discord
  import InviteCommand

  /** The invite link, written out as invite.ts writes it. */
  function InviteUrl(env: Env): (url: string)
    ensures InviteCommand.ApplicationIdOf(url) == Some(env.discordApplicationId)
    ensures url == InviteCommand.InviteUrl(env)
  {
    var url := "https://discord.com/oauth2/authorize?client_id=" + env.discordApplicationId + "&scope=applications.commands";
    InviteCommand.ApplicationIdRoundTrip(env);
    assert url == InviteCommand.InviteUrl(env);
    url
  }

  /** The reply: the invite link, visible only to the caller. */
  function HandleInviteCommand(env: Env): (e: Envelope)
    ensures e.kind == ChannelMessageWithSource
    ensures ContentOf(e) == Some(InviteUrl(env))
    ensures e.data.Message? && e.data.flags == Some(Ephemeral) && e.data.components == []
  {
    Envelope(ChannelMessageWithSource, Message(Some(InviteUrl(env)), [], Some(Ephemeral)))
  }

  /** Both invite builders give the same reply for every environment. */
  lemma SameAsInviteCommand(env: Env)
    ensures HandleInviteCommand(env) == InviteCommand.HandleInviteCommand(env)
  {
  }
}
