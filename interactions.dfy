/** Slash-command routing (src/interactions.ts): the lower-cased command name picks the reply. */
module Interactions {
  import opened Wrappers
  import opened Strings
  import opened Discord
  import Commands
  import HadIt
  import InviteCommand

  const NOT_FOUND := TextReply(404, "Command not found")

  /**
   * `handleApplicationCommand`: `hadit` and `invite`, in any ASCII case, get their
   * replies; every other name, `card` and `newgame` included, gets a 404.
   */
  function HandleApplicationCommand(interaction: Interaction, env: Env): (r: Reply)
    ensures Lower(interaction.data.name) == "hadit" ==> r == JsonReply(HadIt.HandleHadItCommand())
    ensures Lower(interaction.data.name) == "invite" ==> r == JsonReply(InviteCommand.HandleInviteCommand(env))
    ensures Lower(interaction.data.name) !in {"hadit", "invite"} ==> r == TextReply(404, "Command not found")
  {
    var name := Lower(interaction.data.name);
    assert Lower(Commands.HAD_IT_COMMAND.name) == "hadit";
    assert Lower(Commands.INVITE_COMMAND.name) == "invite";
    if name == Lower(Commands.HAD_IT_COMMAND.name) then JsonReply(HadIt.HandleHadItCommand())
    else if name == Lower(Commands.INVITE_COMMAND.name) then JsonReply(InviteCommand.HandleInviteCommand(env))
    else NOT_FOUND
  }

  /** Names that agree up to ASCII case route identically; nothing but the name and env is read. */
  lemma RoutingIgnoresCase(a: Interaction, b: Interaction, env: Env)
    requires Lower(a.data.name) == Lower(b.data.name)
    ensures HandleApplicationCommand(a, env) == HandleApplicationCommand(b, env)
  {
  }

  /** The table's `card` and `newgame` commands have no route. */
  lemma CardAndNewGameNotFound(i: Interaction, env: Env)
    requires i.data.name in {Commands.CARD_COMMAND.name, Commands.NEW_GAME_COMMAND.name}
    ensures HandleApplicationCommand(i, env) == TextReply(404, "Command not found")
  {
    assert Lower(i.data.name) == i.data.name;
  }
}
