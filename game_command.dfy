/** The `newgame` command reply (src/commands/game.ts): the message a game starts from. */
module GameCommand {
  import opened Wrappers
  import opened Discord
  import opened Mentions
  import StartMessage

  /** The join/start row of game.ts, written with the raw style codes 1 and 2. */
  function LobbyRow(): (row: ActionRow)
    ensures |row.buttons| == 2
    ensures row.buttons[0].style.Code() == 1 && row.buttons[1].style.Code() == 2
  {
    ActionRow([
      Button(Primary, "Join Game", CustomId("join_game")),
      Button(Secondary, "Start Game", CustomId("start_game"))])
  }

  const NEW_GAME_TEXT := "New Game Started"

  /** A constant reply: a new message "New Game Started" with join then start buttons, and no players yet. */
  function HandleGameCommand(): (e: Envelope)
    ensures e.kind == ChannelMessageWithSource && e.kind.Code() == 4
    ensures e.data.Message? && e.data.flags.None?
    ensures e.data.content == Some("New Game Started")
    ensures StartMessage.Players(e.data.content) == []
    ensures e.data.components == [LobbyRow()]
    ensures ButtonsOf(e) == [
      Button(Primary, "Join Game", CustomId("join_game")),
      Button(Secondary, "Start Game", CustomId("start_game"))]
  {
    NewGameTextHasNoPlayers();
    Envelope(ChannelMessageWithSource, Message(Some(NEW_GAME_TEXT), [LobbyRow()], None))
  }

  /** "New Game Started" holds no `<`, so no player has joined yet. */
  lemma NewGameTextHasNoPlayers()
    ensures StartMessage.Players(Some(NEW_GAME_TEXT)) == []
  {
    var t := NEW_GAME_TEXT;
    assert forall i | 0 <= i < |t| :: t[i] != '<';
    ScanWithoutAngle(t);
  }
}
