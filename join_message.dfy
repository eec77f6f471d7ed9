/** The "Join Game" button (src/message/join.ts): one mention line is appended to the message. */
module JoinMessage {
  import opened Wrappers
  import opened Strings
  import opened Discord
  import opened Mentions
  import StartMessage

  /** A possibly null content inside a template literal: `null` renders as the text "null". */
  function Rendered(content: Option<string>): string {
    match content
    case None => "null"
    case Some(s) => s
  }

  /** The words after the clicker's mention. */
  const JOINED := " has joined the game"

  /** The line appended for the user who clicked. */
  function JoinLine(id: string): string {
    "\n<@" + id + ">" + JOINED
  }

  function JoinedContent(prior: Option<string>, id: string): (c: string)
    ensures Rendered(prior) < c
    ensures c[|Rendered(prior)|..] == JoinLine(id)
  {
    Rendered(prior) + JoinLine(id)
  }

  /** The join/start row: "Join Game" (PRIMARY, join_game), then "Start Game" (SECONDARY, start_game). */
  function LobbyRow(): (row: ActionRow)
    ensures |row.buttons| == 2
    ensures row.buttons[0].style.Code() == 1 && row.buttons[0].target == CustomId("join_game")
    ensures row.buttons[1].style.Code() == 2 && row.buttons[1].target == CustomId("start_game")
    ensures row.buttons[0].text == "Join Game" && row.buttons[1].text == "Start Game"
  {
    ActionRow([
      Button(Primary, "Join Game", CustomId("join_game")),
      Button(Secondary, "Start Game", CustomId("start_game"))])
  }

  /**
   * The reply to a click on "Join Game": the prior text (never deduplicated) with the
   * clicker's mention line after it, and the same two buttons. For an all-digit user
   * id the mentions of the new text are those of the prior text plus the clicker's.
   */
  function HandleJoinMessage(interaction: Interaction): (e: Envelope)
    ensures e.kind == UpdateMessage
    ensures e.data.Message? && e.data.flags.None? && e.data.content.Some?
    ensures Rendered(interaction.messageContent) < e.data.content.value
    ensures e.data.content == Some(JoinedContent(interaction.messageContent, interaction.memberUserId))
    ensures interaction.messageContent.None? ==>
      e.data.content == Some("null" + JoinLine(interaction.memberUserId))
    ensures |interaction.memberUserId| > 0 && AllDigits(interaction.memberUserId) ==>
      StartMessage.Players(e.data.content)
        == StartMessage.Players(interaction.messageContent) + [MentionOf(interaction.memberUserId)]
    ensures e.data.components == [LobbyRow()]
    ensures ButtonsOf(e) == [
      Button(Primary, "Join Game", CustomId("join_game")),
      Button(Secondary, "Start Game", CustomId("start_game"))]
  {
    var id := interaction.memberUserId;
    var e := Envelope(UpdateMessage, Message(Some(JoinedContent(interaction.messageContent, id)), [LobbyRow()], None));
    if |id| > 0 && AllDigits(id) then JoinAddsOneMention(interaction.messageContent, id); e else e
  }

  // ---------------------------------------------------------------------------

  /** The appended line holds exactly the clicker's mention. */
  lemma ScanOfJoinLine(id: string)
    requires |id| > 0 && AllDigits(id)
    ensures Scan(JoinLine(id)) == [MentionOf(id)]
  {
    var m := MentionOf(id);
    assert JoinLine(id) == ['\n'] + (m + JOINED);
    MentionOfDigits(id);
    JoinTailIsInert();
    ScanOfMentionThen(m, JOINED);
    ScanPastChar('\n', m + JOINED);
  }

  /** The words after the mention cannot continue it and hold no `<`. */
  lemma JoinTailIsInert()
    ensures Separates(JOINED)
    ensures forall i :: 0 <= i < |JOINED| ==> JOINED[i] != '<'
  {
  }

  /**
   * Joining adds exactly one token: the leading newline of the appended line keeps
   * any token from spanning the old text and the new line. A null prior content
   * renders as "null", which holds no token.
   */
  lemma JoinAddsOneMention(prior: Option<string>, id: string)
    requires |id| > 0 && AllDigits(id)
    ensures StartMessage.Players(Some(JoinedContent(prior, id))) == StartMessage.Players(prior) + [MentionOf(id)]
  {
    ScanAppend(Rendered(prior), JoinLine(id));
    ScanOfJoinLine(id);
    if prior.None? {
      ScanWithoutAngle("null");
    }
  }
}
