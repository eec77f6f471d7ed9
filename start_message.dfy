/** The "Start Game" button (src/message/start.ts): players are re-read from the message text. */
module StartMessage {
  import opened Wrappers
  import opened Strings
  import opened Discord
  import opened Mentions

  /** `interaction.message.content?.match(/<@\d+>/g) ?? []`: no content, or no match, gives no players. */
  function Players(content: Option<string>): (ps: seq<string>)
    ensures content.None? ==> ps == []
    ensures forall k :: 0 <= k < |ps| ==> IsMention(ps[k])
  {
    match content
    case None => []
    case Some(s) => Scan(s)
  }

  /**
   * The players are exactly the mention tokens occurring in the text, in order,
   * duplicates kept: `<@`, one or more decimal digits, `>`.
   */
  lemma PlayersAreOccurrences(content: Option<string>)
    ensures content.None? ==> Players(content) == []
    ensures content.Some? ==> Players(content) == Occurrences(content.value)
  {
    if content.Some? {
      ScanIsOccurrences(content.value);
    }
  }

  /** The starting life total every player is shown with. */
  const STARTING_LIFE := " : 40\n"

  function Entry(p: string): string {
    p + STARTING_LIFE
  }

  /** `players.map((p) => `${p} : 40\n`)`. */
  function Entries(ps: seq<string>): (es: seq<string>)
    ensures |es| == |ps|
    ensures forall k :: 0 <= k < |ps| ==> es[k] == ps[k] + " : 40\n"
  {
    if ps == [] then [] else [Entry(ps[0])] + Entries(ps[1..])
  }

  /** The new content: the entries array inside a template literal, hence joined with ",". */
  function StartContent(ps: seq<string>): string {
    JoinComma(Entries(ps))
  }

  /** The four life buttons of start.ts, in order. */
  function LifeRow(): (row: ActionRow)
    ensures |row.buttons| == 4
    ensures forall k :: 0 <= k < 4 ==> row.buttons[k].target.CustomId?
    ensures forall k :: 0 <= k < 4 ==> |row.buttons[k].text| > 0 && (row.buttons[k].style == Danger <==> row.buttons[k].text[0] == '-')
    ensures forall k :: 0 <= k < 4 ==> (row.buttons[k].style == Danger || row.buttons[k].style == Success)
    ensures row.buttons[0].style.Code() == row.buttons[1].style.Code() == 4
    ensures row.buttons[2].style.Code() == row.buttons[3].style.Code() == 3
    ensures [row.buttons[0].text, row.buttons[1].text, row.buttons[2].text, row.buttons[3].text] == ["-10", "-1", "+1", "+10"]
    ensures [row.buttons[0].target.id, row.buttons[1].target.id, row.buttons[2].target.id, row.buttons[3].target.id]
      == ["sub_10", "sub_1", "add_1", "add_10"]
  {
    ActionRow([
      Button(Danger, "-10", CustomId("sub_10")),
      Button(Danger, "-1", CustomId("sub_1")),
      Button(Success, "+1", CustomId("add_1")),
      Button(Success, "+10", CustomId("add_10"))])
  }

  /**
   * The reply to a click on "Start Game": the message is replaced by one `: 40`
   * entry per mention found in it, and the join/start buttons by the life buttons.
   * Scanning the new text gives back the same players, so the game's state
   * survives in the transcript.
   */
  function HandleStartMessage(interaction: Interaction): (e: Envelope)
    ensures e.kind == UpdateMessage && e.kind.Code() == 7
    ensures e.data.Message? && e.data.flags.None?
    ensures e.data.content == Some(StartContent(Players(interaction.messageContent)))
    ensures Players(e.data.content) == Players(interaction.messageContent)
    ensures e.data.components == [LifeRow()]
    ensures ButtonsOf(e) == [
      Button(Danger, "-10", CustomId("sub_10")),
      Button(Danger, "-1", CustomId("sub_1")),
      Button(Success, "+1", CustomId("add_1")),
      Button(Success, "+10", CustomId("add_10"))]
  {
    var players := Players(interaction.messageContent);
    ScanOfStartContent(players);
    Envelope(UpdateMessage, Message(Some(StartContent(players)), [LifeRow()], None))
  }

  // ---------------------------------------------------------------------------

  /** Scanning rendered entries gives back the players they were rendered from. */
  lemma {:induction false} ScanOfStartContent(ps: seq<string>)
    requires forall k :: 0 <= k < |ps| ==> IsMention(ps[k])
    ensures Scan(StartContent(ps)) == ps
    decreases |ps|
  {
    if |ps| > 0 {
      var e := Entry(ps[0]);
      ScanOfMentionThen(ps[0], STARTING_LIFE);
      StartContentCons(ps);
      if |ps| == 1 {
        assert ps == [ps[0]];
      } else {
        var rest := StartContent(ps[1..]);
        ScanAppend(e, [','] + rest);
        ScanPastChar(',', rest);
        ScanOfStartContent(ps[1..]);
        assert ps == [ps[0]] + ps[1..];
      }
    }
  }

  /** One unfolding of StartContent: the first entry, then a comma and the rest when there is a rest. */
  lemma StartContentCons(ps: seq<string>)
    requires |ps| > 0
    ensures |ps| == 1 ==> StartContent(ps) == Entry(ps[0])
    ensures |ps| > 1 ==> StartContent(ps) == Entry(ps[0]) + ([','] + StartContent(ps[1..]))
  {
    var es := Entries(ps);
    assert es == [Entry(ps[0])] + Entries(ps[1..]);
    assert es[0] == Entry(ps[0]);
    assert es[1..] == Entries(ps[1..]);
    if |ps| > 1 {
      assert JoinComma(es) == es[0] + "," + JoinComma(es[1..]);
    }
  }

  /** The content is empty exactly when there are no players. */
  lemma StartContentEmpty(ps: seq<string>)
    ensures StartContent(ps) == "" <==> ps == []
  {
    if ps != [] {
      assert |Entries(ps)[0]| > 0;
      if |ps| > 1 {
        assert |StartContent(ps)| >= |Entries(ps)[0]|;
      }
    }
  }

  /** Null content, or content in which no mention token occurs, renders as the empty string. */
  lemma NoPlayersNoContent(content: Option<string>)
    requires content.None? || Occurrences(content.value) == []
    ensures Players(content) == []
    ensures ContentOf(HandleStartMessage(Interaction(MESSAGE_COMPONENT, InteractionData("", None, "start_game"), content, ""))) == Some("")
  {
    if content.Some? {
      ScanIsOccurrences(content.value);
    }
    StartContentEmpty([]);
  }

  /** Two player lists render the same text only if they are equal. */
  lemma StartContentInjective(ps: seq<string>, qs: seq<string>)
    requires forall k :: 0 <= k < |ps| ==> IsMention(ps[k])
    requires forall k :: 0 <= k < |qs| ==> IsMention(qs[k])
    requires StartContent(ps) == StartContent(qs)
    ensures ps == qs
  {
    ScanOfStartContent(ps);
    ScanOfStartContent(qs);
  }
}
