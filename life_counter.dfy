/** The life buttons (src/message/lifecounter.ts): a placeholder reply that keeps no life totals. */
module LifeCounter {
  import opened Wrappers
  import opened Discord
  import opened Mentions
  import StartMessage

  /** The four life buttons of lifecounter.ts, in order. */
  function LifeRow(): (row: ActionRow)
    ensures |row.buttons| == 4
    ensures forall k :: 0 <= k < 4 ==> row.buttons[k].target.CustomId?
    ensures forall k :: 0 <= k < 4 ==> |row.buttons[k].text| > 0 && (row.buttons[k].style == Danger <==> row.buttons[k].text[0] == '-')
    ensures forall k :: 0 <= k < 4 ==> (row.buttons[k].style == Danger || row.buttons[k].style == Success)
    ensures row.buttons[0].style.Code() == row.buttons[1].style.Code() == 4
    ensures row.buttons[2].style.Code() == row.buttons[3].style.Code() == 3
    ensures [row.buttons[0].text, row.buttons[1].text, row.buttons[2].text, row.buttons[3].text] == ["-10", "-1", "+1", "+10"]
    ensures [row.buttons[0].target.id, row.buttons[1].target.id, row.buttons[2].target.id, row.buttons[3].target.id]
      == ["sub_10", "sub_1", "add_1", "add_10"]
  {
    ActionRow([
      Button(Danger, "-10", CustomId("sub_10")),
      Button(Danger, "-1", CustomId("sub_1")),
      Button(Success, "+1", CustomId("add_1")),
      Button(Success, "+10", CustomId("add_10"))])
  }

  const PLACEHOLDER := "test"

  /**
   * The reply to a life button: a new message "test" with the same four buttons. The
   * interaction is not read, and the reply names no player, so no life total survives.
   */
  function HandleLifeCounter(interaction: Interaction): (e: Envelope)
    ensures e.kind == ChannelMessageWithSource
    ensures e.data.Message? && e.data.flags.None?
    ensures e.data.content == Some("test")
    ensures StartMessage.Players(e.data.content) == []
    ensures e.data.components == [LifeRow()]
    ensures ButtonsOf(e) == [
      Button(Danger, "-10", CustomId("sub_10")),
      Button(Danger, "-1", CustomId("sub_1")),
      Button(Success, "+1", CustomId("add_1")),
      Button(Success, "+10", CustomId("add_10"))]
  {
    ScanWithoutAngle(PLACEHOLDER);
    Envelope(ChannelMessageWithSource, Message(Some(PLACEHOLDER), [LifeRow()], None))
  }

  /** The reply does not depend on the interaction. */
  lemma IgnoresInteraction(a: Interaction, b: Interaction)
    ensures HandleLifeCounter(a) == HandleLifeCounter(b)
  {
  }
}
