/**
 * The game kept in message text: `newgame` posts the lobby, each "Join Game" click
 * appends a mention line, "Start Game" re-reads the mentions, and the life buttons
 * answer with a placeholder. These lemmas connect the handlers of a whole game.
 */
module GameFlow {
  import opened Wrappers
  import opened Strings
  import opened Discord
  import opened Mentions
  import opened StartMessage
  import opened JoinMessage
  import GameCommand
  import LifeCounter

  /** A button click on a message with the given content, by the given user. */
  function Click(content: Option<string>, userId: string, customId: string): Interaction {
    Interaction(MESSAGE_COMPONENT, InteractionData("", None, customId), content, userId)
  }

  /**
   * The message text after the users `ids` clicked "Join Game" one after the other:
   * each click's reply text (JoinedContent, as HandleJoinMessage renders it) is the
   * text of the next click.
   */
  function AfterJoins(content: Option<string>, ids: seq<string>): (c: Option<string>)
    ensures ids != [] ==> c.Some?
    decreases |ids|
  {
    if ids == [] then content
    else AfterJoins(Some(JoinedContent(content, ids[0])), ids[1..])
  }

  /** The mention tokens of a list of user ids. */
  function MentionsOf(ids: seq<string>): (ms: seq<string>)
    ensures |ms| == |ids|
    ensures forall k :: 0 <= k < |ids| ==> ms[k] == MentionOf(ids[k])
  {
    if ids == [] then [] else [MentionOf(ids[0])] + MentionsOf(ids[1..])
  }

  /** The lines the joins append, one per click. */
  function JoinLines(ids: seq<string>): string {
    if ids == [] then "" else JoinLine(ids[0]) + JoinLines(ids[1..])
  }

  /** A Discord user id as the clicks carry it: a non-empty run of decimal digits. */
  predicate ValidId(id: string) {
    |id| > 0 && AllDigits(id)
  }

  predicate ValidIds(ids: seq<string>) {
    forall k :: 0 <= k < |ids| ==> ValidId(ids[k])
  }

  /** Joins are never deduplicated: every click appends its own line, in click order. */
  lemma {:induction false} JoinsAppendLines(content: string, ids: seq<string>)
    ensures AfterJoins(Some(content), ids) == Some(content + JoinLines(ids))
    decreases |ids|
  {
    if ids != [] {
      assert Rendered(Some(content)) == content;
      assert AfterJoins(Some(content), ids) == AfterJoins(Some(content + JoinLine(ids[0])), ids[1..]);
      JoinsAppendLines(content + JoinLine(ids[0]), ids[1..]);
      assert JoinLines(ids) == JoinLine(ids[0]) + JoinLines(ids[1..]);
      Associate(content, JoinLine(ids[0]), JoinLines(ids[1..]));
    } else {
      assert content + JoinLines(ids) == content;
    }
  }

  /** After n joins the text holds the prior mentions followed by one mention per click, repeats kept. */
  lemma {:induction false} JoinsAccumulateMentions(content: Option<string>, ids: seq<string>)
    requires ValidIds(ids)
    ensures Players(AfterJoins(content, ids)) == Players(content) + MentionsOf(ids)
    decreases |ids|
  {
    if ids == [] {
      assert Players(content) + MentionsOf(ids) == Players(content);
    } else {
      var next := Some(JoinedContent(content, ids[0]));
      assert ValidIds(ids[1..]) by {
        forall k | 0 <= k < |ids[1..]| ensures ValidId(ids[1..][k]) {
          assert ids[1..][k] == ids[k + 1];
        }
      }
      JoinsAccumulateMentions(next, ids[1..]);
      JoinStep(content, ids);
    }
  }

  /** The inductive step of JoinsAccumulateMentions: the first click adds the first mention. */
  lemma JoinStep(content: Option<string>, ids: seq<string>)
    requires ids != [] && ValidId(ids[0])
    requires var next := Some(JoinedContent(content, ids[0]));
      Players(AfterJoins(next, ids[1..])) == Players(next) + MentionsOf(ids[1..])
    ensures Players(AfterJoins(content, ids)) == Players(content) + MentionsOf(ids)
  {
    var next := Some(JoinedContent(content, ids[0]));
    assert AfterJoins(content, ids) == AfterJoins(next, ids[1..]);
    JoinAddsOneMention(content, ids[0]);
    assert MentionsOf(ids) == [MentionOf(ids[0])] + MentionsOf(ids[1..]);
    Chain(Players(content), Players(next), Players(AfterJoins(content, ids)),
      MentionOf(ids[0]), MentionsOf(ids[1..]), MentionsOf(ids));
  }

  /** The list algebra of JoinStep, away from the strings it is about. */
  lemma Chain<T>(before: seq<T>, middle: seq<T>, after: seq<T>, x: T, later: seq<T>, all: seq<T>)
    requires middle == before + [x] && after == middle + later && all == [x] + later
    ensures after == before + all
  {
  }

  /** A whole game: after `newgame` and the joins of `ids`, "Start Game" lists exactly those players, each at 40. */
  lemma GameStartsWithJoinedPlayers(ids: seq<string>)
    requires ValidIds(ids)
    ensures var lobby := AfterJoins(GameCommand.HandleGameCommand().data.content, ids);
      && Players(lobby) == MentionsOf(ids)
      && HandleStartMessage(Click(lobby, "", "start_game")).data.content == Some(StartContent(MentionsOf(ids)))
  {
    JoinsAccumulateMentions(GameCommand.HandleGameCommand().data.content, ids);
  }

  /** Starting straight after `newgame` gives no players and empty text. */
  lemma ImmediateStartIsEmpty()
    ensures var e := HandleStartMessage(Click(GameCommand.HandleGameCommand().data.content, "", "start_game"));
      e.data.content == Some("") && Players(e.data.content) == []
  {
    StartContentEmpty([]);
  }

  /** Clicking "Start Game" on a started game's text renders the same message again. */
  lemma StartIsIdempotent(i: Interaction, userId: string)
    ensures var e := HandleStartMessage(i);
      HandleStartMessage(Click(e.data.content, userId, "start_game")) == e
  {
  }

  /** `newgame` and join offer the same join/start row; start and the life buttons offer the same life row. */
  lemma RowsAgree()
    ensures GameCommand.LobbyRow() == JoinMessage.LobbyRow()
    ensures StartMessage.LifeRow() == LifeCounter.LifeRow()
  {
  }
}
