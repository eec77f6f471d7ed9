/**
 * The shapes exchanged with Discord: the parts of an inbound interaction that the
 * handlers read, and the response envelope they build. Numeric codes are those of
 * Discord's interaction API.
 */
module Discord {
  import opened Wrappers

  // Interaction types (the `type` field of an inbound interaction).
  const PING := 1
  const APPLICATION_COMMAND := 2
  const MESSAGE_COMPONENT := 3
  const APPLICATION_COMMAND_AUTOCOMPLETE := 4

  /** Interaction response types used by the bot. */
  datatype ResponseType =
    | Pong
    | ChannelMessageWithSource
    | UpdateMessage
    | AutocompleteResult
  {
    function Code(): nat {
      match this
      case Pong => 1
      case ChannelMessageWithSource => 4
      case UpdateMessage => 7
      case AutocompleteResult => 8
    }
  }

  /** Button styles. */
  datatype ButtonStyle = Primary | Secondary | Success | Danger | Link {
    function Code(): nat {
      match this
      case Primary => 1
      case Secondary => 2
      case Success => 3
      case Danger => 4
      case Link => 5
    }
  }

  /** Message flags. */
  datatype MessageFlag = Ephemeral {
    function Code(): nat { 64 }
  }

  /** What a button does when clicked: report a `custom_id` back, or open a `url`. */
  datatype ButtonTarget = CustomId(id: string) | Url(url: string)

  /** A component of type 2 (BUTTON); `text` is its `label` (a reserved word in Dafny). */
  datatype Button = Button(style: ButtonStyle, text: string, target: ButtonTarget)

  /** A component of type 1 (ACTION_ROW) holding buttons. */
  datatype ActionRow = ActionRow(buttons: seq<Button>)

  /** One autocomplete suggestion. */
  datatype Choice = Choice(name: string, value: string)

  /**
   * The `data` member of a response. `Message.components == []` stands for a
   * response without a `components` key (no handler sends an empty list), and a
   * missing `flags` key is `None`.
   */
  datatype Payload =
    | NoData
    | Message(content: Option<string>, components: seq<ActionRow>, flags: Option<MessageFlag>)
    | Choices(choices: seq<Choice>)

  /** An interaction response: `{type, data}`. */
  datatype Envelope = Envelope(kind: ResponseType, data: Payload)

  /** An HTTP reply of the worker: a JSON envelope with status 200, or plain text with a status. */
  datatype Reply = JsonReply(envelope: Envelope) | TextReply(status: nat, body: string)

  /** An element of `data.options`: a command option as Discord sends it. */
  datatype CommandOption = CommandOption(name: string, focused: bool, value: Option<string>)

  /** `data`: the command name and options, or the clicked component's `custom_id`. */
  datatype InteractionData = InteractionData(name: string, options: Option<seq<CommandOption>>, customId: string)

  /** The parts of an inbound interaction that the handlers read. */
  datatype Interaction = Interaction(
    kind: int,
    data: InteractionData,
    messageContent: Option<string>,
    memberUserId: string)

  /** The worker's environment bindings. */
  datatype Env = Env(
    discordToken: string,
    discordApplicationId: string,
    discordPublicKey: string,
    discordTestGuildId: string,
    clientId: string,
    clientSecret: string,
    printerEnabled: string)

  /** The content of a message payload (None for any other payload). */
  function ContentOf(e: Envelope): Option<string> {
    if e.data.Message? then e.data.content else None
  }

  /** The buttons of all action rows of a message payload, in order. */
  function ButtonsOf(e: Envelope): (bs: seq<Button>)
    ensures e.data.Message? && |e.data.components| == 1 ==> bs == e.data.components[0].buttons
  {
    if e.data.Message? then
      var rows := e.data.components;
      assert |rows| == 1 ==> FlattenRows(rows) == rows[0].buttons by {
        if |rows| == 1 {
          assert rows[1..] == [];
          assert FlattenRows(rows[1..]) == [];
          assert rows[0].buttons + [] == rows[0].buttons;
        }
      }
      FlattenRows(rows)
    else []
  }

  function FlattenRows(rows: seq<ActionRow>): seq<Button> {
    if rows == [] then [] else rows[0].buttons + FlattenRows(rows[1..])
  }
}
