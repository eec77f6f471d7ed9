/**
 * The `card` command (src/commands/card.ts). The handler starts the set and name
 * lookups without awaiting them and always answers with a random card; the two
 * sub-handlers are modelled on their own, from the lookup results they would see.
 */
module CardCommand {
  import opened Wrappers
  import opened Strings
  import opened Discord
  import opened Scryfall

  const NO_CARDS := "# No cards found\nYour search didn't match any cards."
  const VIEW_ON_SCRYFALL := "View on Scryfall"

  /** The two option values, read by position: `options[1]` is the set, `options[0]` the name. */
  datatype Arguments = Arguments(setName: Option<string>, cardName: Option<string>)

  /** `options[i]?.value ?? null`; reading an index of a missing `options` array throws. */
  function ReadArguments(options: Option<seq<CommandOption>>): (r: Completion<Arguments>)
    ensures r.Throw? <==> options.None?
    ensures options.Some? && |options.value| >= 2 ==>
      r.value == Arguments(options.value[1].value, options.value[0].value)
    ensures options.Some? && |options.value| == 1 ==> r.value == Arguments(None, options.value[0].value)
    ensures options.Some? && |options.value| == 0 ==> r.value == Arguments(None, None)
  {
    match options
    case None => Throw("TypeError: Cannot read properties of undefined (reading '1')")
    case Some(opts) =>
      Normal(Arguments(if |opts| > 1 then opts[1].value else None, if |opts| > 0 then opts[0].value else None))
  }

  /** A lookup the handler starts and never awaits. */
  datatype SubTask = SetLookup(setCode: string, forName: Option<string>) | NameLookup(name: string)

  /** What the handler does: the reply it returns and the lookups it leaves running. */
  datatype CardReply = CardReply(reply: Completion<Envelope>, started: seq<SubTask>)

  /** The reply built from the random lookup: its URL as content, and nothing else. */
  function RandomCardEnvelope(url: Option<string>): (e: Envelope)
    ensures e.kind == ChannelMessageWithSource && ContentOf(e) == url && ButtonsOf(e) == []
  {
    Envelope(ChannelMessageWithSource, Message(url, [], None))
  }

  /** The lookups started for the given arguments: the set lookup first, when a set is given. */
  function StartedLookups(args: Arguments): (ts: seq<SubTask>)
    ensures (SetLookup(args.setName.GetOr(""), args.cardName) in ts) <==> Truthy(args.setName)
    ensures (args.cardName.Some? && NameLookup(args.cardName.value) in ts) <==> Truthy(args.cardName)
    ensures |ts| == (if Truthy(args.setName) then 1 else 0) + (if Truthy(args.cardName) then 1 else 0)
    ensures forall t :: t in ts ==>
      t == SetLookup(args.setName.GetOr(""), args.cardName) || (args.cardName.Some? && t == NameLookup(args.cardName.value))
  {
    (if Truthy(args.setName) then [SetLookup(args.setName.value, args.cardName)] else [])
      + (if Truthy(args.cardName) then [NameLookup(args.cardName.value)] else [])
  }

  /**
   * `handleCardCommand`: reads the arguments, starts the lookups, then awaits the
   * random card and replies with it. `random` is what the random lookup completes
   * with; its throw is the handler's.
   */
  function HandleCardCommand(interaction: Interaction, random: Completion<Option<string>>): (r: CardReply)
    ensures interaction.data.options.None? ==> r.reply.Throw? && r.started == []
    ensures interaction.data.options.Some? ==>
      && r.started == StartedLookups(ReadArguments(interaction.data.options).value)
      && (random.Throw? ==> r.reply == Throw(random.message))
      && (random.Normal? ==> r.reply == Normal(RandomCardEnvelope(random.value)))
  {
    match ReadArguments(interaction.data.options)
    case Throw(m) => CardReply(Throw(m), [])
    case Normal(args) =>
      var started := StartedLookups(args);
      match random
      case Throw(m) => CardReply(Throw(m), started)
      case Normal(url) => CardReply(Normal(RandomCardEnvelope(url)), started)
  }

  /** The link button to a card's page. */
  function ScryfallButton(url: string): ActionRow {
    ActionRow([Button(Link, VIEW_ON_SCRYFALL, Url(url))])
  }

  /**
   * `handleJustTheCardName`, given what the named lookup completes with: nothing for
   * a null lookup, "No cards found" without buttons for a missing or empty image,
   * otherwise the image with one link button.
   */
  function HandleJustTheCardName(lookup: Completion<Option<NamedCard>>): (r: Completion<Option<Envelope>>)
    ensures r.Throw? <==> lookup.Throw?
    ensures lookup == Normal(None) ==> r == Normal(None)
    ensures lookup.Normal? && lookup.value.Some? && !Truthy(lookup.value.value.namedUrl) ==>
      r == Normal(Some(Envelope(ChannelMessageWithSource, Message(Some(NO_CARDS), [], None))))
    ensures lookup.Normal? && lookup.value.Some? && Truthy(lookup.value.value.namedUrl) ==>
      && r == Normal(Some(Envelope(ChannelMessageWithSource,
                                   Message(lookup.value.value.namedUrl, [ScryfallButton(lookup.value.value.externalUrl)], None))))
      && ContentOf(r.value.value) == lookup.value.value.namedUrl
      && ButtonsOf(r.value.value) == [Button(Link, "View on Scryfall", Url(lookup.value.value.externalUrl))]
  {
    match lookup
    case Throw(m) => Throw(m)
    case Normal(None) => Normal(None)
    case Normal(Some(card)) =>
      if !Truthy(card.namedUrl) then
        Normal(Some(Envelope(ChannelMessageWithSource, Message(Some(NO_CARDS), [], None))))
      else
        Normal(Some(Envelope(ChannelMessageWithSource,
                             Message(card.namedUrl, [ScryfallButton(card.externalUrl)], None))))
  }

  /** `cardImages.filter((card) => card.set === set)[0]`: the first printing of the set, if any. */
  function FirstOfSet(images: seq<CardImage>, setCode: string): (r: Option<CardImage>)
    ensures r.None? <==> forall k :: 0 <= k < |images| ==> images[k].setCode != setCode
    ensures r.Some? ==> r.value.setCode == setCode
    ensures r.Some? ==> exists k :: 0 <= k < |images| && images[k] == r.value
                                    && forall j :: 0 <= j < k ==> images[j].setCode != setCode
  {
    if images == [] then None
    else if images[0].setCode == setCode then Some(images[0])
    else
      var r := FirstOfSet(images[1..], setCode);
      if r.Some? then
        ghost var k :| 0 <= k < |images[1..]| && images[1..][k] == r.value
                       && forall j :: 0 <= j < k ==> images[1..][j].setCode != setCode;
        assert images[k + 1] == r.value;
        assert forall j :: 0 <= j < k + 1 ==> images[j].setCode != setCode by {
          forall j | 0 <= j < k + 1 ensures images[j].setCode != setCode {
            if j > 0 { assert images[j] == images[1..][j - 1]; }
          }
        }
        r
      else
        assert forall k :: 0 <= k < |images| ==> images[k].setCode != setCode by {
          forall k | 0 <= k < |images| ensures images[k].setCode != setCode {
            if k > 0 { assert images[k] == images[1..][k - 1]; }
          }
        }
        r
  }

  /**
   * `handleSetCondition`, given what the printings lookup completes with: the first
   * printing whose set code equals the request exactly, shown with a link button to
   * its page; nothing at all for a null lookup or when no printing matches.
   */
  function HandleSetCondition(setCode: string, lookup: Completion<Option<Printings>>): (r: Completion<Option<Envelope>>)
    ensures r.Throw? <==> lookup.Throw?
    ensures lookup == Normal(None) ==> r == Normal(None)
    ensures lookup.Normal? && lookup.value.Some? ==>
      var imgs := lookup.value.value.cardImages;
      && r.Normal?
      && (r.value.None? <==> forall k :: 0 <= k < |imgs| ==> imgs[k].setCode != setCode)
      && (r.value.Some? ==>
            exists k :: (&& 0 <= k < |imgs|
                         && imgs[k].setCode == setCode
                         && (forall j :: 0 <= j < k ==> imgs[j].setCode != setCode)
                         && r.value.value == Envelope(ChannelMessageWithSource,
                              Message(Some(imgs[k].url), [ActionRow([Button(Link, "View on Scryfall", Url(imgs[k].uri))])], None))))
  {
    match lookup
    case Throw(m) => Throw(m)
    case Normal(None) => Normal(None)
    case Normal(Some(p)) =>
      match FirstOfSet(p.cardImages, setCode)
      case None => Normal(None)
      case Some(c) => Normal(Some(Envelope(ChannelMessageWithSource,
                                           Message(Some(c.url), [ScryfallButton(c.uri)], None))))
  }

  // ---------------------------------------------------------------------------

  /**
   * The returned reply is the random card whatever the name and set: two interactions
   * that both carry options get the same reply: the random URL without a button, so
   * no link reply of a sub-handler is ever returned.
   */
  lemma ReplyIgnoresArguments(a: Interaction, b: Interaction, random: Completion<Option<string>>)
    requires a.data.options.Some? && b.data.options.Some?
    ensures HandleCardCommand(a, random).reply == HandleCardCommand(b, random).reply
    ensures HandleCardCommand(a, random).reply.Normal? ==>
      var e := HandleCardCommand(a, random).reply.value;
      ButtonsOf(e) == [] && ContentOf(e) == random.value
  {
  }

  /** The set path never answers "No cards found": a missing set gives no reply at all. */
  lemma SetPathHasNoNotFoundMessage(setCode: string, lookup: Completion<Option<Printings>>)
    ensures var r := HandleSetCondition(setCode, lookup);
      r.Normal? && r.value.Some? ==> |ButtonsOf(r.value.value)| == 1
  {
  }

  /** The argument values depend only on position, not on the options' names or focus. */
  lemma ArgumentsByPosition(xs: seq<CommandOption>, ys: seq<CommandOption>)
    requires |xs| == |ys| && forall k :: 0 <= k < |xs| ==> xs[k].value == ys[k].value
    ensures ReadArguments(Some(xs)) == ReadArguments(Some(ys))
  {
  }
}
