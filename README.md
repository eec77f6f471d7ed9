# spelltable-discord-bot: a Dafny model of the response logic

The bot is a Discord webhook. Its command router answers the `hadit` and `invite`
slash commands with ephemeral links. Every other command name, `card` and `newgame`
included, gets `404 "Command not found"`, and the worker answers button clicks with
`400`. The repository still holds the handlers those paths would reach:

- a card search with Scryfall images;
- a small "game" whose only state is a message's text: `newgame` posts a lobby,
  each "Join Game" click appends a `<@id>` mention line, "Start Game" re-reads the
  mentions and lists each player with `: 40`, and the life buttons get a placeholder.

The model covers those handlers as well, each on its own.

This project models the pure part of that code. Each handler is a Dafny function
from plain datatype inputs to a response `Envelope` (`{type, data}` with content,
action rows of `Button`s, flags, or autocomplete choices). The contracts and lemmas
state what the handlers promise. The main results:

- **Mention scan.** The players that "Start Game" reads (`/<@\d+>/g`) are exactly
  the mention tokens occurring in the text, in order, duplicates kept
  (`Mentions.ScanIsOccurrences`). Each token is `<@`, one or more digits, `>`.
- **Join and start work together.** Joining adds exactly one token for an all-digit
  user id (`JoinMessage.JoinAddsOneMention`). After `newgame` and n joins, start
  lists exactly the n joined players (`GameFlow.GameStartsWithJoinedPlayers`).
  Start's own text scans back to the same players, so start is idempotent.
- **Card search.** The handler always replies with the random card. The name and
  set sub-handlers are started but their results are thrown away
  (`CardCommand.HandleCardCommand`). The sub-handlers are modelled on their own.
- **Routing.** The worker switches on the interaction type. Command names are
  matched case-insensitively. Component clicks get `400`, so the game handlers are
  never reached through this worker (`Worker.ComponentClicksUnsupported`).

JavaScript conventions are written out:

- `null`/`undefined` become `Option`.
- String truthiness is "present and non-empty" (`Strings.Truthy`).
- A thrown error is `Completion.Throw`.
- An array inside a template literal is joined with `,`, a quirk the start text
  keeps.

Fetches, the signature check and the missing autocomplete handler are inputs: an
`ok` flag with the decoded body, a boolean, and a `Completion` value.

Three behaviours of the code are kept as written:

- Start keeps duplicate mentions (not one line per distinct mention).
- The set path gives no reply at all when no printing matches (no "set not found").
- The card command's returned reply is always the random card.

## Model

| member | source | states |
|---|---|---|
| Mentions.Scan | src/message/start.ts:6 | every token the global `<@\d+>` match returns is `<@`, at least one decimal digit, `>` |
| Mentions.TokenLen | src/message/start.ts:6 | the match anchored at a position is either absent or a whole mention token |
| Mentions.TokenLenExact | src/message/start.ts:6 | a mention prefix is exactly the anchored match, so the match at a position is unique |
| Mentions.ScanIsOccurrences | src/message/start.ts:6 | the left-to-right non-overlapping scan equals the list of every mention occurring in the text, by position, duplicates kept |
| Mentions.ScanAppend | src/message/start.ts:6 | scanning a concatenation is scanning each part when the second part cannot continue a token |
| Mentions.ScanWithoutAngle | src/message/start.ts:6 | text without `<` yields no player |
| StartMessage.Players | src/message/start.ts:6 | null content gives no players; every player is a mention token |
| StartMessage.PlayersAreOccurrences | src/message/start.ts:6 | the players are exactly the mention tokens occurring in the content, in order |
| StartMessage.Entries | src/message/start.ts:10 | one entry per player; entry k is player k followed by ` : 40\n`, so every player starts at 40 |
| StartMessage.LifeRow | src/message/start.ts:11-40 | four buttons sub_10, sub_1, add_1, add_10 labelled -10, -1, +1, +10; the decrements are DANGER (4) and the increments SUCCESS (3) |
| StartMessage.HandleStartMessage | src/message/start.ts:5-44 | UPDATE_MESSAGE; content is the entries joined with `,`; rescanning that content gives back the same players; one row with sub_10, sub_1, add_1, add_10 labelled -10, -1, +1, +10, styled DANGER, DANGER, SUCCESS, SUCCESS |
| StartMessage.ScanOfStartContent | src/message/start.ts:10 | scanning the rendered entries recovers the player list |
| StartMessage.StartContentEmpty | src/message/start.ts:10 | the content is the empty string exactly when there are no players |
| StartMessage.NoPlayersNoContent | src/message/start.ts:6-10 | null content, or content in which no mention token occurs, gives no players and the content "" |
| StartMessage.StartContentInjective | src/message/start.ts:10 | different player lists render different texts |
| JoinMessage.JoinedContent | src/message/join.ts:9 | the prior rendered text is a strict prefix of the new text, and the rest is the join line |
| JoinMessage.LobbyRow | src/message/join.ts:10-27 | "Join Game" PRIMARY (1) with join_game, then "Start Game" SECONDARY (2) with start_game |
| JoinMessage.HandleJoinMessage | src/message/join.ts:5-31 | UPDATE_MESSAGE; content is prior text + `\n<@id> has joined the game`, with null rendered as `null`; for an all-digit id the players become the prior players plus `<@id>`; buttons join_game "Join Game" PRIMARY then start_game "Start Game" SECONDARY |
| JoinMessage.ScanOfJoinLine | src/message/join.ts:9 | the appended line holds exactly the clicker's mention |
| JoinMessage.JoinAddsOneMention | src/message/join.ts:9 | for an all-digit id, the scan of the new text is the scan of the prior text followed by `<@id>`; the leading newline keeps tokens from spanning the boundary |
| GameCommand.LobbyRow | src/commands/game.ts:11-28 | two buttons with raw styles 1 and 2 |
| GameCommand.HandleGameCommand | src/commands/game.ts:5-31 | constant CHANNEL_MESSAGE_WITH_SOURCE with content "New Game Started", which holds no player, and join_game then start_game |
| GameCommand.NewGameTextHasNoPlayers | src/commands/game.ts:9 | the lobby text holds no mention, so a new game has no players |
| LifeCounter.HandleLifeCounter | src/message/lifecounter.ts:15-53 | CHANNEL_MESSAGE_WITH_SOURCE with content "test", which names no player, and the four life buttons |
| LifeCounter.LifeRow | src/message/lifecounter.ts:20-50 | the same four life buttons, ids, labels and styles as the start reply |
| LifeCounter.IgnoresInteraction | src/message/lifecounter.ts:15-16 | the reply does not depend on the interaction |
| GameFlow.AfterJoins | src/message/join.ts:9 | the text after a sequence of clicks, each click reading the previous reply; it is present after one click (the results are in the next two rows) |
| GameFlow.JoinsAppendLines | src/message/join.ts:9 | n clicks append n join lines in click order, with no deduplication |
| GameFlow.JoinsAccumulateMentions | src/message/join.ts:9 | after n joins the players are the prior players followed by one mention per click, repeats kept |
| GameFlow.GameStartsWithJoinedPlayers | src/commands/game.ts:9 | after `newgame` and the joins, start lists exactly the joined players, each at 40 |
| GameFlow.ImmediateStartIsEmpty | src/commands/game.ts:9 | starting straight after `newgame` gives no players and empty content |
| GameFlow.StartIsIdempotent | src/message/start.ts:6-10 | starting again on a started game's text renders the same reply |
| GameFlow.RowsAgree | src/message/lifecounter.ts:20-49 | lifecounter's row equals start's row, and game's row equals join's row |
| Scryfall.PreferredImage | src/scryfall.ts:56 | the first non-empty of large, normal, small; missing when image_uris is null; truthy exactly when one of them is non-empty |
| Scryfall.ImageUrl | src/scryfall.ts:106 | always a string: large when non-empty, else normal when non-empty, else small when non-empty, otherwise "" |
| Scryfall.RandomUrl | src/scryfall.ts:8-28 | a non-ok response throws "Error fetching url: status text", plus the body when there is one; otherwise the card's large image |
| Scryfall.FetchError | src/scryfall.ts:15 | "Error fetching " + url + ": ", then digits denoting exactly the status code with no leading zero, a space and the status text |
| Strings.NatToDecimal | src/scryfall.ts:15 | a number in a template literal renders as a non-empty digit run without leading zeros whose decimal value is the number |
| Scryfall.NamedUrl | src/scryfall.ts:38-60 | null when not ok; when every face has image_uris, face 0 and face 1 large joined by " " (fewer than two faces throws); otherwise the preferred single image; scryfall_uri and prints_search_uri passed through unchanged |
| Scryfall.AutoCompleteNames | src/scryfall.ts:62-73 | null exactly when not ok; otherwise `data` unchanged |
| Scryfall.SetsOf | src/scryfall.ts:99-102 | same length and order as `data`, with set and collector number pointwise |
| Scryfall.CardImagesOf | src/scryfall.ts:103-108 | same length and order as `data`; set, collector number, image URL and page link pointwise |
| Scryfall.AutoCompleteSets | src/scryfall.ts:83-110 | the named lookup's throw and null propagate; null when the prints search is not ok; otherwise entry k of both views carries printing k's set and collector number, and card image k also its preferred image URL and its scryfall_uri |
| Scryfall.CardImagesProjectToSets | src/scryfall.ts:99-108 | dropping url and uri from the cardImages view gives exactly the sets view |
| Scryfall.TwoFacedCard | src/scryfall.ts:48-53 | a card with two illustrated faces shows both large images, whatever its own image_uris |
| CardCommand.ReadArguments | src/commands/card.ts:6-7 | the set is options[1].value and the name options[0].value, by position, null when missing; a missing options array throws |
| CardCommand.StartedLookups | src/commands/card.ts:8-14 | the set lookup starts exactly when the set is non-empty, and the name lookup exactly when the name is non-empty; each at most once, and no other lookup starts |
| CardCommand.HandleCardCommand | src/commands/card.ts:5-23 | the reply is always the random card (its URL as content, no components) or its throw; the sub-handlers' results are not part of it |
| CardCommand.ReplyIgnoresArguments | src/commands/card.ts:8-22 | any two interactions with options get the same reply, with no button |
| CardCommand.HandleJustTheCardName | src/commands/card.ts:25-58 | null lookup gives no reply; a missing or empty image gives "# No cards found…" with no components; otherwise the whole reply: the image as content, one row with one LINK button "View on Scryfall" to externalUrl, no flags |
| CardCommand.FirstOfSet | src/commands/card.ts:64-66 | the first card image whose set equals the request exactly; none exactly when no set matches |
| CardCommand.HandleSetCondition | src/commands/card.ts:60-88 | null lookup or no match gives no reply; otherwise the first exact match's url with a LINK button to its uri |
| CardCommand.SetPathHasNoNotFoundMessage | src/commands/card.ts:61-87 | every set-path reply carries exactly one button, so there is no not-found text |
| CardCommand.ArgumentsByPosition | src/commands/card.ts:6-7 | the arguments depend only on the option values by position |
| Commands.CommandList | src/commands.ts:51 | hadit, card, invite, newgame, in that order |
| Commands.NamesDistinctAndLower | src/commands.ts:15-49 | names pairwise distinct and already lower-case |
| Commands.CardOptions | src/commands.ts:20-39 | only card has options: name (type 3, required, autocomplete) then set (type 3, optional, autocomplete) |
| HadIt.HandleHadItCommand | src/commands/hadIt.ts:4-11 | constant CHANNEL_MESSAGE_WITH_SOURCE with the fixed image URL, EPHEMERAL, no components |
| InviteCommand.InviteUrl | src/commands/inviteCommand.ts:5 | fixed prefix, the application id, then `&scope=applications.commands` |
| InviteCommand.HandleInviteCommand | src/commands/inviteCommand.ts:4-13 | CHANNEL_MESSAGE_WITH_SOURCE, content is the invite URL, EPHEMERAL |
| InviteCommand.ApplicationIdRoundTrip | src/commands/inviteCommand.ts:5-9 | stripping the prefix and suffix from the content recovers the application id |
| InviteCommand.OnlyApplicationIdMatters | src/commands/inviteCommand.ts:4-12 | two environments get the same reply exactly when their application ids agree |
| Invite.HandleInviteCommand | src/commands/invite.ts:5-14 | CHANNEL_MESSAGE_WITH_SOURCE, content is the invite URL, EPHEMERAL |
| Invite.InviteUrl | src/commands/invite.ts:6 | the link is the one inviteCommand.ts builds, and its application id is recovered by stripping the fixed prefix and suffix |
| Invite.SameAsInviteCommand | src/commands/invite.ts:5-14 | equals inviteCommand.ts's reply for every environment |
| Interactions.HandleApplicationCommand | src/interactions.ts:7-19 | lower-cased `hadit` gives the hadIt reply, `invite` the invite reply for env, anything else 404 "Command not found" |
| Interactions.RoutingIgnoresCase | src/interactions.ts:8-10 | names equal up to ASCII case route identically, reading only the name and env |
| Interactions.CardAndNewGameNotFound | src/interactions.ts:17-18 | `card` and `newgame` get the 404 |
| Worker.VerifyDiscordRequest | src/worker.js:225-235 | valid exactly when both signature headers are non-empty and the key check passes; only then is the interaction returned |
| Worker.HandlePost | src/worker.js:41-62 | invalid or missing interaction gives 401 "Bad request signature."; PING gives exactly {type: PONG}; commands go to the command router; autocomplete to its handler; everything else 400 "Unsupported interaction type." |
| Worker.HandleRequest | src/worker.js:42-45 | a request failing the signature check gets 401 before any dispatch |
| Worker.ComponentClicksUnsupported | src/worker.js:59-62 | MESSAGE_COMPONENT gets 400, so the component code after the switch is never reached |
| Worker.PingIsPong | src/worker.js:48-53 | PING is answered without the environment or any handler |
| Worker.NameChoices | src/worker.js:74-77 | one choice per upstream name, in order, with name == value |
| Worker.PrefixArgument | src/worker.js:83 | a missing typed value is tested as the prefix "undefined", as `startsWith(undefined)` does; a present one as itself |
| Worker.FilterByPrefix | src/worker.js:83 | keeps exactly the printings whose set starts with the typed text |
| Worker.FilterKeepsOrder | src/worker.js:83 | filtering distributes over concatenation, so upstream order is kept |
| Worker.EmptyPrefixKeepsAll | src/worker.js:83 | an empty typed text keeps every printing |
| Worker.SetChoicesOf | src/worker.js:87-90 | choice k has label ASCII-uppercase(set) + " (" + collector_number + ")" and value set |
| Worker.SetChoices | src/worker.js:82-91 | exactly the labelled choices of the printings whose set starts with the typed text (a missing text tests "undefined"), in upstream order, one per printing |
| Worker.AutocompleteEnvelope | src/worker.js:84-91 | APPLICATION_COMMAND_AUTOCOMPLETE_RESULT carrying the choices |

## Left out

- Network I/O: every `fetch` to Scryfall, its User-Agent header and JSON decoding. Each upstream result is an input (an `ok` flag and the decoded body).
- `RandomUrl`, `NamedUrl`, `ReadArguments`: the text of engine-raised `TypeError`s is a placeholder. Only the fact that they throw is modelled. The same placeholder text is used whether the missing value is `undefined` or a JSON `null`.
- Ed25519 verification (`dsi.verifyKey`) is foreign crypto and is a boolean input. `keyVerifies` stands for the truthiness of the value `dsi.verifyKey(...)` returns. `src/worker.js:229` does not await it. If the library's `verifyKey` is asynchronous, that value is a Promise and always truthy, so any request with both headers would pass. That depends on the library version, which is not part of this model. A body that `JSON.parse` rejects is not modelled; a body that parses to null is `None`.
- HTTP plumbing: `JsonResponse`, `JSON.stringify`, itty-router registration, and the `GET /` and `*` routes. A JSON reply is an `Envelope` with status 200; a text reply is its status and body.
- `handleApplicationAutoComplete`: `src/interactions.ts` as shown does not export it, so its result is an input to `Worker.HandlePost`.
- `src/interactions.ts` imports `./commands/hadItCommand.ts` and `./commands.js`. Neither is part of this model. The hadIt reply is taken from `src/commands/hadIt.ts`, and the command names from `src/commands.ts` (the two tables agree on names).
- `src/commands.js` lacks the `set` option that `src/worker.js:81` indexes. That code is unreachable, so only the `src/commands.ts` table is modelled.
- The unreachable part of `src/worker.js` after line 62 is not modelled as a whole. The focused-option selection (line 67), the null results of `getAutoCompleteNames`/`getAutoCompleteSets` reaching `.map`, and the `custom_id` switch (97-213) are left out. Only the choice builders are modelled.
- Async behaviour: ordering, the unawaited sub-handler promises and their rejections, and `console.log`. `CardCommand.HandleCardCommand` records which lookups it starts instead.
- KV-store writes and expiries, the printer webhook and the image-serving route do not appear in the modelled code.
- Unicode case mapping: `toLowerCase`/`toUpperCase` are modelled for ASCII letters only.
- `src/types.ts` (declarations only), `src/register.ts` (registration script), `src/autocomplete/card.ts` (a constant empty-choice stub that nothing shown calls), `src/commands/commands.ts` (re-exports) and `src/scryfall.js` (an older client).
- `layout` of a card response is declared but never read, so it is not modelled.
- The numeric codes of `discord-interactions` (response types, button styles, flags) are not part of this model. The values used are those of Discord's interaction API.
- `JoinMessage.HandleJoinMessage`: `memberUserId` is always a string. An interaction without `member` (a direct message) makes `src/message/join.ts:9` throw, and that case is not modelled. It cannot arise through the modelled worker, which never dispatches component clicks.
- `CardCommand.HandleJustTheCardName`, `CardCommand.HandleSetCondition`: assume the lookups of `src/scryfall.ts`. `src/commands/card.ts:3` imports `./../scryfall.js`. If that resolves to `src/scryfall.js`, which exports only `getRandomUrl`, both sub-handlers reject before any lookup. The returned reply of `CardCommand.HandleCardCommand` is the same either way.
