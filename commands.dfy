/** The static slash-command table (src/commands.ts). */
module Commands {
  import opened Wrappers
  import opened Strings

  /** An option descriptor: `type` 3 is a string option. */
  datatype OptionDef = OptionDef(kind: nat, name: string, description: string, required: bool, autocomplete: Option<bool>)

  /** A command descriptor; `options` is None when the key is absent. */
  datatype CommandDef = CommandDef(name: string, description: string, options: Option<seq<OptionDef>>)

  const HAD_IT_COMMAND := CommandDef("hadit", "When you've just about had it.", None)

  const CARD_COMMAND := CommandDef("card", "Search for a card image.", Some([
    OptionDef(3, "name", "The name of the card", true, Some(true)),
    OptionDef(3, "set", "The set of the card", false, Some(true))]))

  const NEW_GAME_COMMAND := CommandDef("newgame", "Start a new game", None)

  const INVITE_COMMAND := CommandDef("invite", "Get an invite link to add the bot to your server", None)

  /** `COMMAND_LIST`: hadit, card, invite, newgame, in that order. */
  function CommandList(): (cs: seq<CommandDef>)
    ensures |cs| == 4
    ensures cs[0].name == "hadit" && cs[1].name == "card" && cs[2].name == "invite" && cs[3].name == "newgame"
  {
    [HAD_IT_COMMAND, CARD_COMMAND, INVITE_COMMAND, NEW_GAME_COMMAND]
  }

  /** The names are pairwise distinct and already lower-case, so lower-cased routing matches the table. */
  lemma NamesDistinctAndLower()
    ensures forall i, j :: 0 <= i < j < |CommandList()| ==> CommandList()[i].name != CommandList()[j].name
    ensures forall i :: 0 <= i < |CommandList()| ==> Lower(CommandList()[i].name) == CommandList()[i].name
  {
    var cs := CommandList();
    forall i | 0 <= i < |cs| ensures Lower(cs[i].name) == cs[i].name {
      var n := cs[i].name;
      assert forall k :: 0 <= k < |n| ==> 'a' <= n[k] <= 'z';
    }
  }

  /** Only `card` has options, and they are name (required) then set (optional), both autocompleted strings. */
  lemma CardOptions()
    ensures forall i :: 0 <= i < |CommandList()| ==> (CommandList()[i].options.Some? <==> CommandList()[i] == CARD_COMMAND)
    ensures var opts := CARD_COMMAND.options.value;
      && |opts| == 2
      && opts[0].name == "name" && opts[0].kind == 3 && opts[0].required && opts[0].autocomplete == Some(true)
      && opts[1].name == "set" && opts[1].kind == 3 && !opts[1].required && opts[1].autocomplete == Some(true)
  {
  }
}
