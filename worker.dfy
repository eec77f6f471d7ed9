/**
 * The worker's webhook (src/worker.js): request verification, the switch on the
 * interaction type, and the autocomplete choice builders that stand in the code
 * after that switch (which every arm leaves by returning, so it never runs).
 */
module Worker {
  import opened Wrappers
  import opened Strings
  import opened Discord
  import Interactions
  import Scryfall

  /** What `verifyDiscordRequest` returns. */
  datatype Verified = Verified(isValid: bool, interaction: Option<Interaction>)

  /**
   * `verifyDiscordRequest`: both signature headers must be present and non-empty, and
   * the Ed25519 check (`keyVerifies`, the library's answer) must pass; only then is
   * the body's parsed interaction (`parsed`, None for a null body) returned.
   */
  function VerifyDiscordRequest(signature: Option<string>, timestamp: Option<string>, keyVerifies: bool,
                                parsed: Option<Interaction>): (v: Verified)
    ensures v.isValid <==> Truthy(signature) && Truthy(timestamp) && keyVerifies
    ensures v.interaction == (if v.isValid then parsed else None)
  {
    if Truthy(signature) && Truthy(timestamp) && keyVerifies then Verified(true, parsed)
    else Verified(false, None)
  }

  const BAD_SIGNATURE := TextReply(401, "Bad request signature.")
  const UNSUPPORTED := TextReply(400, "Unsupported interaction type.")

  /**
   * `POST /`: a rejected request gets 401 before anything is dispatched; PING gets a
   * bare PONG; commands go to the command router; autocomplete goes to
   * `handleApplicationAutoComplete`, whose completion is `autocomplete` (the router
   * module does not define it); message components and every other type get 400.
   */
  function HandlePost(v: Verified, env: Env, autocomplete: Completion<Reply>): (r: Completion<Reply>)
    ensures !v.isValid || v.interaction.None? ==> r == Normal(TextReply(401, "Bad request signature."))
    ensures v.isValid && v.interaction.Some? ==>
      var i := v.interaction.value;
      && (i.kind == PING ==> r == Normal(JsonReply(Envelope(Pong, NoData))))
      && (i.kind == APPLICATION_COMMAND ==> r == Normal(Interactions.HandleApplicationCommand(i, env)))
      && (i.kind == APPLICATION_COMMAND_AUTOCOMPLETE ==> r == autocomplete)
      && (i.kind !in {PING, APPLICATION_COMMAND, APPLICATION_COMMAND_AUTOCOMPLETE} ==>
            r == Normal(TextReply(400, "Unsupported interaction type.")))
  {
    if !v.isValid || v.interaction.None? then Normal(BAD_SIGNATURE)
    else
      var i := v.interaction.value;
      if i.kind == PING then Normal(JsonReply(Envelope(Pong, NoData)))
      else if i.kind == APPLICATION_COMMAND then Normal(Interactions.HandleApplicationCommand(i, env))
      else if i.kind == APPLICATION_COMMAND_AUTOCOMPLETE then autocomplete
      else Normal(UNSUPPORTED)
  }

  /** The whole request: verification, then dispatch. */
  function HandleRequest(signature: Option<string>, timestamp: Option<string>, keyVerifies: bool,
                         parsed: Option<Interaction>, env: Env, autocomplete: Completion<Reply>): (r: Completion<Reply>)
    ensures !(Truthy(signature) && Truthy(timestamp) && keyVerifies) ==> r == Normal(BAD_SIGNATURE)
  {
    HandlePost(VerifyDiscordRequest(signature, timestamp, keyVerifies, parsed), env, autocomplete)
  }

  /**
   * A button click never reaches the join, start or life handlers through this
   * worker: MESSAGE_COMPONENT is answered 400 by the arm shared with unknown types.
   */
  lemma ComponentClicksUnsupported(v: Verified, env: Env, autocomplete: Completion<Reply>)
    requires v.isValid && v.interaction.Some? && v.interaction.value.kind == MESSAGE_COMPONENT
    ensures HandlePost(v, env, autocomplete) == Normal(TextReply(400, "Unsupported interaction type."))
  {
  }

  /** A PING is answered from the interaction type alone: no environment or handler is involved. */
  lemma PingIsPong(v: Verified, env1: Env, env2: Env, ac1: Completion<Reply>, ac2: Completion<Reply>)
    requires v.isValid && v.interaction.Some? && v.interaction.value.kind == PING
    ensures HandlePost(v, env1, ac1) == HandlePost(v, env2, ac2) == Normal(JsonReply(Envelope(Pong, NoData)))
  {
  }

  // ---------------------------------------------------------------------------
  // The autocomplete choice builders of the unreachable tail (lines 70-91).

  /** Name suggestions: every upstream name as both label and value, in upstream order. */
  function NameChoices(names: seq<string>): (cs: seq<Choice>)
    ensures |cs| == |names|
    ensures forall k :: 0 <= k < |names| ==> cs[k].name == names[k] && cs[k].value == names[k]
  {
    if names == [] then [] else [Choice(names[0], names[0])] + NameChoices(names[1..])
  }

  /** `startsWith` converts a missing argument to the text "undefined". */
  function PrefixArgument(partial: Option<string>): (p: string)
    ensures partial.None? ==> p == "undefined"
    ensures partial.Some? ==> p == partial.value
  {
    partial.GetOr("undefined")
  }

  /** `mtgset.filter((s) => s.set.startsWith(partial))`. */
  function FilterByPrefix(sets: seq<Scryfall.SetEntry>, prefix: string): (r: seq<Scryfall.SetEntry>)
    ensures |r| <= |sets|
    ensures forall k :: 0 <= k < |r| ==> StartsWith(r[k].setCode, prefix)
    ensures forall x :: x in r <==> x in sets && StartsWith(x.setCode, prefix)
  {
    if sets == [] then []
    else if StartsWith(sets[0].setCode, prefix) then [sets[0]] + FilterByPrefix(sets[1..], prefix)
    else FilterByPrefix(sets[1..], prefix)
  }

  /** A set choice's label: the set code in upper case, then the collector number in parentheses. */
  function SetLabel(s: Scryfall.SetEntry): string {
    Upper(s.setCode) + " (" + s.collectorNumber + ")"
  }

  function SetChoicesOf(sets: seq<Scryfall.SetEntry>): (cs: seq<Choice>)
    ensures |cs| == |sets|
    ensures forall k :: 0 <= k < |sets| ==> cs[k] == Choice(SetLabel(sets[k]), sets[k].setCode)
  {
    if sets == [] then [] else [Choice(SetLabel(sets[0]), sets[0].setCode)] + SetChoicesOf(sets[1..])
  }

  /** Set suggestions: the printings whose set code starts with the typed text, in order, labelled. */
  function SetChoices(sets: seq<Scryfall.SetEntry>, partial: Option<string>): (cs: seq<Choice>)
    ensures forall c :: c in cs ==> exists s :: s in sets && StartsWith(s.setCode, PrefixArgument(partial))
                                                 && c == Choice(SetLabel(s), s.setCode)
    ensures forall s :: s in sets && StartsWith(s.setCode, PrefixArgument(partial)) ==>
      Choice(SetLabel(s), s.setCode) in cs
    ensures cs == SetChoicesOf(FilterByPrefix(sets, PrefixArgument(partial)))
  {
    var kept := FilterByPrefix(sets, PrefixArgument(partial));
    var cs := SetChoicesOf(kept);
    assert forall c :: c in cs ==> exists k :: 0 <= k < |kept| && c == Choice(SetLabel(kept[k]), kept[k].setCode);
    assert forall s :: s in kept ==> exists k :: 0 <= k < |kept| && s == kept[k];
    cs
  }

  /** The reply built around a list of choices. */
  function AutocompleteEnvelope(choices: seq<Choice>): (e: Envelope)
    ensures e.kind == AutocompleteResult && e.kind.Code() == 8 && e.data == Choices(choices)
  {
    Envelope(AutocompleteResult, Choices(choices))
  }

  /** Filtering keeps order: it distributes over concatenation. */
  lemma {:induction false} FilterKeepsOrder(a: seq<Scryfall.SetEntry>, b: seq<Scryfall.SetEntry>, prefix: string)
    ensures FilterByPrefix(a + b, prefix) == FilterByPrefix(a, prefix) + FilterByPrefix(b, prefix)
    decreases |a|
  {
    if a == [] {
      assert a + b == b;
    } else {
      assert (a + b)[0] == a[0];
      assert (a + b)[1..] == a[1..] + b;
      FilterKeepsOrder(a[1..], b, prefix);
    }
  }

  /** An empty typed text keeps every printing. */
  lemma {:induction false} EmptyPrefixKeepsAll(sets: seq<Scryfall.SetEntry>)
    ensures FilterByPrefix(sets, "") == sets
    decreases |sets|
  {
    if sets != [] {
      assert StartsWith(sets[0].setCode, "");
      EmptyPrefixKeepsAll(sets[1..]);
    }
  }
}
