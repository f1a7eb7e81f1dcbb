/**
 * `parse_command`: turns the tokens that follow the bot mention into the reply
 * text. The argparse front end is modelled by `ParseArgs`, `make_sentence` by a
 * caller-supplied oracle, and `get_markov` by `LoadFrom` on the store's files.
 */
module Command {
  import opened Wrappers
  import opened PyText
  import opened UserIdPattern
  import opened ModelStore

  /** The key of the aggregate model every ingested message is merged into. */
  const Everyone: Key := "everyone"
  const UnknownCommand: string := "Unknown command"
  const AskWho: string := "Who should I impersonate?"
  const NotRecognised: string := "I don't recognize user "

  /** What `parser.parse_known_args(command)` yields: the `impersonate` namespace, or an `ArgumentParserError`. */
  datatype Args = Impersonate(user: Option<string>) | ArgError

  /** What `markov.make_sentence()` does: raise, or return a sentence or `None`. */
  datatype Generation = Raises | Returns(sentence: Option<string>)

  /** What `parse_command` does: return a reply, or let an exception other than `ArgumentParserError` escape. */
  datatype Outcome = Says(text: string) | Throws

  /** The key an `impersonate` target names, if it names one. */
  datatype Target = Resolved(uid: Option<Key>) | Unrecognized

  /**
   * The parser with one sub-command `impersonate` and one required positional `user`.
   * With no token or an unknown sub-command argparse reports an error, and so it does
   * when `user` is missing; tokens after the user are left in `other_args`.
   */
  function ParseArgs(tokens: seq<string>): (a: Args)
    ensures a.Impersonate? <==> |tokens| >= 2 && tokens[0] == "impersonate"
    ensures a.Impersonate? ==> a.user == Some(tokens[1])
  {
    if |tokens| == 0 then ArgError
    else if tokens[0] != "impersonate" then ArgError
    else if |tokens| == 1 then ArgError
    else Impersonate(Some(tokens[1]))
  }

  /** `me` (any letter case) first, then the two spellings of everyone, then `USER_ID_REGEX`. */
  function ResolveTarget(user: string, requester: Option<Key>): (t: Target)
    ensures IsMe(user) ==> t == Resolved(requester)
    ensures (!IsMe(user) && (user == "everyone" || user == "<!everyone>")) ==> t == Resolved(Some(Everyone))
    ensures t == Unrecognized <==>
              (!IsMe(user) && user != "everyone" && user != "<!everyone>" && forall k :: !MatchEndsAt(user, k))
    ensures (!IsMe(user) && user != "everyone" && user != "<!everyone>" && t.Resolved?) ==>
              t.uid.Some? && |t.uid.value| > 0 && StartsWithMention(user, t.uid.value)
    ensures (IsAscii(user) && IsAscii(ShowOption(requester)) && t.Resolved?) ==> IsAscii(ShowOption(t.uid))
  {
    if IsMe(user) then Resolved(requester)
    else if user == "<!everyone>" || user == "everyone" then Resolved(Some(Everyone))
    else
      match UserId(user)
      case Some(id) => Resolved(Some(id))
      case None => Unrecognized
  }

  /** `"Could not impersonate <@{}>, not enough data".format(uid)`. */
  function NotEnoughData(uid: Option<Key>): (r: Outcome)
    ensures r.Says? <==> IsAscii(ShowOption(uid))
    ensures r.Says? ==> r.text != ""
  {
    match FormatWith("Could not impersonate <@", ShowOption(uid), ">, not enough data")
    case Some(t) => Says(t)
    case None => Throws
  }

  /** The sentence when it is a non-empty string, the "not enough data" reply otherwise. */
  function SentenceOrExcuse(uid: Option<Key>, g: Generation): (r: Outcome)
    ensures IsAscii(ShowOption(uid)) ==> r.Says?
  {
    match g
    case Raises => NotEnoughData(uid)
    case Returns(s) => if s.Some? && s.value != "" then Says(s.value) else NotEnoughData(uid)
  }

  /**
   * `parse_command(command, message)`, with `message.get("user")` as `requester`.
   * Only formatting a non-ASCII target or key can raise out of it; every argument
   * error is caught, so ASCII input always gets a reply.
   */
  function ParseCommand<M>(tokens: seq<string>, requester: Option<Key>, entries: map<Key, Record<M>>,
                           empty: M, makeSentence: M -> Generation): (r: Outcome)
    ensures ((forall i :: 0 <= i < |tokens| ==> IsAscii(tokens[i])) && IsAscii(ShowOption(requester))) ==> r.Says?
  {
    match ParseArgs(tokens)
    case ArgError => Says(UnknownCommand)
    case Impersonate(user) =>
      if user.None? then Says(AskWho)
      else
        match ResolveTarget(user.value, requester)
        case Unrecognized =>
          (match FormatWith(NotRecognised, user.value, "")
           case Some(t) => Says(t)
           case None => Throws)
        case Resolved(uid) => SentenceOrExcuse(uid, makeSentence(LoadFrom(entries, uid, empty)))
  }

  /** No token list, an unknown sub-command or a missing user all end as "Unknown command". */
  lemma ArgErrorsAreUnknownCommand<M>(tokens: seq<string>, requester: Option<Key>, entries: map<Key, Record<M>>,
                                      empty: M, makeSentence: M -> Generation)
    requires |tokens| < 2 || tokens[0] != "impersonate"
    ensures ParseCommand(tokens, requester, entries, empty, makeSentence) == Says(UnknownCommand)
  {
  }

  /**
   * An unrecognised target gets the fixed reply whatever the store holds and whatever
   * generation would do: no model is loaded.
   */
  lemma UnrecognisedTargetReply<M>(tokens: seq<string>, requester: Option<Key>, entries: map<Key, Record<M>>,
                                   empty: M, makeSentence: M -> Generation)
    requires |tokens| >= 2 && tokens[0] == "impersonate"
    requires ResolveTarget(tokens[1], requester) == Unrecognized
    ensures ParseCommand(tokens, requester, entries, empty, makeSentence)
              == if IsAscii(tokens[1]) then Says(NotRecognised + tokens[1]) else Throws
  {
  }

  /**
   * A resolved target replies with the generated sentence unchanged when it is a
   * non-empty string, and with "Could not impersonate <@uid>, not enough data" when
   * generation raised or gave `None` or "".
   */
  lemma ResolvedTargetReply<M>(tokens: seq<string>, requester: Option<Key>, entries: map<Key, Record<M>>,
                               empty: M, makeSentence: M -> Generation)
    requires |tokens| >= 2 && tokens[0] == "impersonate"
    requires ResolveTarget(tokens[1], requester).Resolved?
    ensures var uid := ResolveTarget(tokens[1], requester).uid;
      var g := makeSentence(LoadFrom(entries, uid, empty));
      var excuse := "Could not impersonate <@" + ShowOption(uid) + ">, not enough data";
      ParseCommand(tokens, requester, entries, empty, makeSentence)
        == if g.Returns? && g.sentence.Some? && g.sentence.value != "" then Says(g.sentence.value)
           else if IsAscii(ShowOption(uid)) then Says(excuse)
           else Throws
  {
  }

  /** The argparse front end never yields a missing user, so "Who should I impersonate?" is only ever a generated sentence. */
  lemma NeverAsksWho<M>(tokens: seq<string>, requester: Option<Key>, entries: map<Key, Record<M>>,
                        empty: M, makeSentence: M -> Generation)
    requires ParseCommand(tokens, requester, entries, empty, makeSentence) == Says(AskWho)
    ensures |tokens| >= 2 && ResolveTarget(tokens[1], requester).Resolved?
    ensures makeSentence(LoadFrom(entries, ResolveTarget(tokens[1], requester).uid, empty)) == Returns(Some(AskWho))
  {
    assert NotRecognised[0] != AskWho[0];
    assert "Could not impersonate <@"[0] != AskWho[0];
  }

  /** `impersonate me` from U1 with no record, or a corrupt one, for U1. */
  lemma ImpersonateMeWithoutData<M>(entries: map<Key, Record<M>>, empty: M, makeSentence: M -> Generation)
    requires "U1" !in entries || entries["U1"] == Corrupt
    requires makeSentence(empty) == Raises || makeSentence(empty) == Returns(None)
    ensures ParseCommand(["impersonate", "me"], Some("U1"), entries, empty, makeSentence)
              == Says("Could not impersonate <@U1>, not enough data")
  {
    var tokens := ["impersonate", "me"];
    assert IsMe(tokens[1]);
    ResolvedTargetReply(tokens, Some("U1"), entries, empty, makeSentence);
    assert LoadFrom(entries, Some("U1"), empty) == empty;
    assert "Could not impersonate <@" + "U1" + ">, not enough data" == "Could not impersonate <@U1>, not enough data";
  }
}
