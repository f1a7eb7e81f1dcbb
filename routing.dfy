/**
 * The body of `main`'s polling loop: for each event of one `rtm_read()` batch,
 * skip it, answer it as a command, or merge its text into the author's model and
 * then into the `everyone` model. The Slack transport is left to the caller: a
 * batch comes in as a sequence and the replies go out as a sequence.
 */
module Routing {
  import opened Wrappers
  import opened PyText
  import opened ModelStore
  import opened Command

  /** The fields of an RTM event the loop reads; each may be absent. */
  datatype SlackMessage = SlackMessage(kind: Option<string>, text: Option<string>, user: Option<Key>,
                                       channel: Option<string>)

  /** One `rtm_send_message(channel, text)`. */
  datatype Outgoing = Outgoing(channel: Option<string>, text: string)

  /**
   * The markovify calls ingestion makes. `build` is `markovify.Text(text, state_size=2)`
   * and `combine` is `markovify.combine([a, b])`; both may fail (`None`). `empty` is
   * `markovify.Text("", state_size=2)`, a value assumed to be built without error.
   */
  datatype Markovify<!M> = Markovify(empty: M, build: string -> Option<M>, combine: (M, M) -> Option<M>)

  /** `"<@{}>".format(user_id)`: how a message addresses the bot. */
  function Mention(botId: Key): string {
    "<@" + botId + ">"
  }

  predicate Addressed(text: string, botId: Key) {
    StartsWith(text, Mention(botId))
  }

  /** One `get_markov` / `combine` / `save_markov` round for `key`; `None` when combining or saving raised. */
  function Absorbed<M>(entries: map<Key, Record<M>>, key: Option<Key>, chain: M, lib: Markovify<M>)
    : Option<map<Key, Record<M>>>
  {
    match lib.combine(LoadFrom(entries, key, lib.empty), chain)
    case None => None
    case Some(merged) => SavedTo(entries, key, merged)
  }

  /**
   * The store after the `try` block of an ingested message: `str(text)` raises on
   * non-ASCII text, and a failure at any step stops the remaining steps without
   * undoing the earlier ones.
   */
  function Ingested<M>(entries: map<Key, Record<M>>, text: string, author: Option<Key>, lib: Markovify<M>)
    : map<Key, Record<M>>
  {
    if !IsAscii(text) then entries
    else
      match lib.build(text)
      case None => entries
      case Some(chain) =>
        match Absorbed(entries, author, chain, lib)
        case None => entries
        case Some(afterAuthor) =>
          match Absorbed(afterAuthor, Some(Everyone), chain, lib)
          case None => afterAuthor
          case Some(afterEveryone) => afterEveryone
  }

  /** The store, the reply sent (if any), and whether an exception escaped `main`. */
  datatype Step<M> = Step(entries: map<Key, Record<M>>, reply: Option<Outgoing>, crashed: bool)

  /** One iteration of the `for slack_message in client.rtm_read()` loop. */
  function Handled<M>(entries: map<Key, Record<M>>, msg: SlackMessage, botId: Key, lib: Markovify<M>,
                      makeSentence: M -> Generation): Step<M>
  {
    if msg.kind != Some("message") || msg.text.None? then Step(entries, None, false)
    else if !Addressed(msg.text.value, botId) then
      if msg.user == Some(botId) then Step(entries, None, false)
      else Step(Ingested(entries, msg.text.value, msg.user, lib), None, false)
    else
      match ParseCommand(Drop(Split(msg.text.value), 1), msg.user, entries, lib.empty, makeSentence)
      case Says(reply) => Step(entries, Some(Outgoing(msg.channel, reply)), false)
      case Throws => Step(entries, None, true)
  }

  /** The store, the replies sent in order, and whether the bot stopped on an escaped exception. */
  datatype BatchRun<M> = BatchRun(entries: map<Key, Record<M>>, replies: seq<Outgoing>, crashed: bool)

  /**
   * The loop over one batch. `draws(i)` is what `make_sentence` does for the i-th
   * message: generation is random, so each message gets its own oracle.
   */
  function RunBatch<M>(entries: map<Key, Record<M>>, batch: seq<SlackMessage>, botId: Key, lib: Markovify<M>,
                       draws: nat -> M -> Generation): BatchRun<M>
    decreases |batch|
  {
    if batch == [] then BatchRun(entries, [], false)
    else
      var n := |batch| - 1;
      var before := RunBatch(entries, batch[..n], botId, lib, draws);
      if before.crashed then before
      else
        var s := Handled(before.entries, batch[n], botId, lib, draws(n));
        BatchRun(s.entries, before.replies + (if s.reply.Some? then [s.reply.value] else []), s.crashed)
  }

  /** Lines 136-147: load, combine and save for the author, then for `everyone`. */
  method Ingest<M>(store: Store<M>, text: string, author: Option<Key>, lib: Markovify<M>)
    modifies store
    ensures store.entries == Ingested(old(store.entries), text, author, lib)
  {
    if !IsAscii(text) {
      return;
    }
    var built := lib.build(text);
    if built.None? {
      return;
    }
    var chain := built.value;
    var previous := store.Load(author, lib.empty);
    var merged := lib.combine(previous, chain);
    if merged.None? {
      return;
    }
    var ok := store.Save(author, merged.value);
    if !ok {
      return;
    }
    previous := store.Load(Some(Everyone), lib.empty);
    merged := lib.combine(previous, chain);
    if merged.None? {
      return;
    }
    ok := store.Save(Some(Everyone), merged.value);
  }

  /** One event: skip it, ingest it, or answer it. */
  method HandleMessage<M>(store: Store<M>, msg: SlackMessage, botId: Key, lib: Markovify<M>,
                          makeSentence: M -> Generation) returns (reply: Option<Outgoing>, crashed: bool)
    modifies store
    ensures Step(store.entries, reply, crashed) == Handled(old(store.entries), msg, botId, lib, makeSentence)
  {
    reply, crashed := None, false;
    if msg.kind != Some("message") || msg.text.None? {
      return;
    }
    var text := msg.text.value;
    if !Addressed(text, botId) {
      if msg.user == Some(botId) {
        return;
      }
      Ingest(store, text, msg.user, lib);
    } else {
      var outcome := ParseCommand(Drop(Split(text), 1), msg.user, store.entries, lib.empty, makeSentence);
      match outcome
      case Says(answer) => reply := Some(Outgoing(msg.channel, answer));
      case Throws => crashed := true;
    }
  }

  /** Once the bot has stopped, later messages of the batch change nothing. */
  lemma {:induction false} CrashIsFinal<M>(entries: map<Key, Record<M>>, batch: seq<SlackMessage>, botId: Key,
                                          lib: Markovify<M>, draws: nat -> M -> Generation, i: nat)
    requires i <= |batch|
    requires RunBatch(entries, batch[..i], botId, lib, draws).crashed
    ensures RunBatch(entries, batch, botId, lib, draws) == RunBatch(entries, batch[..i], botId, lib, draws)
    decreases |batch| - i
  {
    if i < |batch| {
      var n := |batch| - 1;
      assert batch[..n][..i] == batch[..i];
      CrashIsFinal(entries, batch[..n], botId, lib, draws, i);
      assert batch[..|batch|] == batch;
    } else {
      assert batch[..i] == batch;
    }
  }

  /** The loop over one `rtm_read()` batch; it stops where an exception escapes. */
  method HandleBatch<M>(store: Store<M>, batch: seq<SlackMessage>, botId: Key, lib: Markovify<M>,
                        draws: nat -> M -> Generation) returns (replies: seq<Outgoing>, crashed: bool)
    modifies store
    ensures BatchRun(store.entries, replies, crashed) == RunBatch(old(store.entries), batch, botId, lib, draws)
  {
    replies, crashed := [], false;
    var i := 0;
    while i < |batch| && !crashed
      invariant 0 <= i <= |batch|
      invariant BatchRun(store.entries, replies, crashed) == RunBatch(old(store.entries), batch[..i], botId, lib, draws)
    {
      assert batch[..i + 1][..i] == batch[..i];
      var reply, stop := HandleMessage(store, batch[i], botId, lib, draws(i));
      if reply.Some? {
        replies := replies + [reply.value];
      }
      crashed := stop;
      i := i + 1;
    }
    if crashed {
      CrashIsFinal(old(store.entries), batch, botId, lib, draws, i);
    } else {
      assert batch[..i] == batch;
    }
  }

  /** A non-`message` event, or one without text, changes no entry and sends nothing. */
  lemma NonMessagesAreSkipped<M>(entries: map<Key, Record<M>>, msg: SlackMessage, botId: Key, lib: Markovify<M>,
                                 makeSentence: M -> Generation)
    requires msg.kind != Some("message") || msg.text.None?
    ensures Handled(entries, msg, botId, lib, makeSentence) == Step(entries, None, false)
  {
  }

  /**
   * Text that starts with the bot's mention changes no entry and gets exactly the
   * reply `parse_command` computes from the tokens after the first, sent to the
   * message's channel; the bot stops only if that computation raised.
   */
  lemma CommandsAreAnswered<M>(entries: map<Key, Record<M>>, msg: SlackMessage, botId: Key, lib: Markovify<M>,
                               makeSentence: M -> Generation)
    requires msg.kind == Some("message") && msg.text.Some?
    requires Addressed(msg.text.value, botId)
    ensures var step := Handled(entries, msg, botId, lib, makeSentence);
      var outcome := ParseCommand(Drop(Split(msg.text.value), 1), msg.user, entries, lib.empty, makeSentence);
      step.entries == entries
      && (step.crashed <==> outcome.Throws?)
      && (outcome.Says? ==> step.reply == Some(Outgoing(msg.channel, outcome.text)))
      && (outcome.Throws? ==> step.reply == None)
  {
  }

  /** A message the bot wrote itself, not addressed to it, changes nothing. */
  lemma OwnMessagesAreIgnored<M>(entries: map<Key, Record<M>>, msg: SlackMessage, botId: Key, lib: Markovify<M>,
                                 makeSentence: M -> Generation)
    requires msg.kind == Some("message") && msg.text.Some?
    requires !Addressed(msg.text.value, botId)
    requires msg.user == Some(botId)
    ensures Handled(entries, msg, botId, lib, makeSentence) == Step(entries, None, false)
  {
  }

  /** Any other message is ingested under its author's key, and no reply is sent. */
  lemma OthersAreIngested<M>(entries: map<Key, Record<M>>, msg: SlackMessage, botId: Key, lib: Markovify<M>,
                             makeSentence: M -> Generation)
    requires msg.kind == Some("message") && msg.text.Some?
    requires !Addressed(msg.text.value, botId)
    requires msg.user != Some(botId)
    ensures Handled(entries, msg, botId, lib, makeSentence)
              == Step(Ingested(entries, msg.text.value, msg.user, lib), None, false)
  {
  }

  /** Ingestion touches the author's key and `everyone`, and no other key. */
  lemma IngestTouchesOnlyAuthorAndEveryone<M>(entries: map<Key, Record<M>>, text: string, author: Option<Key>,
                                              lib: Markovify<M>, k: Key)
    requires k != Everyone && author != Some(k)
    ensures var after := Ingested(entries, text, author, lib);
      (k in after <==> k in entries) && (k in entries ==> after[k] == entries[k])
  {
  }

  /**
   * When every step succeeds the author's key holds `combine(load(author), chain)`,
   * and `everyone` then holds `combine(load(everyone), chain)`, read after the
   * author's save.
   */
  lemma IngestUpdatesAuthorThenEveryone<M>(entries: map<Key, Record<M>>, text: string, author: Key,
                                           lib: Markovify<M>, chain: M, forAuthor: M, forEveryone: M)
    requires IsAscii(text) && lib.build(text) == Some(chain)
    requires lib.combine(LoadFrom(entries, Some(author), lib.empty), chain) == Some(forAuthor)
    requires var afterAuthor := entries[author := Stored(forAuthor)];
      lib.combine(LoadFrom(afterAuthor, Some(Everyone), lib.empty), chain) == Some(forEveryone)
    ensures Ingested(entries, text, Some(author), lib)
              == entries[author := Stored(forAuthor)][Everyone := Stored(forEveryone)]
  {
  }

  /** If merging into `everyone` fails, the author's update stays: there is no rollback. */
  lemma FailureKeepsEarlierUpdate<M>(entries: map<Key, Record<M>>, text: string, author: Key,
                                     lib: Markovify<M>, chain: M, forAuthor: M)
    requires IsAscii(text) && lib.build(text) == Some(chain)
    requires lib.combine(LoadFrom(entries, Some(author), lib.empty), chain) == Some(forAuthor)
    requires var afterAuthor := entries[author := Stored(forAuthor)];
      lib.combine(LoadFrom(afterAuthor, Some(Everyone), lib.empty), chain) == None
    ensures Ingested(entries, text, Some(author), lib) == entries[author := Stored(forAuthor)]
  {
  }

  /**
   * Ingestion that fails before the author's save changes nothing: non-ASCII text
   * (`str(text)` raises), a text markovify cannot build, or an event without a user
   * (`save_markov(None, ...)` raises, so `everyone` is never reached either).
   */
  lemma EarlyFailureChangesNothing<M>(entries: map<Key, Record<M>>, text: string, author: Option<Key>,
                                      lib: Markovify<M>)
    requires !IsAscii(text) || lib.build(text).None? || author.None?
    ensures Ingested(entries, text, author, lib) == entries
  {
  }

  /** Events that cannot change the store: skipped ones, commands, and the bot's own messages. */
  predicate Passive(msg: SlackMessage, botId: Key) {
    msg.kind != Some("message") || msg.text.None? || Addressed(msg.text.value, botId) || msg.user == Some(botId)
  }

  /** A batch of such events leaves every stored model as it was. */
  lemma {:induction false} PassiveBatchKeepsStore<M>(entries: map<Key, Record<M>>, batch: seq<SlackMessage>,
                                                     botId: Key, lib: Markovify<M>, draws: nat -> M -> Generation)
    requires forall i :: 0 <= i < |batch| ==> Passive(batch[i], botId)
    ensures RunBatch(entries, batch, botId, lib, draws).entries == entries
    decreases |batch|
  {
    if batch != [] {
      var n := |batch| - 1;
      PassiveBatchKeepsStore(entries, batch[..n], botId, lib, draws);
    }
  }

  /** Whether `k` is the author of some message of the batch. */
  predicate AuthoredBy(batch: seq<SlackMessage>, k: Key) {
    exists i :: 0 <= i < |batch| && batch[i].user == Some(k)
  }

  /** Over a whole batch, a key other than `everyone` changes only if one of the batch's messages is by it. */
  lemma {:induction false} BatchTouchesOnlyAuthors<M>(entries: map<Key, Record<M>>, batch: seq<SlackMessage>,
                                                      botId: Key, lib: Markovify<M>, draws: nat -> M -> Generation,
                                                      k: Key)
    requires k != Everyone && !AuthoredBy(batch, k)
    ensures var after := RunBatch(entries, batch, botId, lib, draws).entries;
      (k in after <==> k in entries) && (k in entries ==> after[k] == entries[k])
    decreases |batch|
  {
    if batch != [] {
      var n := |batch| - 1;
      assert !AuthoredBy(batch[..n], k) by {
        forall i | 0 <= i < n ensures batch[..n][i].user != Some(k) {
          assert batch[..n][i] == batch[i];
        }
      }
      BatchTouchesOnlyAuthors(entries, batch[..n], botId, lib, draws, k);
      var before := RunBatch(entries, batch[..n], botId, lib, draws);
      if !before.crashed {
        var msg := batch[n];
        assert msg.user != Some(k);
        if msg.kind == Some("message") && msg.text.Some? && !Addressed(msg.text.value, botId) && msg.user != Some(botId) {
          IngestTouchesOnlyAuthorAndEveryone(before.entries, msg.text.value, msg.user, lib, k);
        }
      }
    }
  }

  /** How many events of the batch are messages addressed to the bot. */
  function CommandCount(batch: seq<SlackMessage>, botId: Key): nat {
    if batch == [] then 0
    else
      var last := batch[|batch| - 1];
      CommandCount(batch[..|batch| - 1], botId)
        + (if last.kind == Some("message") && last.text.Some? && Addressed(last.text.value, botId) then 1 else 0)
  }

  /** No more replies than messages addressed to the bot. */
  lemma {:induction false} RepliesAnswerCommands<M>(entries: map<Key, Record<M>>, batch: seq<SlackMessage>,
                                                    botId: Key, lib: Markovify<M>, draws: nat -> M -> Generation)
    ensures |RunBatch(entries, batch, botId, lib, draws).replies| <= CommandCount(batch, botId)
    decreases |batch|
  {
    if batch != [] {
      RepliesAnswerCommands(entries, batch[..|batch| - 1], botId, lib, draws);
    }
  }

  /**
   * What a user types as `<@bot> w1 w2 ...` reaches `parse_command` as `[w1, w2, ...]`,
   * whatever whitespace separates the words or trails them.
   */
  lemma CommandTokensFollowMention(botId: Key, words: seq<string>, gaps: seq<string>)
    requires IsToken(Mention(botId))
    requires forall i :: 0 <= i < |words| ==> IsToken(words[i])
    requires Separates([Mention(botId)] + words, gaps)
    ensures Drop(Split(Interleave([Mention(botId)] + words, gaps)), 1) == words
  {
    var all := [Mention(botId)] + words;
    assert forall i :: 0 <= i < |all| ==> IsToken(all[i]);
    SplitInterleaved(all, gaps);
    assert all[1..] == words;
  }

  /** A mention glued to the first word swallows it: `<@bot>impersonate me` is the token list `["me"]`. */
  lemma GluedMentionLosesFirstWord(botId: Key, first: string, rest: seq<string>, gaps: seq<string>)
    requires IsToken(Mention(botId) + first)
    requires forall i :: 0 <= i < |rest| ==> IsToken(rest[i])
    requires Separates([Mention(botId) + first] + rest, gaps)
    ensures Drop(Split(Interleave([Mention(botId) + first] + rest, gaps)), 1) == rest
  {
    var all := [Mention(botId) + first] + rest;
    assert forall i :: 0 <= i < |all| ==> IsToken(all[i]);
    SplitInterleaved(all, gaps);
    assert all[1..] == rest;
  }
}
