# Andrey3000 in Dafny

Andrey3000 is a Slack bot. It learns a Markov text model from the messages
it sees, except those addressed to it, its own, and those it cannot ingest
(non-ASCII text, for one). It keeps one model per author and one aggregate model under the key
`everyone`. When someone addresses it with `<@bot> impersonate <target>`, it
replies with a sentence generated in the target's style.

This project models the bot's own decision logic in `andrey.py`. The Slack
client and the markovify library stay outside the model.

- **Command dispatch** (`parse_command`), in `command.dfy`:
  - the argparse front end, as `ParseArgs`;
  - resolving the target: `me` in any letter case, `everyone` or
    `<!everyone>`, or a `<@ID>` mention matched by `USER_ID_REGEX`
    (`userid.dfy`);
  - the fixed replies "Unknown command", "I don't recognize user …" and
    "Could not impersonate <@…>, not enough data".
- **Model store** (`get_markov` / `save_markov`), in `store.dfy`. It is a class
  whose `map` field holds one record per key. A record is a readable model or a
  corrupt file. Loading a key that is absent, corrupt or `None` gives the empty
  model. Saving overwrites one key.
- **Message routing and ingestion** (the body of `main`'s loop), in
  `routing.dfy`:
  - `Ingest` does the load–combine–save for the author and then for
    `everyone`;
  - `HandleMessage` handles one event, and `HandleBatch` loops over one
    `rtm_read()` batch.
  Each method is proved against a specification function: `Ingested`,
  `Handled` or `RunBatch`.
- **Python 2 string behaviour** the code depends on, in `pytext.dfy`:
  - `unicode.split()`, with Python 2.7's whitespace set;
  - `startswith`;
  - the `lower() == "me"` test;
  - `str.format` on a byte-string template. It raises `UnicodeEncodeError`
    when the argument is not ASCII.

The Markov model is a type parameter `M`. The markovify calls are passed in
(`Routing.Markovify`):

- `markovify.Text(text, state_size=2)`, as a function that may fail;
- `markovify.combine`, as a function that may fail;
- the empty `markovify.Text("", state_size=2)`, as a plain value, assumed to
  be built without error.

`make_sentence` is a function from a model to a `Command.Generation`. It may
raise, return `None` or return a string. A batch gives each message its own
such function, because generation is random.

Exceptions are modelled explicitly:

- In ingestion, a failure stops the remaining steps. Earlier saves stay in
  place.
- `parse_command` catches only `ArgumentParserError`. Any other exception it
  raises also escapes `main`. That is `Command.Outcome.Throws` and
  `crashed = true`, and the rest of the batch is not handled. The only such
  exception in the model is a formatting error on a non-ASCII target or key.

Some behaviour one might expect from such a bot is absent from the code, and the model follows the code:

- The code has no `write` command, and no `do` or `spoof` alias.
- A bare `impersonate` gets "Unknown command", not "Who should I impersonate?".
  The positional `user` has no `nargs`, so argparse requires it. The branch at
  andrey.py:59-60 is kept but is unreachable (`Command.NeverAsksWho`).
- The store has only the "chains" directory.

## Model

| member | source | states |
|---|---|---|
| `PyText.Split` | andrey.py:149 | `text.split()` returns only non-empty tokens that contain no whitespace |
| `PyText.SplitInterleaved` | andrey.py:149 | `split()` of tokens separated by any non-empty whitespace runs, with any trailing whitespace, gives back exactly those tokens in order: the tokens are the maximal whitespace-free runs |
| `PyText.SplitInterleavedAfterBlank` | andrey.py:149 | leading whitespace before such a text does not change the tokens either |
| `PyText.SplitKeepsNonSpace` | andrey.py:149 | `split()` drops whitespace and nothing else: the tokens concatenated are the text's non-blank characters in order |
| `PyText.MeInAnyCase` | andrey.py:61 | `user.lower() == "me"` holds exactly for `me`, `mE`, `Me` and `ME` |
| `PyText.FormatWith` | andrey.py:68 | formatting into a byte-string template raises exactly when the argument is not ASCII; otherwise the argument can be read back from the result, between the template's prefix and suffix, at the prefix's length |
| `UserIdPattern.CaptureEnd` | andrey.py:11 | the anchored match of `<@(.+?)>` succeeds exactly when some end index matches; the end it returns matches, and no earlier end does (laziness) |
| `UserIdPattern.UserId` | andrey.py:66-69 | a captured id is non-empty, and the target starts with `<@` + id + `>` |
| `UserIdPattern.MentionYieldsId` | andrey.py:11 | `<@id>` followed by any text yields `id` when `id` has no newline and no `>` after its first character: trailing text is ignored |
| `UserIdPattern.NoCloseNoMatch` | andrey.py:11 | a target with no `>` from its fourth character on is not recognised |
| `ModelStore.Store.Load` | andrey.py:36-41 | returns the stored model for the key, or the empty model when the key is `None`, missing or corrupt (`ModelStore.LoadFrom`); the store is not changed |
| `ModelStore.Store.Save` | andrey.py:43-45 | overwrites exactly the key's record with the model; a `None` key raises and nothing changes (`ModelStore.SavedTo`) |
| `ModelStore.LoadAfterSave` | andrey.py:36-45 | loading a key right after saving it gives back the saved model |
| `ModelStore.SaveKeepsOtherKeys` | andrey.py:43-45 | saving one key leaves every other key's record, its presence, and what it loads unchanged |
| `ModelStore.LoadDefaultsToEmpty` | andrey.py:36-41 | a missing, corrupt or `None` key loads as the empty model, never as an error |
| `Command.ParseArgs` | andrey.py:49-56 | parsing succeeds exactly when the first token is `impersonate` and a second token follows; the user is then that second token (never `None`); later tokens are ignored |
| `Command.ResolveTarget` | andrey.py:61-69 | `me` in any case resolves to the requester and is tried first; exactly `everyone` or `<!everyone>` resolves to `everyone`; any other target is unrecognised exactly when the pattern matches at no end index, and otherwise resolves to an id that the target starts with as `<@id>`; an ASCII target and requester resolve to an ASCII key |
| `Command.ArgErrorsAreUnknownCommand` | andrey.py:78-81 | an empty token list, a first token other than `impersonate`, or a missing user gives exactly "Unknown command" |
| `Command.UnrecognisedTargetReply` | andrey.py:65-68 | an unrecognised ASCII target gives exactly "I don't recognize user " + target, whatever the store and generator; a non-ASCII one raises |
| `Command.ResolvedTargetReply` | andrey.py:70-77 | a resolved target gets the generated sentence unchanged when it is a non-empty string; otherwise "Could not impersonate <@uid>, not enough data" (`None` printed as `None`), or a raise for a non-ASCII uid (`Command.SentenceOrExcuse`) |
| `Command.ParseCommand` | andrey.py:48-81 | with ASCII tokens and requester, `parse_command` always returns a reply: argument errors never escape, and only formatting a non-ASCII target or key can raise |
| `Command.NotEnoughData` | andrey.py:74-76 | the "not enough data" reply raises exactly when the key's text is not ASCII, and is otherwise non-empty, so the `if not sentence` test never replaces it |
| `Command.NeverAsksWho` | andrey.py:59-60 | "Who should I impersonate?" comes back only when the generator itself produced that sentence for a resolved target |
| `Command.ImpersonateMeWithoutData` | andrey.py:61-76 | `impersonate me` from U1, with no record for U1 or a corrupt one, replies "Could not impersonate <@U1>, not enough data" |
| `Routing.Ingest` | andrey.py:136-147 | the store after ingesting is `Ingested` of the store before: author first, then `everyone`, stopping at the first failure without rollback |
| `Routing.HandleMessage` | andrey.py:129-150 | store, reply and crash flag after one event are those `Handled` gives for the store before |
| `Routing.HandleBatch` | andrey.py:128-150 | store, replies in order, and crash flag after the loop are those `RunBatch` gives; the loop stops at an escaped exception |
| `Routing.CrashIsFinal` | andrey.py:148-150 | once an exception has escaped, the later messages of the batch change nothing and send nothing |
| `Routing.NonMessagesAreSkipped` | andrey.py:129-132 | an event that is not of type message, or has no text, changes no entry and sends no reply |
| `Routing.CommandsAreAnswered` | andrey.py:148-150 | text starting with `<@botid>` changes no entry, and sends exactly the reply `parse_command` gives for the tokens after the first, to the event's channel; the bot stops exactly when that raises |
| `Routing.OwnMessagesAreIgnored` | andrey.py:133-135 | a non-addressed message from the bot's own id changes nothing and sends nothing |
| `Routing.OthersAreIngested` | andrey.py:133-147 | any other non-addressed message is ingested under its author's key and sends no reply |
| `Routing.IngestTouchesOnlyAuthorAndEveryone` | andrey.py:136-147 | ingestion leaves every key other than the author's and `everyone` unchanged |
| `Routing.IngestUpdatesAuthorThenEveryone` | andrey.py:137-144 | when every step succeeds, the author's key holds combine(load(author), chain); then `everyone` holds combine(load(everyone), chain), read after the author's save (each round is `Routing.Absorbed`: load, combine, save) |
| `Routing.FailureKeepsEarlierUpdate` | andrey.py:136-147 | if merging into `everyone` fails, the author's update stays |
| `Routing.EarlyFailureChangesNothing` | andrey.py:137-140 | non-ASCII text, a failed build, or a missing author changes no entry |
| `Routing.PassiveBatchKeepsStore` | andrey.py:128-150 | a batch of skipped events, commands and the bot's own messages leaves the store unchanged |
| `Routing.BatchTouchesOnlyAuthors` | andrey.py:128-147 | over a whole batch, a key other than `everyone` changes only if one of the batch's messages has that author |
| `Routing.RepliesAnswerCommands` | andrey.py:128-150 | a batch sends at most one reply per message addressed to the bot |
| `Routing.CommandTokensFollowMention` | andrey.py:149 | `<@bot>` then `w1 w2 …`, separated by any non-empty whitespace runs and with any trailing whitespace, reaches `parse_command` as `[w1, w2, …]` |
| `Routing.GluedMentionLosesFirstWord` | andrey.py:149 | `<@bot>w1 w2 …` with no whitespace after the mention reaches `parse_command` as `[w2, …]`, whatever whitespace separates the rest |

## Left out

- The Slack transport is not modelled: `rtm_connect`, `rtm_read`, `rtm_send_message` and `api_call`. Neither is the `while True` loop with its `time.sleep`, nor the bot-id lookup (andrey.py:112-127, 152). This is network I/O and scheduling. A batch is an input sequence, and the replies are an output sequence.
- Token discovery from file, environment and command line is not modelled, nor the `-1` exit (andrey.py:87-110). This is configuration plumbing.
- Creating the settings and chains directories is not modelled, nor the Windows `win32com` path lookup (andrey.py:15-27). This is filesystem setup.
- The internals of markovify are not modelled: sentence splitting, chain building, the random walk in `make_sentence`, and JSON (de)serialisation. The model type is abstract. `build`, `combine` and `make_sentence` are caller-supplied functions, and no algebraic law is claimed for `combine`.
- `Command.ParseArgs` treats every token as an ordinary word. argparse reads a token of two or more characters that begins with `-` and is not a negative number as an option: `-h`, `--help`, `--` or `-x`. `-h`/`--help` print usage and exit through `SystemExit`; `--` ends the options; other option-like tokens go to `other_args`. That is argparse's own behaviour, not this program's. A lone `-` and negative numbers such as `-5` or `-.5` are positionals for argparse too (this parser defines no option that looks like a negative number), so for them the model matches: `impersonate -5` gets "I don't recognize user -5".
- `PyText.Lower` lower-cases only ASCII letters. Its one use is the comparison with `me`, and no other character lower-cases to `m` or `e`, so the test gives the same answer as Python's Unicode `lower()`.
- `ModelStore.LoadAfterSave` holds because a record holds the model itself. It assumes `from_json(to_json(m))` gives back a model equal to `m`. markovify's serialisation is not part of this model.
- `ModelStore.Store.Load` treats keys as opaque strings, not path names. The code builds the file name with `os.path.join`, so a target such as `<@./U1>` or `<@../chains/U1>` reads U1's file. The model looks up a distinct key that has no record and replies "not enough data".
- `ModelStore.Store.Save` fails only for a `None` key. Other write errors are not modelled: permissions, a full disk, or a key holding `/` that names a missing directory. Neither is the truncated file that `open(..., "w")` leaves when writing fails afterwards. Keys are opaque strings, not path names.
- `Routing.Mention` assumes the bot's own id is ASCII, as Slack ids are. Otherwise the `format` at andrey.py:133 would raise outside any `try`.
- A failed `rtm_send_message` is not modelled.
- `Routing.Markovify` takes the empty model as a value, so a raising `markovify.Text("", state_size=2)` is not modelled. In the code that constructor sits inside `get_markov`'s `except` (andrey.py:40-41). If it raised, `get_markov` would raise, a command for a key with no file would stop the bot, and such a key could never be ingested.
- `Routing.HandleMessage` does not model the `print e` / `print text` logging in the ingestion handler (andrey.py:145-147). It assumes a standard output that can print the text. Under Python 2, `print text` raises `UnicodeEncodeError` for non-ASCII text when stdout has no Unicode encoding, for example when output is redirected or `LANG=C`. Every non-ASCII message reaches that handler, because `str(text)` raises first. That raise would escape `main` and stop the bot. The model instead leaves the store unchanged and carries on.
