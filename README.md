# File-relay bot: a Dafny model

The bot lets one configured owner upload files to a Telegram chat, save them as a batch under an
eight-character share code, and give out a deep link `https://t.me/<bot>?start=<code>`. Anyone who
opens the link gets the batch replayed, each file with the send verb of its modality. The owner can
also list their saved files and delete a batch by code.

The model keeps the bot's two MongoDB collections as sequences in insertion order:
- `staged` is the staging collection (`temp_files`);
- `committed` is the collection of saved files (`files`).

A store `find(filter)` is `Collections.Filter(table, p)`. A `delete_many(filter)` keeps
`Filter(table, Not(p))`. Each handler is a method of `Bot.FileBot` that returns the reply it would
send as a `Reply` value: a text, no reply, or the sequence of media replays.

Files:
- `wrappers.dfy`: `Option`, used for absent message fields and the `None` caption.
- `collections.dfy`: the order-preserving filter and its laws (append, partition, narrowing).
- `share_code.dfy`: the 62-character alphabet and `GenerateCode`. Code generation is a bijection
  between draws and valid codes.
- `media.dfy`: the inbound message, its classification into one of eight modalities, and the
  total dispatch from a stored type tag to a replay verb.
- `bot.dfy`: the records, the store filters the handlers use, the lemmas about commit, lookup,
  delete and listing, the `FileBot` class, and an end-to-end scenario (`Scenario`) whose
  outcome is proved from the handlers' contracts.

Inputs the program takes from its environment are parameters:
- the owner id is the constructor argument;
- the random draws of `generate_code` are `SaveFiles`'s `picks`;
- the bot's user name in the deep link is `SaveFiles`'s `botUsername`;
- the command arguments are `args`.

## Model

| member | source | states |
|---|---|---|
| `Collections.Filter` | bot.py:96 | a store query returns exactly the records that match the filter, never more than the table holds |
| `Collections.FilterAppend` | bot.py:81-89 | filtering a table with appended records gives the old matches followed by the new matches, so store order is kept |
| `Collections.FilterPartition` | bot.py:138 | `delete_many` splits the table into kept and removed records, and together they are the old table's multiset |
| `Collections.FilterNarrow` | bot.py:89 | a delete by one filter leaves any narrower query, whose matches the delete never touches, unchanged |
| `Collections.FilterAll` | bot.py:96 | a query that every record matches returns the whole table in order |
| `ShareCode.Alphabet` | bot.py:19 | `ascii_letters + digits` has 62 characters |
| `ShareCode.AlphabetIsAlnum` | bot.py:19 | every alphabet character is an ASCII letter or digit, and no character occurs at two positions |
| `ShareCode.AlphabetIndex` | bot.py:19 | every ASCII letter or digit occurs in the alphabet |
| `ShareCode.GenerateCode` | bot.py:18-19 | a generated code is 8 ASCII letters or digits, the character at each position being the one drawn |
| `ShareCode.CodePicks` | bot.py:19 | every valid code corresponds to a valid sequence of 8 draws |
| `ShareCode.CodeRoundTrip` | bot.py:18-19 | draws and codes are in bijection: every valid code can be generated, and by exactly one draw |
| `Media.Classify` | bot.py:31-56 | classification yields one of the eight type tags, or nothing for an unsupported message |
| `Media.ClassifyFirstPresent` | bot.py:31-54 | the first present modality in the order document, photo, audio, video, voice, video_note, animation, sticker decides the type; a photo contributes its last size's id |
| `Media.ClassifyNoneIffNoAttachment` | bot.py:55-56 | a message is ignored if and only if it carries none of the eight attachments |
| `Media.VerbFor` | bot.py:102-117 | seven tags select their own verb; every other string, "document" included, selects the document verb |
| `Media.VerbRoundTrip` | bot.py:102-117 | an uploaded modality is replayed with its own verb, and each verb is selected by its own tag |
| `Media.ReplayFor` | bot.py:98-117 | a replay sends the stored file id with the type's verb; video notes and stickers drop the caption and all others carry it |
| `Bot.Lookup` | bot.py:96 | retrieval finds exactly the committed records whose code equals the argument |
| `Bot.Tagged` | bot.py:81-88 | a commit writes one record per staged record, each with the new code and the caller's id |
| `Bot.CommitRoundTrip` | bot.py:81-88 | committed records keep each staged record's file id, type and caption, in order |
| `Bot.CommitClearsCaller` | bot.py:89 | after a commit the caller has no staged record |
| `Bot.CommitKeepsOthers` | bot.py:89 | a commit leaves other users' staged records unchanged and removes exactly the caller's |
| `Bot.CommitThenLookup` | bot.py:75-96 | with no collision check, a lookup after a commit gives the code's earlier records followed by the new batch; for an unused code it gives exactly the batch |
| `Bot.DeleteExact` | bot.py:138 | a delete removes exactly the records matching both code and caller; every other record survives and nothing is duplicated |
| `Bot.DeleteKeepsOtherCodes` | bot.py:138 | a delete does not change what any other code retrieves |
| `Bot.DeleteKeepsOtherOwners` | bot.py:138 | a delete does not change any other owner's records |
| `Bot.JoinedAppend` | bot.py:152-158 | the listing built by `response +=` composes over runs of records |
| `Bot.ListingShowsEachRecord` | bot.py:153-158 | every listed record contributes its own line, in table order |
| `Bot.SavedReply` | bot.py:90-91 | the save reply's deep link ends in `?start=<code>` |
| `Bot.FileBot.constructor` | bot.py:12-16 | a new bot has the configured owner and two empty tables |
| `Bot.FileBot.FileHandler` | bot.py:21-66 | a non-owner gets the upload refusal whatever the message; an unsupported message changes nothing and gets no reply; otherwise exactly one staged record with the caller, file id, type and caption is appended |
| `Bot.FileBot.SaveFiles` | bot.py:68-91 | a non-owner is refused; with nothing staged the reply is "No files found! ..."; both leave the tables unchanged. Otherwise the caller's staged records are appended to the committed table under the generated code, and the caller's staged records are cleared |
| `Bot.FileBot.Start` | bot.py:93-121 | no argument gives the welcome text; no match gives "Invalid or expired link."; otherwise one replay per matching record, in table order; nothing changes |
| `Bot.FileBot.DeleteFiles` | bot.py:123-139 | a non-owner is refused; a missing code gives the usage text; no record with both the code and the caller's id gives the not-found text; all leave the tables unchanged. Otherwise exactly those records are removed |
| `Bot.FileBot.ViewFiles` | bot.py:141-159 | a non-owner is refused; with no record owned by the configured owner the reply is "No files found."; otherwise the header followed by one line per such record |

## Left out

- MongoDB client construction and the environment variables `MONGO_URI`, `OWNER_ID` and `TOKEN`
  (bot.py:8-16, bot.py:162). The tables are in-memory sequences; the owner id is a constructor
  argument.
- The Telegram transport: `async` handlers, `reply_*` calls, and update parsing beyond the fields in
  `Media.Message`. Replies are returned as values, and `context.bot.username` is a parameter.
- The distribution of `random.choices` (bot.py:19). The draws are a parameter, constrained only to
  be 8 alphabet positions.
- `main()`, the handler registration and polling (bot.py:161-184). The message filters there route
  exactly the eight modalities to the upload handler; `FileHandler` accepts any message and ignores
  unsupported ones, as the handler itself does.
- Concurrency between handlers, and store failures partway through the commit loop. The source has
  no locking or transactions; the model runs each handler to completion.
- Result order: every query result is taken in insertion order. A MongoDB `find` without a sort
  (bot.py:76, bot.py:96, bot.py:147) promises no order, so the "in table order" parts of `Start`,
  `ViewFiles`, `FilterAppend` and `CommitThenLookup` hold for this model's store, not for every
  store; the set of records returned does not depend on this choice.
- Data from before a restart: the `files` and `temp_files` collections (bot.py:12-13) outlive the
  process, while `FileBot`'s constructor starts with empty tables, as a fresh deployment does. Every
  handler's contract holds from any starting state of the tables.
- The file type is kept as the string the source stores rather than a closed enumeration, because
  retrieval must handle any stored string (defaulting to the document verb).
