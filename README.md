# hangouts_meeper, modelled in Dafny

meeper is an auto-reply bot for a group chat. For every chat message it:

- drops the message if the bot itself sent it;
- runs the history commands `history`, `context`, `more` and `grep` on an archive of old messages;
- runs admin commands (`ping`, `status`, `reply`, `set`, `quit`) that read and change a small status map;
- picks a reply with first-match-wins rules: keyword patterns, then reply groups with a chance and an on/off flag, then a random piece of history. Shouted messages get shouted replies.

This project models the engine behind that and proves the rules. It covers `handler.py`, the helpers in `utils.py` that the engine uses, the echo buffer in `bot.py`, and the configuration lookups in `bot.py`. None of it is executed; these are proofs.

Modules:

- `Common` (`common.dfy`): Python's exceptions as `PyError`, `Option`, `Result`, and `FirstTrue`. `FirstTrue` is the first-match search behind every rule loop that ends in `break`.
- `PyStrings` (`pystrings.dfy`): ASCII models of the `str` methods the bot calls (`strip`, `split`, `lower`, `upper`, `isupper`, `title`, `isdigit`, `count("::")`, `in`, `str(int)`, `int(str)`), with their algebra.
- `Utils` (`utils.py`): `clamp`, `clean`, `get_item`, `newline`, `convert_items`, `join_items`, `description`, and the `command_parser` generator. The generator becomes the class `CommandParser`, a cursor over the words of a message.
- `MessageHandler` (`handler.py`): the status map, `get_history` and the paging commands, grep, `set_status`, reply selection (`reply_to_user`, `get_random_reply` and the forcing loop of `handle_message`), and `run_commands` / `run_admin_commands`. These live on the class `Handler`. The loops of `__init__`, grep, the keyword pass and the group pass of `reply_to_user`, `convert_items`, `join_items` and `get_item` are methods (`SeedStatus`, `CollectMatches`, `KeywordPass`, `GroupPass`, `ConvertItems`, `ConvertedTexts`, `DescribeEntries`, `GetItem`), each proved equal to a specification function. The forcing loop of `handle_message` (`ForcedGroup`) the upper-casing list comprehension of `reply_to_user` (`UpperAll`) and the `status.items()` tuples of the `status` command (`StatusEntries`) stay recursive functions. The properties the source promises are lemmas about those functions.
- `ChatBot` (`bot.py`): `user_is`, `conv_is`, `get_conv`, and the class `Bot`. The search loops of `user_is` and `conv_is`, which return from inside the loop, are recursive functions; the loops of `send_message` and of `_on_event`'s `list.remove` are methods of `Bot`. `Bot` holds the buffer of recently sent messages that `send_message` appends to and `_on_event` consumes.

How the model stands in for things it cannot see:

- **Randomness.** Every random draw is an explicit natural number, bundled per reply in `Draws`.
  - `random.randint(lo, hi)` with draw `p` is `lo + p % (hi - lo + 1)`. It raises ValueError when `hi < lo`.
  - `random.choice(pool)` is `pool[p % |pool|]`. It raises IndexError on an empty pool.
  - `RandIntReaches` and `ChoiceReaches` prove that every outcome can be drawn.
- **Regular expressions.** `re.findall(pattern, text)` being non-empty is the function parameter `matches(pattern, text)`.
- **The history file.** It is the sequence `Handler.lines`.
- **Configuration and status.** `reply_data` is `ReplyData`, with keyword rules and reply groups in configuration order. The status dict is a `map` plus `order`, the dict's insertion order, which the `status` report prints in.
- **Python exceptions.** They are `Err(ValueError | IndexError | TypeError)`.

Two points about the code that are easy to misread:

- **Forcing keywords.** A reply group's `keyword` is not looked at by the group loop of `reply_to_user` (handler.py:176-181), which only rolls against `chance` and checks the group's flag. It is checked in a separate loop of `handle_message` (handler.py:47-52), before `reply_to_user` runs. The model has it as `ForcedGroup`/`ForcedReply`, apart from `ReplyPlan`.
- **Repeated grep results.** The comment at handler.py:87-88 says the `"::"` filter tries to keep grep from repeating messages that earlier greps sent. That filter drops lines with four or more `"::"`; the code never moves `grep_start` itself, so only `set grep_start` changes where the next search begins. `GrepHistory` has no `modifies` clause.

## Model

| member | source | states |
|---|---|---|
| `Common.FirstTrue` | handler.py:171-174 | the index where a first-match loop with `break` stops: its flag is true and every earlier flag is false; None exactly when no flag is true |
| `PyStrings.Lower` | utils.py:97 | `lower()` keeps the length and leaves no upper-case letter |
| `PyStrings.Upper` | handler.py:189 | `upper()` keeps the length and leaves no lower-case letter |
| `PyStrings.Title` | utils.py:85 | `title()` keeps the length and the position of every whitespace character |
| `PyStrings.TrimStartDrops` | utils.py:63 | `lstrip()` removes a leading run made only of whitespace and keeps the rest of the text |
| `PyStrings.TrimEndDrops` | utils.py:63 | `rstrip()` removes a trailing run made only of whitespace and keeps the rest of the text |
| `PyStrings.Strip` | utils.py:97 | `strip()` leaves no whitespace at either end and never lengthens; the result is empty exactly when the text is all whitespace |
| `PyStrings.Split` | utils.py:97 | every word `split()` returns is non-empty and holds no whitespace |
| `PyStrings.NatToString` | handler.py:98 | `str(n)` of a natural number is a non-empty string of decimal digits |
| `PyStrings.IntToString` | utils.py:21 | `str(n)` is non-empty and holds no whitespace |
| `PyStrings.ParseNatOfString` | handler.py:155-157 | `int(str(n)) == n` for every natural number, so a number written by `str` is read back by `set_status` |
| `PyStrings.ParseIntOfString` | utils.py:17-24 | `int(str(n)) == n` for every integer, signs included |
| `PyStrings.StripIdempotent` | utils.py:64 | stripping twice is stripping once |
| `PyStrings.StripTrailingSpace` | utils.py:57-58 | whitespace appended to a text is removed again by `strip()` |
| `PyStrings.SplitJoin` | utils.py:97-99 | splitting words joined by single spaces gives the same words back |
| `PyStrings.SplitEmpty` | utils.py:97 | `split()` finds no word exactly when the text is all whitespace |
| `PyStrings.SplitNoUpper` | utils.py:97 | the words of a text without upper-case letters have none either |
| `PyStrings.JoinStripped` | utils.py:56 | joining non-empty stripped texts gives a stripped text, whatever the separator |
| `PyStrings.JoinNoUpper` | utils.py:99 | joining lower-case words with a space leaves no upper-case letter |
| `Utils.Clamp` | utils.py:104-106 | `clamp(v, lo, hi)` is `v` inside the range, `lo` below it, `hi` above it, and `lo` whenever `lo > hi` |
| `Utils.Clean` | utils.py:94-101 | an empty text gives `[""]` in both modes; otherwise a word list exactly when asked to split, whose words are non-empty, whitespace-free and lower-case, and which is empty exactly when the text is all whitespace |
| `Utils.CleanJoinsWords` | utils.py:97-99 | the one-line form of `clean` is its words joined by single spaces |
| `Utils.CleanOfJoinedWords` | utils.py:94-101 | cleaning lower-case words joined by single spaces gives the same words |
| `Utils.CleanLineIdempotent` | utils.py:94-101 | the one-line form of `clean` is a fixed point of `clean` |
| `Utils.GetItem` | utils.py:136-154 | one index gives a scalar: `s[i]` for `0 <= i < len`, Python's counting from the end for `-len <= i < 0`, the default otherwise; several indexes give a list, one item per index |
| `Utils.Newline` | utils.py:62-64 | the result is the stripped text followed by exactly `number` newlines |
| `Utils.NewlineOfStripped` | utils.py:62-64 | a text that is already stripped only gains its newlines |
| `Utils.NewlineIdempotent` | utils.py:62-64 | `newline(newline(t, n), n) == newline(t, n)` |
| `Utils.Converted` | utils.py:20-23 | `str` gives `Str(str(item))`; `int` of a text gives `Int(int(text))` when the text is a decimal integer and the default otherwise; `int` of an integer leaves it as it is |
| `Utils.ConvertItems` | utils.py:17-24 | every slot of the list is replaced, in place, by the conversion of its old value |
| `Utils.ConvertRoundTrip` | utils.py:17-24 | converting an integer to `str` and back to `int` gives the integer |
| `Utils.Texts` | utils.py:54 | one text per item, in order, each `str(item)` |
| `Utils.StripAll` | utils.py:55 | one text per input, in order, each stripped |
| `Utils.Description` | utils.py:67-90 | any mode other than "short" and "long" raises ValueError, and only such a mode does |
| `Utils.ConvertedTexts` | utils.py:54 | copying the items and converting the copy to `str` in place gives `Texts(items)` |
| `Utils.DescribeEntries` | utils.py:46-52 | one description per tuple, in order; an unknown mode and at least one tuple raise ValueError, and nothing else raises |
| `Utils.JoinItems` | utils.py:27-59 | plain items: strip, join, strip, add `end` unless present, prefix `start`, close with `newlines` newlines; described tuples: the same over their descriptions, or ValueError for an unknown mode |
| `Utils.FinishOfStripped` | utils.py:55-58 | for non-empty stripped texts and a whitespace `end`, join_items is `start + separator.join(texts)` and then the newlines |
| `Utils.FinishJoined` | utils.py:55-58 | with no `start` and no newlines this is the plain join, itself non-empty and stripped |
| `Utils.DescriptionShort` | utils.py:80-83 | "short" mode reads `name: v1, v2, ...` followed by the newlines |
| `Utils.DescriptionLong` | utils.py:84-87 | "long" mode is the title-cased `Name:` and then one line per value, joined with newline-tab |
| `Utils.DescriptionUnknownMode` | utils.py:88-89 | any other mode raises ValueError |
| `Utils.FinishOfTokens` | utils.py:122-124 | joining the words `clean` returns with join_items and a single space is the plain `" ".join` |
| `Utils.CommandParser.constructor` | utils.py:114-116 | the cursor starts at word 0 of `clean(text)` and keeps the raw text |
| `Utils.CommandParser.Next` | utils.py:129-131 | a plain `next()` reads the word under the cursor, or "" past the end, and moves one word on |
| `Utils.CommandParser.Advance` | utils.py:118-121 | sending an integer moves the cursor by it, clamped to `[0, len]`, and reads the word there without consuming it |
| `Utils.CommandParser.Remaining` | utils.py:122-124 | sending "remaining" gives the unread words joined by single spaces and does not move the cursor |
| `Utils.CommandParser.All` | utils.py:125-126 | sending "all" gives the whole word list of `clean(text)` |
| `Utils.CommandParser.Raw` | utils.py:127-128 | sending "raw" gives the original text |
| `Utils.ReadThreeWords` | utils.py:129-132 | three `next()` calls give words 0, 1 and 2, and "" once the words run out |
| `MessageHandler.RandInt` | handler.py:208 | `randint(lo, hi)` raises ValueError exactly on an empty range and otherwise lies in `[lo, hi]` |
| `MessageHandler.RandIntReaches` | handler.py:208 | every value of the range can be drawn |
| `MessageHandler.Choice` | handler.py:173 | `random.choice` raises IndexError exactly on an empty pool and otherwise returns a member |
| `MessageHandler.ChoiceReaches` | handler.py:196 | every member of the pool can be drawn |
| `MessageHandler.Window` | handler.py:209-212 | the clamped slice always has `0 <= start <= stop` |
| `MessageHandler.Lines` | handler.py:216 | the slice holds `min(stop, len) - min(start, len)` lines |
| `MessageHandler.History` | handler.py:200-216 | no start and fewer lines than `size` raise ValueError, and only that does; otherwise the lines shown are those of the stored window |
| `MessageHandler.HistoryFull` | handler.py:209-216 | with at least `size` lines, any start shows exactly `size` lines, and the stored window lies inside the history and is `size` long |
| `MessageHandler.HistoryInRange` | handler.py:209-212 | a start with `size` lines after it shows `lines[start:start+size]` |
| `MessageHandler.HistoryClampsBack` | handler.py:209-212 | 100 lines, start 95, size 10 show lines 90 to 99 |
| `MessageHandler.HistoryShort` | handler.py:209-215 | with fewer than `size` lines every start shows the whole history and stores `(0, size)`, past the last line |
| `MessageHandler.MorePagesForward` | handler.py:73-74 | `more` continues at the stored stop while 10 lines remain after it |
| `MessageHandler.MoreStaysAtEnd` | handler.py:73-74 | once `more` reaches the end it keeps showing the last 10 lines |
| `MessageHandler.ContextEndsAtStart` | handler.py:70-71 | `context` shows the 10 lines that end where the stored window starts |
| `MessageHandler.HitsSound` | handler.py:89-93 | every grep hit lies at or after `grep_start`, contains the query and has fewer than four `"::"` |
| `MessageHandler.HitsSorted` | handler.py:89-93 | hits come in file order, so none repeats |
| `MessageHandler.HitsComplete` | handler.py:89-93 | every matching line at or after `grep_start` is a hit |
| `MessageHandler.MatchLinesAt` | handler.py:90-91 | result j is hit j written as `"i: line"` with the line's own index |
| `MessageHandler.GrepReplyShape` | handler.py:94-101 | the reply is `min(count, max_grep) + 2` lines: a header with the untruncated count, the first hits formatted with their indexes, and a footer with both counts |
| `MessageHandler.CollectMatches` | handler.py:89-93 | the search loop collects exactly the formatted matches from `grep_start` on |
| `MessageHandler.HitsCount` | handler.py:94-98 | the header's count is the number of distinct matching line indexes |
| `MessageHandler.Assign` | handler.py:137-163 | only an empty value for a flag raises, with IndexError; the keys stay the same, no other key changes, every value keeps its kind, and any reply but "set" leaves the map unchanged |
| `MessageHandler.AssignUnknown` | handler.py:146-147 | an unknown property gives "invalid status to set ..." and no change |
| `MessageHandler.AssignFlag` | handler.py:150-153 | a flag becomes true exactly when the value starts with "t" |
| `MessageHandler.AssignNumber` | handler.py:155-158 | an integer setting takes the number written in decimal |
| `MessageHandler.AssignNotNumber` | handler.py:159-160 | anything that is not all digits gives "invalid value" and no change |
| `MessageHandler.AssignWindow` | handler.py:162-163 | `last_history` cannot be set |
| `MessageHandler.AssignWellFormed` | handler.py:137-163 | `set_status` keeps the shape of the status map the engine relies on |
| `MessageHandler.Render` | handler.py:120-122 | `str(value)` of a status value is non-empty and stripped |
| `MessageHandler.StatusReport` | handler.py:119-123 | the status report is one `key: value` line per key, in insertion order |
| `MessageHandler.StatusDescriptions` | handler.py:120-122 | each `(key, value)` tuple is described by its `key: value` line |
| `MessageHandler.StatusLinesStripped` | handler.py:120-122 | every report line is non-empty and stripped |
| `MessageHandler.ReportLine` | handler.py:120-122 | the short description of one tuple is `key: str(value)` |
| `MessageHandler.RandomReply` | handler.py:192-198 | a "single" group gives one reply of its pool, a "group" group one whole set, any other type None; an empty pool raises IndexError |
| `MessageHandler.AsList` | handler.py:180 | adding None to the list of replies raises TypeError; a list passes through |
| `MessageHandler.KeywordFlags` | handler.py:171-172 | flag i says whether pattern i matches the cleaned text |
| `MessageHandler.GroupFlags` | handler.py:178-179 | flag i says whether group i's draw is within its chance and its status flag is set |
| `MessageHandler.KeywordStage` | handler.py:167-174 | the keyword pass answers with at most one reply; with no rules, or with no pattern matching a non-empty message, it answers nothing; an empty message with rules raises TypeError (the one-reply case is `KeywordWins`) |
| `MessageHandler.UpperAll` | handler.py:189 | each reply upper-cased, in order |
| `MessageHandler.Mirror` | handler.py:188-189 | mirroring keeps the number of replies |
| `MessageHandler.KeywordWins` | handler.py:171-177 | when pattern k is the first to match, the reply is one response of rule k, and groups and history are not consulted |
| `MessageHandler.GroupWins` | handler.py:177-198 | with no keyword reply, the first group that fires answers with one reply ("single") or one whole set ("group") |
| `MessageHandler.DisabledGroupSilent` | handler.py:179 | a group whose flag is off is never the one chosen |
| `MessageHandler.HistoryOnlyAsFallback` | handler.py:183-185 | history is quoted only when keywords and groups gave nothing, the draw is below 3 and history is on |
| `MessageHandler.MirrorCaps` | handler.py:187-189 | an all-caps message gets replies without lower-case letters; any other message gets them unchanged |
| `MessageHandler.HelloReply` | handler.py:165-190 | with the single rule "hi" answered by "hello!", both "hi there" and "HI THERE" get "hello!", mirrored |
| `MessageHandler.Shouting` | handler.py:188-189 | "HI THERE" is upper-case, "hi there" is not, and "hello!" shouted is "HELLO!" |
| `MessageHandler.HelloExample` | handler.py:165-190 | "hi there" gets `["hello!"]` and "HI THERE" gets `["HELLO!"]` |
| `MessageHandler.CleanHiThere` | utils.py:94-101 | both spellings of the greeting clean to "hi there" |
| `MessageHandler.ForcingFlags` | handler.py:47-50 | flag i says whether group i has a keyword and it matches the cleaned text |
| `MessageHandler.KeywordGroups` | handler.py:48 | flag i says whether group i has a keyword |
| `MessageHandler.ForcedGroup` | handler.py:47-52 | the forced group is the first whose keyword matches; an empty message raises TypeError exactly when some group has a keyword |
| `MessageHandler.ForcedFirst` | handler.py:47-52 | the first group whose keyword matches a non-empty message is the one forced |
| `MessageHandler.ForcedNone` | handler.py:47-52 | with no matching forcing keyword nothing is forced |
| `MessageHandler.ForcedReply` | handler.py:47-52 | nothing is sent when no group is forced; a forced group sends its random reply, raises IndexError on an empty pool and TypeError for an untyped group (`*None`); the TypeError of an empty message is passed on |
| `MessageHandler.CommandOf` | handler.py:67-83 | the first word picks `context`, `more`, `history` or `grep`, and only that word does; `history n` carries the start `int(n)` exactly when the word after `history` is all digits, and no start otherwise |
| `MessageHandler.Query` | handler.py:84 | the grep query is the raw text after its first five characters, and empty for a text of at most five characters such as a bare `grep` |
| `MessageHandler.ReadCommand` | handler.py:67-83 | the words read off the parser decide the command as `CommandOf` the cleaned words |
| `MessageHandler.KeywordPass` | handler.py:167-174 | the keyword loop returns what the keyword pass specifies, TypeError on an empty message included |
| `MessageHandler.ReadAdminCommand` | handler.py:113-134 | the words read off the parser decide the admin command: "reply" takes the rest of the words, "set" the next two |
| `MessageHandler.SeededKeys` | handler.py:12-22 | `__init__` creates exactly the five settings and one key per reply group |
| `MessageHandler.SeededValues` | handler.py:12-22 | the settings start as active, history on, `slice(1, 2)`, 0 and 20, and every group flag starts true |
| `MessageHandler.KeyOrderListed` | handler.py:12-22 | the insertion order lists every key exactly once, the five settings first |
| `MessageHandler.GroupPass` | handler.py:176-181 | the group loop returns what the group pass specifies |
| `MessageHandler.SelectReplies` | handler.py:167-181 | the keyword loop, then the group loop when no keyword answered |
| `MessageHandler.SeedStatus` | handler.py:12-22 | the loop of `__init__` builds exactly `Seeded(groups)` and the insertion order `KeyOrder(groups)` |
| `MessageHandler.Handler.constructor` | handler.py:11-22 | the status map and its key order are those `__init__` builds, and the handler is in a valid state |
| `MessageHandler.Handler.GetHistory` | handler.py:200-216 | returns the lines `History` specifies and stores its window as `last_history`; on ValueError nothing changes |
| `MessageHandler.Handler.GrepHistory` | handler.py:83-101 | returns the grep reply for the current `grep_start` and `max_grep` and changes nothing |
| `MessageHandler.Handler.RunCommands` | handler.py:58-101 | `context`, `more` and `history [n]` show and store the window they ask for; `grep` answers the grep reply; any other message gives None; nothing else changes |
| `MessageHandler.Handler.SetStatus` | handler.py:137-163 | the reply and new status are those `Assign` specifies; the order of keys stays |
| `MessageHandler.Handler.ReplyToUser` | handler.py:165-190 | the replies are those `ReplyPlan` specifies, and `last_history` changes only when history was quoted |
| `MessageHandler.Handler.ReportStatus` | handler.py:119-123 | the `status` text is join_items over the status tuples in insertion order |
| `MessageHandler.Handler.RunAdminCommands` | handler.py:103-135 | each admin command sends to the log what its handler gives; `set` changes the status as `Assign` says, `reply` only stores the history window it quoted as `last_history`, and every other command leaves the status unchanged |
| `ChatBot.UserIs` | bot.py:115-120 | a user who is not configured has no property |
| `ChatBot.UserIsFirst` | bot.py:117-119 | the first configured user with the id decides, with `default` for a missing property |
| `ChatBot.UnknownUser` | bot.py:120 | an unknown user is refused even when the default is true |
| `ChatBot.ConvIs` | bot.py:122-126 | None exactly when no conversation is configured with the id |
| `ChatBot.ConvIsFirst` | bot.py:124-126 | the first configured conversation with the id decides, with `default` for a missing property |
| `ChatBot.GetConv` | bot.py:107-112 | a name that is not configured is used as the id itself |
| `ChatBot.GetConvNamed` | bot.py:109-110 | a configured name maps to its conversation's id |
| `ChatBot.RemoveFirst` | bot.py:57 | `list.remove` makes the buffer one shorter |
| `ChatBot.RemoveFirstOne` | bot.py:55-58 | exactly one occurrence is removed and the rest of the buffer stays, in order |
| `ChatBot.EchoCancels` | bot.py:55-58 | a sent message that comes back leaves the buffer as it was before the send |
| `ChatBot.Delivered` | bot.py:139-150 | the number sent is the length of the run of successful sends before the first failure |
| `ChatBot.DeliveredStops` | bot.py:143-150 | sending stops at the first failure |
| `ChatBot.DeliveredAll` | bot.py:139-142 | with no failure every message is sent |
| `ChatBot.Bot.constructor` | bot.py:29 | the buffer starts empty |
| `ChatBot.Bot.OnMessage` | bot.py:49-63 | the bot's own message is removed once and dropped; any other is dispatched exactly when its conversation has `reply_to` set, and the buffer stays as it was |
| `ChatBot.Bot.SendMessages` | bot.py:128-150 | the messages sent before the first failure are appended to the buffer in order; later ones are neither sent nor recorded |

## Left out

- The chat transport is not modelled: connecting, `run`, `quit`, `_on_connect`, `conv.send_message` and `client.disconnect` (bot.py:19-47, 152-155). It belongs to the hangups library. The outcome of each send is the `delivered` input of `SendMessages`.
- `get_messages` (bot.py:65-105) is not modelled. It is driven by transport events, and as written it calls `" ::".join` with three arguments, which raises TypeError.
- `load_history` (handler.py:218-237) and all file reading and writing are not modelled. The history file is the constant sequence `Handler.lines`: the source reads the file again on every call, and the model does not capture the file changing between calls.
- asyncio locks, `ensure_future` and the `connected` event are not modelled. Operations run one at a time.
- `datetime_to_string` is not modelled. It depends on time zones and `strftime`.
- `print` logging is not modelled.
- Python's `random` module and `re.findall` are not modelled. They are replaced by explicit draws and the `matches` parameter, so the model does not capture the uniform distribution or any regular-expression semantics.
- Strings are ASCII. Unicode case mapping, Unicode whitespace and Unicode digits are out of scope. So is `int()` accepting underscores (`"1_000"`). In the source, `"²".isdigit()` is true but `int("²")` raises. Restricting to ASCII digits leaves that path out.
- `convert_items` and `join_items` are restricted to strings and ints (`Item`), with `str` and `int` as the only conversions. `str()` of other objects is out of scope.
- `Utils.GetItem`: the generator branch (`inspect.isgenerator`, utils.py:141-142) is left out. No caller in the core passes a generator.
- `Utils.CommandParser`: only the values the core sends are modelled: integers, "remaining", "all", "raw", and plain `next()`. Any other sent value behaves like `next()` in the source.
- `Utils.JoinItems`: an empty tuple in description mode becomes `description()` with no name in the source, which raises TypeError. Every `Entry` in the model has a name.
- `MessageHandler.Handler.constructor` requires that no reply group is named `last_history`, `grep_start` or `max_grep`. The source would overwrite that setting with `True`, and `run_commands` would then fail on `.start` or compute with `True` as a number. The model keeps those keys at their kinds.
- `handle_message` (handler.py:28-56) is modelled only through its forcing loop (`ForcedGroup`, `ForcedReply`). The order of its sends, the `notify_keyword` message to the log (handler.py:43-44), and the `active` and `reply_to` checks around `reply_to_user` (handler.py:53) are glue around the modelled operations.
- Configuration values are typed. Missing keys are not modelled (for example a reply group without "chance", which would raise KeyError), and neither are non-integer chances or non-boolean flags in `user_is` and `conv_is`.
- `ChatBot.GetConv` returns the conversation id. The source then looks that id up in the transport's conversation list, and that lookup fails for an id the transport does not know. The lookup is left out, and `user_is` takes the user's id directly instead of `user.id_[0]`.
- `MessageHandler.GroupFlags`: `randint(0, 100)` is drawn for each group examined. The model gives the i-th group the draw `groupRoll(i)`, so it does not capture draws being consumed from one shared generator.
