# Clan roster bot: formatter and refresh model

A Dafny model of the `roster` command of a Discord bot for Clash of Clans.
Given a clan tag and player tags, the command does three things. It fetches
the clan from the game's REST API. It lists every requested player on a
numbered line, marked ✅ when the player is in the clan's `memberList` and ❌
otherwise; a player who is not a member is looked up on their own, or shown as
"Unknown". It posts the result. A reaction handler bound to the posted message
re-runs the same fetch and format when a person (not a bot) adds the 🔄
reaction to that message, and edits the player list in place.

Files and modules:

- `wrappers.dfy` (`Wrappers`): `Option`, for JSON keys that may be missing and fetches that may fail.
- `client.dfy` (`RemoteClient`): the `#` → `%23` tag encoding and its decoder, the request URLs, the decoded clan and player records, and the two fetches. Each fetch reads an abstract API, a total function from URL to an optional record; `None` is a non-200 answer.
- `decimal.dfy` (`Decimal`): the decimal numeral of a line's position, and reading it back.
- `formatter.dfy` (`RosterFormatter`): the defaults for a missing name or member list, and the tag → member map. It holds the line format, the specification function `RosterLines` and the loop method `BuildRoster` proved equal to it.
- `controller.dfy` (`RosterCommand`): the command's reply, the refresh guard and the reaction handler, each as a function. Two methods run them through `BuildRoster`.

Details of newbot.py's behaviour that are easy to miss:

- The fallback name at newbot.py:68 uses Python's `or`, so an empty looked-up name also becomes "Unknown", not only a missing one.
- A clan member's own name is shown verbatim, even when it is empty.
- `if member:` tests a member record, which always holds a `tag` key and so is never empty; the test is the same as "the tag is a key of the map".
- `clan_data.get('name', 'Unknown Clan')` falls back only when the key is missing.
- The reaction handler repeats the command's defaults, member map and loop (newbot.py:98-113) line for line. Both copies are modelled by the same `RosterLines` and run through the same `BuildRoster`.
- The refresh path recomputes the clan name (newbot.py:98) but never uses it. Only the player list is edited, so `Edited` carries lines and no title.

## Model

| member | source | states |
|---|---|---|
| `RemoteClient.EncodeTag` | newbot.py:23 | the encoded tag holds no `#`, and its length is the tag's plus two per `#` |
| `RemoteClient.EncodeAppend` | newbot.py:23 | encoding distributes over concatenation, so every other character keeps its place and order |
| `RemoteClient.EncodeWithoutHash` | newbot.py:37 | a tag without `#` is sent unchanged |
| `RemoteClient.DecodeEncode` | newbot.py:23 | the server's reading of `%23` as `#` recovers every tag that does not already contain `%23` |
| `RemoteClient.ClanUrlInjective` | newbot.py:23-24 | two such clan tags that give the same request URL are equal |
| `RemoteClient.PlayerUrlInjective` | newbot.py:37-38 | two such player tags that give the same request URL are equal |
| `RemoteClient.ClanUrl` | newbot.py:23-24 | no contract of its own: the endpoint followed by the encoded tag; `ClanUrlInjective` states its property |
| `RemoteClient.PlayerUrl` | newbot.py:37-38 | no contract of its own: the endpoint followed by the encoded tag; `PlayerUrlInjective` states its property |
| `RemoteClient.FetchClan` | newbot.py:22-33 | no contract of its own: the API's answer for `ClanUrl`, `None` on a non-200 status; `Roster` and `OnReactionAdd` state what follows from it |
| `RemoteClient.FetchPlayerName` | newbot.py:36-47 | no contract of its own: `None` on a non-200 status, otherwise the player's `name` key, which may be missing; `NonMemberLine` states how it is used |
| `Decimal.Numeral` | newbot.py:71 | the position's numeral is non-empty, all digits, and has no leading zero |
| `Decimal.ParseNumeralOf` | newbot.py:71 | reading the numeral back gives the position |
| `RosterFormatter.ClanName` | newbot.py:56 | no contract of its own: the clan's name, or "Unknown Clan" when the key is missing; `Roster`'s last ensures states it |
| `RosterFormatter.MemberList` | newbot.py:57 | no contract of its own: the member list, or none when the key is missing; `MissingMemberListMarksAll` states the consequence |
| `RosterFormatter.FallbackName` | newbot.py:68 | no contract of its own: the looked-up name when it is a non-empty string, otherwise "Unknown"; `NonMemberLine` states it |
| `RosterFormatter.NameFor` | newbot.py:63-68 | no contract of its own: the member's name when the tag is a key, otherwise the fallback name of the lookup; `MemberLine` and `NonMemberLine` state it |
| `RosterFormatter.MarkFor` | newbot.py:64-69 | no contract of its own: ✅ when the tag is a key, ❌ otherwise; `LineMarkIffMember` states it |
| `RosterFormatter.FormatLine` | newbot.py:71 | no contract of its own: the line's layout; `NumberingContiguous`, `LineEndsWithTag` and `LineMarkIffMember` state what can be read back from it |
| `RosterFormatter.MemberMap` | newbot.py:58 | the map's keys are exactly the tags in the member list, and each key maps to a listed member that carries that tag |
| `RosterFormatter.LastMemberWins` | newbot.py:58 | for a repeated tag the map holds the last member in the list with that tag |
| `RosterFormatter.RosterLines` | newbot.py:60-71 | there is one line per requested tag |
| `RosterFormatter.Queried` | newbot.py:63-68 | the lookup is called only on requested tags that are not in the member map, and on every such tag, never more times than there are tags |
| `RosterFormatter.QueriedOne` | newbot.py:63-68 | one requested tag is looked up exactly once when it is not in the member map, and not at all otherwise |
| `RosterFormatter.QueriedAppend` | newbot.py:62-68 | the lookups for two runs of tags are those of the first run followed by those of the second, so call order and repeats follow the requested tags |
| `RosterFormatter.BuildRoster` | newbot.py:60-71 | the `enumerate`/`append` loop returns exactly `RosterLines` and calls the lookup on exactly `Queried` |
| `RosterFormatter.RosterLineAt` | newbot.py:62-71 | line k belongs to the k-th requested tag and is numbered k + 1, with that tag's name and status |
| `RosterFormatter.MemberLine` | newbot.py:63-66 | a tag in the member map shows that member's name and ✅, whatever the lookup returns |
| `RosterFormatter.NonMemberLine` | newbot.py:67-69 | a tag not in the map shows ❌, with the looked-up name when it is a non-empty string and "Unknown" otherwise |
| `RosterFormatter.NumberingContiguous` | newbot.py:62 | the number that line k starts with is k + 1, so lines are numbered 1..N without gaps |
| `RosterFormatter.LineEndsWithTag` | newbot.py:71 | line k ends with the k-th tag verbatim in parentheses, then its status |
| `RosterFormatter.LineMarkIffMember` | newbot.py:63-69 | the last character of line k is ✅ exactly when the k-th tag is in the member map |
| `RosterFormatter.LookupOnlyForNonMembers` | newbot.py:63-68 | two lookups that agree on the tags in `Queried` give the same roster |
| `RosterFormatter.DuplicateTagShowsLast` | newbot.py:58-66 | with duplicate tags in `memberList`, the requested tag shows the last such member's name and ✅ |
| `RosterFormatter.MissingMemberListMarksAll` | newbot.py:57-69 | a clan answer without `memberList` shows every requested tag with ❌ and its fallback name |
| `RosterFormatter.ExampleMemberAndLookup` | newbot.py:60-71 | member "#P1"/"Alice" and looked-up "#P2"/"Bob" give the lines "1) \*\*Alice\*\* (#P1) ✅" and "2) \*\*Bob\*\* (#P2) ❌" |
| `RosterFormatter.ExampleUnknownPlayer` | newbot.py:68 | a non-member whose lookup fails gives "1) \*\*Unknown\*\* (#P9) ❌" |
| `RosterCommand.Lookup` | newbot.py:68 | no contract of its own: the player-name fetch used as the formatter's fallback lookup; `ExampleAliceBob` and `ExampleUnknown` state its effect |
| `RosterCommand.ClanRoster` | newbot.py:57-71 | no contract of its own: the defaults, member map and line loop that both the command and the handler run; `RefreshReproducesRoster` states that both paths give the same lines |
| `RosterCommand.Roster` | newbot.py:50-71 | the reply is the error notice exactly when the clan fetch fails; otherwise it has one line per requested tag, and its title name is "Unknown Clan" when the clan has no name |
| `RosterCommand.RunRoster` | newbot.py:50-71 | the command's steps, through the `BuildRoster` loop, produce exactly the `Roster` reply |
| `RosterCommand.RefreshGuard` | newbot.py:89-92 | no contract of its own: not a bot, the 🔄 emoji, the posted message's id; `OnReactionAdd`'s first ensures states its role |
| `RosterCommand.OnReactionAdd` | newbot.py:88-113 | the handler does nothing exactly when the user is a bot, the emoji is not 🔄, or the message is not the posted one; past the guard it sends the error notice exactly when the clan fetch fails and edits the player list exactly when it succeeds, with one line per requested tag |
| `RosterCommand.HandleReaction` | newbot.py:88-113 | the handler's steps, through the `BuildRoster` loop, produce exactly the `OnReactionAdd` reply |
| `RosterCommand.OtherMessageIgnored` | newbot.py:92 | a reaction on another message never re-renders this one |
| `RosterCommand.RefreshReproducesRoster` | newbot.py:93-113 | with the same API answers, a refresh edits in exactly the lines the command posted, or sends the same notice when the command failed |
| `RosterCommand.ExampleAliceBob` | newbot.py:50-71 | the example clan "#ABC123" yields the two lines for Alice (✅) and Bob (❌) under the clan's name |
| `RosterCommand.ExampleUnknown` | newbot.py:50-71 | the example request for "#P9" with a failing lookup yields the single "Unknown" ❌ line |

## Left out

- HTTP requests, the bearer header, the status check and JSON decoding (newbot.py:24-33, 38-47): the API is a total function from URL to an optional decoded record, so `None` stands for any non-200 status. The `print` of the status code is left out too.
- Only `#` is percent-encoded, as in the source; a tag holding another escape such as `%41` reaches the server as whatever the server decodes it to. `DecodeTag` decodes the `%23` escape alone and is not a model of the server's full percent-decoding.
- Exceptions from the transport and the decoder are not modelled: `requests.get` raising on a network error (newbot.py:26, 40), and `response.json()` raising on a 200 answer whose body is not JSON (newbot.py:32, 46). In the source either one ends the command or handler with no reply and no edit, even in the middle of the player loop; the model's API is total and always answers.
- JSON values of an unexpected type are not modelled. A `name` key holding `null` is one case, and so is a member record without `tag` or `name`, where the source raises `KeyError`. A present clan name is a string, and every member has a tag and a name.
- The embed (title, description, colour, thumbnail, field, footer), `ctx.send`, `add_reaction` and `message.edit` (newbot.py:73-85, 115-120): these are chat library calls. The reply datatypes say what would be sent or edited.
- The "last refreshed" timestamps (newbot.py:81, 117): they come from the wall clock.
- Handler registration through `@bot.event` (newbot.py:87): the chat library decides whether an earlier handler stays active. Only the guard and the handler's body are modelled, for one captured session.
- Bot token and API token loading, intents and `bot.run` (newbot.py:9-19, 122): process start-up.
- Async scheduling: nothing in the logic depends on it. Each fetch is one function application, so the API answers the same URL the same way within one run.
