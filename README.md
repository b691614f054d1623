# Investalo guide bot — verified model of its deterministic core

The Investalo guide bot is a Telegram bot that, every two hours, sends each configured chat
a "guide" message: a time-of-day line, a rotating item from one of three themes
(Mindset, Lernen, Reflexion), a short market summary, a challenge and a quote. Menu buttons
replace the displayed text with one of three static texts.

This project models the logic inside `bot.py` that decides what those messages say, with the
clock, the random draws and the quote provider turned into parameters:

- `DayPhase` — the hour-to-phase table (`get_day_phase`) and the phase-to-emoji table
  (`get_day_phase_emoji`). The hour is a parameter instead of `datetime.now().hour`.
- `Market` — the market summary (`get_market_context`). The quote provider is a function
  `fetch` from ticker to `Response`. A `Response` is one of: the request or a conversion raised
  (`Failed`); the provider answered with an error `code` (`ApiError`); or the `high`/`low`/`open`
  fields, each possibly absent. Each symbol is classified by `|high - low| / open` against
  0.015 and 0.007. Symbols that failed, answered with an error or have `open == 0` are skipped.
  The states are then reduced by counting: turbulent, then active, then one of three calm texts.
  `CollectStates` is the source's loop, proved against the specification function `StatesOf`.
- `Content` and `Choice` — the theme, challenge and quote tables and the no-repeat selection of
  `auto_push`. Each `random.choice` is `Choose(xs, pick)` for a `pick: nat` that stands for the
  random index.
- `Guide` — the mutable `last_sent` dictionary as the field `lastSent` of class `Bot`. `Rotate`
  is the selection-and-record step and `AutoPush` the whole push; `MessageParts`/`Compose`
  assemble the message as an ordered concatenation of its parts.
- `Buttons` — `button_handler`'s dispatch from callback data to the text the message is edited to.

Two behaviours of `bot.py` that are easy to miss:

- A quote with no `high` or no `low` field is not skipped. The absent value reads as 0
  (`r.get("high", 0)`), so the symbol is still classified. Only a missing or zero `open` skips it.
- A negative `open` gives a negative ratio, which the model classifies as calm ("ruhig"), as the code does.

## Model

| member | source | states |
|---|---|---|
| `DayPhase.Phase` | bot.py:205-218 | the label is one of the six phase labels, and it is "Nacht" exactly for hours before 6 or from 21 on |
| `DayPhase.PhaseFollowsTable` | bot.py:207-216 | for each row [lo, hi) of the phase table, an hour gets that row's label if and only if lo <= hour < hi |
| `DayPhase.PhaseBoundaries` | bot.py:205-218 | every hour 0..23 gets a label; hour 5 is Nacht, 6 and 8 Morgen, 9 Vormittag, 12 Mittag, 15 Nachmittag, 18 and 20 Abend, 21 and 23 Nacht |
| `DayPhase.Emoji` | bot.py:220-229 | the emoji is non-empty if and only if the phase string is one of the six labels; any other string maps to "" |
| `DayPhase.EveryPhaseHasEmoji` | bot.py:220-229 | the label of any hour has a non-empty emoji |
| `DayPhase.TimeLine` | bot.py:243-244 | the time line is a non-empty emoji, a blank, then the phase label of the hour |
| `Market.Classify` | bot.py:177-184 | specified by `ClassifyBands` (one band of ratios per state, both directions) and `ClassifyMonotone` (a larger ratio is never calmer) |
| `Market.ClassifyBands` | bot.py:177-184 | a ratio above 0.015 is "unruhig", one in (0.007, 0.015] is "aktiv", anything up to 0.007 is "ruhig", each in both directions |
| `Market.ClassifyAtThresholds` | bot.py:179-184 | exactly 0.015 is "aktiv" (not "unruhig") and 0.0151 is "unruhig"; exactly 0.007 is "ruhig" and 0.0071 "aktiv" |
| `Market.ClassifyMonotone` | bot.py:179-184 | a larger ratio never yields a calmer state |
| `Market.StateOf` | bot.py:168-184 | a response adds no state if and only if it failed, carries an error code, or its open (absent reads as 0) is 0; otherwise it adds the state of abs(high - low) / open |
| `Market.StatesOf` | bot.py:159-187 | the state list never has more entries than there are responses |
| `Market.CollectStates` | bot.py:159-187 | the loop over the four symbols builds exactly `StatesOf` of their responses, so at most 4 states |
| `Market.StatesOfAppend` | bot.py:159-187 | the states of two runs of responses are the states of the first followed by those of the second |
| `Market.SkippedAddsNothing` | bot.py:168-175 | a skipped response leaves the state list unchanged wherever it stands among the others |
| `Market.Count` | bot.py:195-197 | `list.count` equals the multiplicity of the state in the list |
| `Market.Aggregate` | bot.py:189-200 | the narrative is the turbulent text iff two or more states are "unruhig"; the active text iff fewer than two are "unruhig" and two or more "aktiv"; one of the three calm texts iff neither count reaches two |
| `Market.EveryCalmTextReachable` | bot.py:189-200 | when the calm branch is taken, each calm text is the result of some random pick |
| `Market.AggregateIgnoresOrder` | bot.py:195-200 | the narrative depends only on the multiset of states, not on their order |
| `Market.TwoTurbulentSymbols` | bot.py:161-196 | whenever two of the four symbols classify "unruhig", the narrative is the turbulent text, whatever the other two say |
| `Market.MarketContext` | bot.py:158-200 | the summary is the aggregate of the collected states, and is always the turbulent, the active or a calm text |
| `Choice.Choose` | bot.py:237 | a random draw from a non-empty list returns one of its elements, and pick i returns the i-th element |
| `Content.ThemeTablesAgree` | bot.py:235 | the theme names drawn from are exactly the keys of the themes table, each with a non-empty item list |
| `Content.ChallengesOf` | bot.py:240 | for every theme the challenge list the draw sees is non-empty, and it holds only challenges of that theme |
| `Content.EveryThemeHasChallenges` | bot.py:240 | every theme has a challenge, so drawing one never fails |
| `Content.Options` | bot.py:236 | the options are exactly the theme's items other than the last-sent one; with nothing sent yet they are all the items |
| `Content.Pool` | bot.py:237 | the draw is made from a non-empty list of the theme's own items, and when the theme has an item other than the last-sent one, no item of the pool is the last-sent one |
| `Content.NextContent` | bot.py:236-237 | the selected item belongs to the theme, and differs from the last-sent item if and only if the theme has an item that differs from it |
| `Content.EveryOptionReachable` | bot.py:236-237 | every item other than the last-sent one is selected by some pick |
| `Content.SourceThemesNeverRepeat` | bot.py:71-90 | with the bot's own themes, the selected item never equals the last-sent item of its theme |
| `Guide.MessageParts` | bot.py:249-258 | the message consists of 13 parts: header first, site link last, with the time line, theme, content, market text, challenge and quote at fixed positions |
| `Guide.ConcatLayout` | bot.py:249-258 | a concatenation starts with its first part, ends with its last, and holds each part at its offset, the parts in order |
| `Guide.Compose` | bot.py:249-258 | specified by `MessageEnds` (guide header first, site link last) and `MessageOrder` (each part at its offset, in order) |
| `Guide.MessageEnds` | bot.py:249-258 | the push message opens with the guide header and ends with the site link |
| `Guide.MessageOrder` | bot.py:249-258 | the push message holds the time line, theme, content, market text, challenge and quote each at its offset, in that order |
| `Guide.RecordKeepsConsistent` | bot.py:238 | recording one of a theme's own items keeps every theme's entry present and every recorded item a member of its theme |
| `Guide.Bot.constructor` | bot.py:107 | at start-up every theme has an entry and none has sent anything |
| `Guide.Bot.Rotate` | bot.py:235-238 | the drawn theme exists; the item is one of its items and not the one it sent last; afterwards `lastSent` records the item for that theme and no other theme's entry changes |
| `Guide.Bot.AutoPush` | bot.py:234-258 | a push draws the theme its pick selects, sends one of that theme's items other than the last-sent one, keeps the rotation invariant and records the item for that theme only; its message is the composition of the time line, the theme, the item, the market heading plus narrative, a drawn challenge and a drawn quote |
| `Guide.TwoPushesSameTheme` | bot.py:235-238 | for any valid state, two consecutive pushes whose theme draws land on the same theme send different items |
| `Buttons.Reply` | bot.py:283-288 | "markt", "mindset" and "was" (and only they) edit to the market, mindset and about texts respectively; any other data edits nothing |
| `Buttons.MenuButtonsAnswered` | bot.py:122-126 | each of the menu's three text buttons gets an edit, and no two of them the same text |

## Left out

- Telegram calls (`send_photo`, `send_message`, `edit_message_text`, `answer`), the `auto_welcome` broadcast and the `main_menu` keyboard: delivery through an external library with no logic of its own.
- The per-recipient loop of `auto_push`, with its skip of unset chat ids and the 30 % chance of also sending the menu prompt: delivery, and the random roll only decides whether a second send happens.
- The HTTP request, JSON decoding and `float(...)` conversions: network I/O and parsing. Their outcome is the `Response` value that `fetch` returns, and any exception is `Failed`.
- IEEE floating point: the ratio is a `real`, so rounding near 0.007 and 0.015, NaN and infinities are not captured.
- `datetime.now()` and `random.choice`: the hour and the random indices are parameters.
- The job queue (`run_once` after 5 s, `run_repeating` every 7200 s), `run_polling`, the environment loading and the fatal configuration check in `main`: timers, event loop and process start-up.
- The exact text of the message: it is modelled as the ordered concatenation of its parts, with the source's literal pieces.
- The `IndexError` that an empty challenge list would raise in `auto_push`: `EveryThemeHasChallenges` proves it cannot arise with the bot's tables, so `AutoPush` has no error path for it.
