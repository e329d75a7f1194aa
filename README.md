# Genshin profile bot: verified model of its handler core

This project models the sequential core of `bot.py`, a Telegram bot that links
a chat user to a Genshin Impact account id (UID), shows a profile card with one
button per character, shows a character's build card when such a button is
pressed, and remembers which rendering template each user prefers.

What is modelled:

- **UID linking.** `/genshinlogin <uid>` accepts a first argument of 8 to 10
  digits and writes it into the UID map (`user_uid_map`). A plain text message
  is a second, looser path: it is ignored unless the user's `awaiting_uid` flag
  is set, and it accepts digits of any length once whitespace is stripped. It
  then clears the flag. Both keep the invariant that every linked UID is a
  non-empty digit string (`Bot.BotState.Valid`).
- **Template preferences.** A template button's data `<category>_<n>` is split
  on `_` and its second field read as an integer. Malformed data is refused.
  Otherwise one category of the user's nested map (`user_template_settings`)
  is set, and the map is created first if the user has none. Readers use the
  default 1 for a missing user or category.
- **Profile keyboard.** The first twelve characters are laid out in order, in
  rows of four, by the same append-and-reset loop as the source
  (`Keyboard.ChunkRows`). It is proved equal to a reference layout
  (`Keyboard.Rows`). Its rows are non-empty, every row but the last is full,
  there are at most three rows, and reading them in order gives the buttons
  back.
- **Character buttons.** A button carries `char_<id>`. The press is decoded
  with the same split/int parse, and the build card is the first one whose id
  matches (`Cards.FindCard`), or "not found".

Chat replies are returned as outcome datatypes (`Bot.LoginOutcome`,
`Bot.ProfileOutcome`, ...). The game-data and card-rendering services are
three functions of a `Bot.Enka` value passed to the handlers, so each
handler's outcome is stated in terms of what those services answer.

`bot.py` has no ownership check on button presses, no save/discard
confirmation of a new UID, no navigation by editing a card message (each card
is sent as a new photo; only the "Fetching..." placeholder of
`generate_profile_card` is edited or deleted, bot.py:106-130) and no durable
store: every table lives in memory for the life of the process. Its text path accepts
a UID of any number of digits, while `/genshinlogin` requires 8 to 10
(`Uid.UidTextHasNoLengthBound`).

Observation: no code in `bot.py` ever sets `awaiting_uid` to a true value.
Every handler in the model leaves the flag unchanged or sets it to false
(see the `ensures` of `Bot.BotState.HandleUid`). Starting from the empty
state, the text path therefore always answers `NotAwaiting`, unless code
outside `bot.py` sets the flag.

Simplifications, stated where they are defined (module `Text`): Python's
`str.isdigit` and `int` are taken over the ASCII digits only, yielding a
`nat`, and `str.strip` removes ASCII whitespace only.

## Model

| member | source | states |
|---|---|---|
| `Text.IsDigits` | bot.py:31 | `str.isdigit`: non-empty, and every character an ASCII digit |
| `Text.Value` | bot.py:85 | `int` of a digit string: its decimal value, read from the most significant digit |
| `Text.Decimal` | bot.py:117 | `str(n)` is a non-empty digit string that `int` reads back as `n` |
| `Text.Strip` | bot.py:30 | `strip` never returns text that starts or ends with whitespace, and never lengthens it |
| `Text.StripIsSlice` | bot.py:30 | `strip` keeps a contiguous middle slice of its input and removes only whitespace before and after it |
| `Text.StripPadded` | bot.py:30 | `strip` of whitespace + core + whitespace is exactly the core, for a core with non-space ends |
| `Text.StripDigits` | bot.py:41-44 | stripping an argument that passed `isdigit` leaves it unchanged |
| `Text.Split` | bot.py:79 | `split("_")` yields at least one part, no part contains `_`, and joining the parts with `_` gives the input back |
| `Text.SplitJoin` | bot.py:79 | splitting undoes joining for parts free of `_` (the other half of the round trip) |
| `Text.SplitAfterField` | bot.py:79 | the first part of a split is the text before the first `_` |
| `Text.SplitHasTwoParts` | bot.py:79-80 | the split has two or more parts exactly when `_` occurs in the data |
| `Uid.CheckLoginArgs` | bot.py:41-47 | usage error exactly when the argument is missing or not all digits; accepted exactly when it is all digits and 8 to 10 long, and then the UID is that argument |
| `Uid.CheckUidText` | bot.py:30-34 | the message is accepted exactly when it is a run of digits, of any length, with only whitespace around it, and the UID is then that run; an all-digit message is accepted unchanged |
| `Uid.UidTextPadding` | bot.py:30-31 | the stripped message passes `isdigit` exactly when the message is whitespace-padded digits, and is then those digits |
| `Uid.UidTextRejectsOther` | bot.py:30-33 | a character that is neither a digit nor whitespace anywhere in the message (`12a`) gets it refused |
| `Uid.UidTextRejectsInnerSpace` | bot.py:30-33 | whitespace between two digits (`12 34`) gets the message refused |
| `Uid.UidTextAcceptsPaddedDigits` | bot.py:30-34 | any digit string of any length, with any surrounding whitespace, is accepted and stored without the whitespace |
| `Uid.UidTextRejectsBlank` | bot.py:30-33 | a whitespace-only or empty message is refused |
| `Uid.LoginStricterThanUidText` | bot.py:30-47 | every 8- to 10-digit UID is accepted unchanged by both the command and the text path |
| `Uid.UidTextHasNoLengthBound` | bot.py:31-47 | a 7-digit UID is refused by the command for its length but accepted by the text path |
| `CallbackData.ParseTagged` | bot.py:79-88 | data without `_` is refused; an accepted tag is the `_`-free text before the first `_` |
| `CallbackData.ParseTaggedFields` | bot.py:79-88 | for `tag_rest`, the parse accepts exactly when the field of `rest` up to the next `_` is all digits, and then yields the tag and that field's value |
| `CallbackData.Tagged` | bot.py:62-70 | `f"{tag}_{n}"` is the tag, an underscore, then digits whose value is `n` |
| `CallbackData.CharId` | bot.py:147 | data without `_` yields no id; the data `char_<n>` yields `n` |
| `CallbackData.TaggedRoundTrip` | bot.py:70-85 | data built as `f"{tag}_{n}"` parses back to `(tag, n)` |
| `CallbackData.CharIdRoundTrip` | bot.py:117-147 | `int("char_<id>".split("_")[1])` is `id` |
| `Templates.Lookup` | bot.py:109 | the user's stored choice for the category when there is one, otherwise template 1; any other result is a stored choice |
| `Templates.Upsert` | bot.py:90-93 | the user gets the category set to the choice; the user's other categories and every other user are kept; only the user may be added |
| `Templates.LookupUpsertSame` | bot.py:90-93 | after setting a user's category, the lookup of that category yields the choice, whatever was stored before |
| `Templates.LookupUpsertOther` | bot.py:90-93 | every other user and every other category reads as before |
| `Templates.ProfileMenuLiteral` | bot.py:62-63 | the profile selector's buttons carry exactly `profile_1` and `profile_2` |
| `Templates.CardMenuLiteral` | bot.py:70 | the card selector's buttons carry exactly `card_1` to `card_5` |
| `Templates.MenuData` | bot.py:62-85 | one button per template number; for a category without `_`, each button's data parses back to its category and its template number, so it is never refused |
| `Templates.ChooseThenLookup` | bot.py:79-109 | choosing template `k` through its button data, then looking up that category, yields `k` |
| `Keyboard.FirstCharacters` | bot.py:116 | the first twelve characters of the roster in order, or all of them when there are fewer |
| `Keyboard.ButtonFor` | bot.py:117 | a character's button is labelled with its name and its data decodes to its id |
| `Keyboard.Buttons` | bot.py:116-117 | one button per character, in roster order, each labelled with its character's name and decoding to that character's id |
| `Keyboard.RowsFlatten` | bot.py:115-122 | reading the rows in order gives the buttons back, none lost, none repeated |
| `Keyboard.RowsShape` | bot.py:115-122 | rows are non-empty, all but the last hold exactly four buttons, and there are as many rows as fours in the input, rounded up |
| `Keyboard.RowsAppend` | bot.py:118-120 | a row is closed after every fourth button, so full rows and the rest lay out independently |
| `Keyboard.ChunkRows` | bot.py:115-122 | the append-and-reset loop yields exactly the reference rows of its input |
| `Keyboard.LayoutKeyboard` | bot.py:115-122 | the loop builds the reference rows of the first twelve characters: at most three rows, non-empty, full but for the last, in order; no keyboard for an empty roster |
| `Cards.FirstMatchUnique` | bot.py:149-163 | the first card with a given id is unique |
| `Cards.FindCard` | bot.py:148-165 | the search yields the first card whose id matches, and none exactly when no card matches |
| `Bot.BotState.Awaiting` | bot.py:28 | `context.user_data.get("awaiting_uid")`: the user's flag is present and true |
| `Bot.BotState.constructor` | bot.py:11-12 | the bot starts with no linked UID, no preferences and no awaited UID |
| `Bot.BotState.GenerateProfileCard` | bot.py:98-130 | a fetch error or render error is reported; an empty roster ends with no characters; otherwise the card uses the user's profile template (default 1) and the reference keyboard of at most three rows |
| `Bot.BotState.Myc` | bot.py:19-25 | a user without a linked UID is told so; otherwise the profile of the linked UID is reported |
| `Bot.BotState.GenshinLogin` | bot.py:40-50 | a refused argument changes nothing; an accepted UID replaces this user's entry only, keeps every UID a digit string, and the profile of that UID follows |
| `Bot.BotState.HandleUid` | bot.py:27-37 | ignored without the flag; non-digit text changes nothing; digits are stored for this user only, the flag is cleared and the profile follows |
| `Bot.BotState.StoreChoice` | bot.py:75-95 | malformed data changes nothing; otherwise exactly the user's one category is set, the user's map being created if absent |
| `Bot.BotState.CharacterCallback` | bot.py:133-167 | no linked UID; build-card failure; malformed data; no matching card exactly when no card has the id; otherwise the first matching card, its image or its missing image, rendered with the user's card template |

## Left out

- Telegram transport: `reply_text`, `reply_photo`, `edit_text`, `delete`,
  `query.answer` and the keyboard markup object. Handlers return outcome
  values instead; failures of the transport itself are not modelled.
- The `enka` showcase fetch, the `ENC` profile and build-card rendering, and
  the asset update (`update_assets`). They are foreign network and imaging
  calls, and appear only as the functions of `Bot.Enka`.
- Temporary files and image saving. They are file I/O.
- `async` execution, handler registration in `myc_handlers`, and the regular
  expressions that pre-filter callback dispatch. They are framework plumbing.
- The `/start` greeting and the messages sent by `/template` and the two
  selector handlers. These are static replies. The data of the selector
  buttons is modelled (`Templates.MenuData`).
- CallbackData.ParseTagged: Python's `int` also accepts surrounding whitespace
  and non-ASCII digits. The model refuses them, so forged data such as `card_3 `
  (trailing space) or `card_٣`, which the dispatch pattern `(profile|card)_\d+`
  lets through, is refused here but accepted by `store_choice`.
- Uid.CheckLoginArgs: `isdigit` also accepts non-ASCII digits; the model
  accepts ASCII digits only.
- Text.Strip: removes ASCII whitespace only; Python also strips Unicode
  whitespace such as U+00A0.
- Keyboard.LayoutKeyboard: the buttons of the first twelve characters are
  built first and then laid out by the loop (`Keyboard.ChunkRows`); the source
  builds each button inside the loop. The rows are the same.
- Keyboard.ButtonFor: character ids are natural numbers, so the model does not
  cover a negative id in a button's data.
- Bot.BotState.CharacterCallback: a malformed press is one outcome
  (`MalformedData`); the text of the Python exception (an `IndexError` or a
  `ValueError`) is not modelled.
