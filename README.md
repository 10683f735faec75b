# BaudRate terminal core in Dafny

BaudRate is a retro CRT dashboard written in React. Its one piece of real logic is the
terminal's command interpreter. A submitted line is trimmed, echoed into the transcript
and recorded for recall. It is then split on single spaces, and its lower-cased first
token picks a branch of a fixed switch: `help`, `clear`, `date`, `whoami`, `about`,
`theme`, `ask`, or the unknown-command error. The up and down arrow keys walk back and
forth through the recorded commands.

Two small supporting pieces are modelled as well:

- the phosphor colour table, an enum of four members plus one style entry per member;
- the App component's hex-to-RGB decoder and its two single-value view updates.

Modules:

- `JsString`: the JavaScript string built-ins the interpreter relies on (`trim`,
  `split(' ')`, `join`, `toUpperCase`, `toLowerCase`), with their round trips.
- `JsNumber`: `parseInt(s, 16)`, which yields NaN or an integer, and the decimal rendering
  of a number inside a template string.
- `Themes`: `ThemeColor`, `THEMES`, and the JavaScript `key in ThemeColor` test. That test
  counts both the enum's own keys and the names every object inherits from
  `Object.prototype`.
- `App`: `replace('#','')`, `substring`, the three-component decoder, its formatting
  partner, and the `toggleMode` and `[RESET]` updates.
- `Terminal`: the interpreter. It has two layers:
  - The pure `TermState` value and its transition functions `Execute`, `Up`, `Down`,
    `KeyDown` and `Chunk`. All the lemmas are stated over these.
  - The class `Terminal.Terminal`, whose fields are the component's state. Its methods
    update those fields step by step, in the source's order. Each method is proved to
    leave the object in exactly the state the matching transition function gives.

React's functional updates (`setHistory(prev => …)`) are applied in program order within
one command. That is why `clear` leaves the transcript empty even though the echo was
appended first. The `theme` prop together with `setTheme` is modelled as a field of the
terminal.

## Model

| member | source | states |
|---|---|---|
| JsString.Trim | components/Terminal.tsx:91 | the result is empty iff the line is all whitespace; otherwise it neither starts nor ends with whitespace, it is the slice of the line after the leading whitespace, and only whitespace follows it |
| JsString.TrimIdempotent | components/Terminal.tsx:91 | trimming twice is trimming once |
| JsString.Split | components/Terminal.tsx:101 | `split(' ')` never returns an empty list, and no piece holds the separator |
| JsString.JoinSplit | components/Terminal.tsx:101-103 | joining the pieces of a split with the separator gives the string back |
| JsString.SplitJoin | components/Terminal.tsx:101-103 | splitting a join of separator-free pieces gives the pieces back |
| JsString.UpperChar | components/Terminal.tsx:146 | the upper case of a character is never an ASCII lower-case letter; ASCII letters move by 32; other characters are kept, apart from dotless i and long s |
| JsString.LowerChar | components/Terminal.tsx:102 | the lower case of a character is never an ASCII capital; ASCII capitals move by 32; other characters are kept, apart from the Kelvin sign |
| JsString.ToUpper | components/Terminal.tsx:146 | same length, character by character upper case, no ASCII lower-case letter left |
| JsString.ToLower | components/Terminal.tsx:102 | same length, character by character lower case, no ASCII capital left |
| JsNumber.HexDigitsPrefix | App.tsx:46-48 | the length of the longest run of hexadecimal digits at the front of a string |
| JsNumber.HexValue | App.tsx:46-48 | the value of n hexadecimal digits is below 16^n |
| JsNumber.ParseIntHexDigits | App.tsx:46-48 | `parseInt(s, 16)` of a non-empty string of hexadecimal digits is the value of those digits |
| JsNumber.ParseIntHexShort | App.tsx:46-48 | `parseInt` of at most two characters is NaN or an integer in -15..255 |
| JsNumber.DecimalString | App.tsx:49 | a number prints as at least one decimal digit and nothing else, with no leading zero unless the number is 0 |
| JsNumber.DecimalRoundTrip | App.tsx:49 | reading the printed decimal digits back gives the number |
| JsNumber.DecimalInjective | App.tsx:49 | distinct numbers print differently |
| Themes.FromValue | App.tsx:317 | `t as ThemeColor` read back: a found member has that runtime value; if none is found, no member has it |
| Themes.KeyIsValue | utils/constants.ts:1-6 | every member's runtime value is its own key name, so a key is itself a valid value |
| Themes.KeysAreValues | utils/constants.ts:1-6 | reading any member's key back as a value gives that member |
| Themes.MembersEnumerated | utils/constants.ts:1-6 | the declaration order lists each of the four members exactly once |
| Themes.ObjectKeysInOrder | utils/constants.ts:1-6 | `Object.keys(ThemeColor)` is AMBER, GREEN, CYAN, WHITE, in that order |
| Themes.PrototypeKeysHaveLowerCase | components/Terminal.tsx:147 | every name inherited from `Object.prototype` holds a lower-case letter |
| Themes.UpperCaseHasPropertyIffKey | components/Terminal.tsx:146-147 | for an upper-cased string, `in ThemeColor` holds iff the string is one of the four member keys |
| Themes.ThemesComplete | utils/constants.ts:8-45 | THEMES has exactly one entry per member: the one its literal gives it |
| Themes.Style | utils/constants.ts:8-45 | `THEMES[t]` is defined for every member and is that member's entry |
| Themes.ThemeHexWellFormed | utils/constants.ts:10-37 | every `hex` is `#` followed by six lower-case hexadecimal digits |
| Themes.TextEmbedsHex | utils/constants.ts:9-38 | each `text` class names the entry's own hex, at position 6 |
| Themes.BorderEmbedsHex | utils/constants.ts:10-40 | each `border` class names the entry's own hex |
| Themes.BgEmbedsHex | utils/constants.ts:10-41 | each `bg` class names the entry's own hex |
| Themes.SelectionEmbedsHex | utils/constants.ts:10-42 | each `selection` class names the entry's own hex |
| Themes.CursorEmbedsHex | utils/constants.ts:10-43 | each `cursor` class names the entry's own hex |
| Themes.ThemeClassesEmbedHex | utils/constants.ts:8-45 | through the `THEMES` lookup, every class string that names a hex colour names its own entry's hex |
| App.IndexOf | App.tsx:45 | given a character, the position of its first occurrence, or -1 iff it does not occur |
| App.RemoveFirst | App.tsx:45 | `replace('#', '')` removes only the first `#` and keeps the rest in order |
| App.Substring | App.tsx:46-48 | `substring` on in-range indices is the slice; the result is never longer than the string or the index span |
| App.DecodeHexBounded | App.tsx:45-48 | for any colour string, each decoded component is NaN or an integer in -15..255 |
| App.DecodeHexColor | App.tsx:45-48 | a `#rrggbb` colour decodes to the values of its three digit pairs, each in 0..255 |
| App.LowerHexChar | App.tsx:46-48 | the lower-case digit for a value below 16 reads back as that value |
| App.Hex2 | App.tsx:46-48 | two lower-case digits whose value is the byte |
| App.FormatHex | App.tsx:45-48 | three bytes as `#rrggbb`: a well-formed colour whose digit pairs spell the bytes |
| App.DecodeFormatHex | App.tsx:45-49 | decoding a formatted colour gives the three bytes back, and `colorRGB` is `"r, g, b"` in decimal |
| App.Hex2OfValue | App.tsx:46-48 | two lower-case digits are the only spelling of their value |
| App.FormatDecodeHex | App.tsx:45-48 | decoding a well-formed colour and formatting the result gives the colour back |
| App.ThemeHexDecodes | App.tsx:41-48 | each theme's hex decodes to the rgb triple that its entry writes in its shadows |
| App.ThemeRgbaLiteral | utils/constants.ts:11-39 | the `rgba(` opening built from that triple is exactly the text in the table |
| App.ThemeRgbaText | utils/constants.ts:11-38 | each `text` class holds that `rgba(` opening in both its shadows: at position 36 and again 14 characters after the first |
| App.ThemeRgbaGlow | utils/constants.ts:12-39 | each `glow` class holds that `rgba(` opening in both its drop shadows: at position 22 and again 28 characters after the first |
| App.ThemeRgbaMatchesHex | App.tsx:41-49 | through the lookup, all four rgba colours of an entry, two in `text` and two in `glow`, are the decoding of the entry's own hex |
| App.ToggleMode | App.tsx:289-291 | negates `isTerminalMode` and keeps the rest of the state |
| App.ToggleModeTwice | App.tsx:289-291 | toggling twice is the identity |
| App.ResetView | App.tsx:358 | both rotations become 0 and nothing else changes |
| App.ResetViewIdempotent | App.tsx:285-358 | resetting twice is resetting once, and the initial state is already reset |
| App.PhosphorButtons | App.tsx:314-317 | one button per `Object.keys(ThemeColor)` entry |
| App.PhosphorButtonsAreMembers | App.tsx:314-317 | button i sets member i of the declaration order, and there are exactly four, so `t as ThemeColor` is always a genuine member |
| Terminal.ParseRoundTrip | components/Terminal.tsx:101-103 | the first token holds no space; the token, followed by one space and `commandArgs` when there are more tokens, is the trimmed line; splitting `commandArgs` again gives the remaining tokens; `mainCommand` is the token lower-cased |
| Terminal.DoubleSpaceArgument | components/Terminal.tsx:101-103 | two spaces after the command leave an argument that starts with a space |
| Terminal.ThemeErrorListsMembers | components/Terminal.tsx:156 | the unknown-theme error reads `Unknown theme. Available: amber, green, cyan, white` |
| Terminal.AcceptedTheme | components/Terminal.tsx:146-148 | a theme is chosen iff the upper-cased argument is a member key, and that member's key is the upper-cased argument |
| Terminal.Respond | components/Terminal.tsx:105-193 | `clear` gives the empty transcript; every other command keeps the echoed transcript as a prefix; no branch adds an `input` line |
| Terminal.Up | components/Terminal.tsx:210-216 | ArrowUp keeps the recall index in range; its full effect is stated by Terminal.RecallShowsSelected |
| Terminal.Down | components/Terminal.tsx:217-226 | ArrowDown keeps the recall index in range; its full effect is stated by Terminal.RecallShowsSelected |
| Terminal.ExecuteBlank | components/Terminal.tsx:91-92 | an empty or all-whitespace line changes nothing |
| Terminal.ExecuteRecords | components/Terminal.tsx:95-99 | a non-blank line is appended to the recall list, the index becomes -1 and the input is cleared; unless it is `clear`, the old transcript is kept, followed by exactly one `input` line with the trimmed text |
| Terminal.ClearEmpties | components/Terminal.tsx:119-121 | `clear` leaves the transcript empty, its own echo included |
| Terminal.HelpAppendsSeven | components/Terminal.tsx:107-117 | `help` appends exactly seven output lines to the existing transcript |
| Terminal.ThemeCommand | components/Terminal.tsx:145-159 | `theme X` is accepted iff X upper-cased names a member; then that member becomes the theme and `Theme changed to <NAME>` is printed; otherwise the theme stays and the error lists amber, green, cyan, white |
| Terminal.DoubleSpaceThemeRejected | components/Terminal.tsx:101-159 | `theme  <name>` with two spaces is always rejected and the theme is unchanged |
| Terminal.AskWithoutQuestion | components/Terminal.tsx:161-168 | `ask` with no question prints `Usage: ask <your question>` and starts no query |
| Terminal.UnknownCommand | components/Terminal.tsx:188-192 | a token the switch does not know gives exactly one error, `Command not found: <token>` |
| Terminal.ExecutePreserves | components/Terminal.tsx:97-98 | submitting a line keeps the recall index in range, and the recall list only grows |
| Terminal.KeyDownPreserves | components/Terminal.tsx:207-228 | every key keeps the recall index in range, and the recall list only grows |
| Terminal.RecallShowsSelected | components/Terminal.tsx:210-226 | ArrowUp below the oldest command raises the index by one and shows `commandHistory[len-1-newIndex]`, whatever was typed; ArrowDown from a positive index lowers it and shows the newer command, and from 0 sets -1 and clears the input; ArrowUp at the oldest and ArrowDown at -1 do nothing; no other field changes |
| Terminal.UpDownInverse | components/Terminal.tsx:210-226 | when the input shows the selected command, ArrowDown undoes ArrowUp and ArrowUp undoes ArrowDown |
| Terminal.Terminal.constructor | components/Terminal.tsx:17-22 | the initial state: empty transcript, input, stream and recall list; index -1; not processing |
| Terminal.Terminal.SetInput | components/Terminal.tsx:271 | only the input line changes |
| Terminal.Terminal.ExecuteCommand | components/Terminal.tsx:90-194 | the fields, updated in source order, end up as `Execute` of the old state, and the recall invariant holds |
| Terminal.Terminal.Dispatch | components/Terminal.tsx:105-193 | the switch on the command word: the transcript becomes `Respond` of the echoed transcript, the theme `NextTheme`, a query sets `isProcessing` and clears the stream, and no other field changes |
| Terminal.Terminal.HandleKeyDown | components/Terminal.tsx:207-228 | the fields end up as `KeyDown` of the old state, and the recall invariant holds |
| Terminal.Terminal.ReceiveChunk | components/Terminal.tsx:174 | the chunk is appended to the streamed answer, and nothing else changes |

## Left out

- The boot sequence (components/Terminal.tsx:29-74): timers, random delays and the clock. `WELCOME_MESSAGE` in utils/constants.ts is never used by the modelled code.
- `date`: the text of `new Date().toString()` is the parameter `now`, because the clock is outside the model.
- The non-empty `ask` path after its first `await` (components/Terminal.tsx:172-185, 197-204). The model covers:
  - what happens before the await: `isProcessing` becomes true and the stream is cleared;
  - one `onChunk` append (`ReceiveChunk`).

  The completion and error callbacks and the effect that commits the stream are left out. They depend on React's render and effect scheduling and on a stale closure, and services/geminiService.ts is not part of this model.
- Terminal.Terminal.HandleKeyDown: the source only renders the input element while no query runs, so keys cannot arrive during a query. The model does not restrict the keys to that case, and `preventDefault` has no counterpart.
- Rendering: the canvas loops in App.tsx, the Dashboard, HackerGlobe and Scanlines components, auto-scroll, focus, JSX markup, the settings modal, and the `parseFloat` sliders. All of these are floating point, animation-frame or DOM work.
- JsString.ToUpper and JsString.ToLower: keep the length of the string, while JavaScript's case mapping can change it (`ß` upper-cases to `SS`, `İ` lower-cases to two code points). This shows only in the text of `Command not found: <token>` for such input; theme acceptance and dispatch are unaffected.
- JsString.UpperChar and JsString.LowerChar: apart from ASCII letters, they map only the non-ASCII characters whose case maps to an ASCII letter: dotless i and long s upward, the Kelvin sign downward. Every other character is kept, which is weaker than full Unicode case mapping. Strings are sequences of Unicode scalar values, not UTF-16 code units.
- Themes.Entry: the class-string literals are written as concatenations, split where a colour is named (`Rgba` builds the `rgba(r,g,b,` part). Each concatenation spells exactly the source literal.
- The view rotations are `real` values; their `toFixed` display is not modelled.
