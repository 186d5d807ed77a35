# Portfolio terminal shell, modelled in Dafny

This project models the in-page shell of the portfolio site (`src/terminal.tsx`). The shell is a small terminal emulator. A submitted line is trimmed and split at whitespace. The command word is lower-cased and looked up in a fixed command table. The outcome goes into a scrollback history that starts with a three-line banner. A separate flag switches the window between windowed and full-screen mode.

The Dafny modules follow the program's parts:

- `Wrappers`: the `Option` datatype (null/undefined).
- `Text`: the JavaScript string built-ins the shell uses, over `seq<char>`:
  - ECMAScript whitespace, `trim` and `split(/\s+/)`;
  - `Array.join`, `padEnd` and `repeat`;
  - ASCII case mapping;
  - splitting displayed text at line breaks.
- `Parser`: the first line of `handleCommand`, `const [command, ...args] = cmd.trim().split(/\s+/)`, as a `Line(command, args)` value.
- `Commands`: the `COMMANDS` table.
  - The fixed texts of `help`, `whoami`, `pwd` and `ls`.
  - `echo`, and `date` over a clock-string parameter.
  - The table formatters of `experience`, `skills` and `projects`, over profile data passed in as a `Profile` value.
  - Each handler's outcome: it returns a value or throws.
- `Shell`:
  - `Submit` and `Step`, the history after one submitted line, as functions;
  - `Replay`, several lines in a row;
  - the `Session` class, with fields `history` and `fullScreen`.

  `Session.Execute` models `handleCommand` step by step and is proved equal to `Step`. `Session.ToggleFullScreen` models `toggleFullScreen`.

The profile data comes from JSON files. A record is an ordered list of key/value fields, in `Object.keys` order. A value is a string or a list of strings: the skill categories and a project's technologies are arrays, and a template literal shows them comma-joined.

Each collection (`skills`, `experiences`, `projects`) is optional. A missing collection makes its handler throw the TypeError that `.map` or `Object.keys` raises on `undefined`. So the dispatcher's catch branch is reachable in the model.

React applies the two `setHistory` calls of a `clear` together. The model keeps only their net effect: the echo appended first is replaced by the banner.

Functions that only compute a value are described by the lemmas about them rather than by contracts of their own: `Response`, `OutcomeEntry` and `NotFound` by `Dispatched`, `UnknownKeepsCase`, `FailureReported` and `EntriesWithoutValue`; `Replay` by `ReplayConcat`, `ReplayForgets`, `ReplayAppends` and `ReplayBlank`; `Row`, `Block`, `Table`, `SkillLine`, `SkillsText` and `Show` by the shape and layout lemmas; the fixed texts by `InputsRead` and `HelpListsCommands`; `Join` by `JoinInterleave`, `JoinEmpty`, `SplitJoin` and `LinesOfJoinedLines`.

## Model

| member | source | states |
|---|---|---|
| Text.Trim | src/terminal.tsx:130 | `trim` gives the empty string exactly for blank input; otherwise the result starts and ends with non-whitespace; it keeps every non-whitespace character |
| Text.SplitWs | src/terminal.tsx:130 | `split(/\s+/)` always yields at least one field, and no field contains whitespace (where the fields split is stated by `SplitRun` and `SplitSeparated`) |
| Text.SplitRun | src/terminal.tsx:130 | a word, then a whitespace run of any length and mix, then a rest starting with non-whitespace, splits into the word followed by the fields of the rest |
| Text.SplitSeparated | src/terminal.tsx:130 | non-empty whitespace-free words separated by any non-empty whitespace runs split back into exactly those words |
| Text.SplitKeepsText | src/terminal.tsx:130 | the fields of a split, concatenated, spell the non-whitespace characters of the input |
| Text.SplitJoin | src/terminal.tsx:130 | splitting non-empty whitespace-free words joined by single spaces gives the same words back |
| Text.JoinInterleave | src/terminal.tsx:71 | `Array.join` puts the one separator between every pair of neighbours |
| Text.LinesOfJoinedLines | src/terminal.tsx:81-94 | `join("\n")` of parts without line breaks shows exactly those parts as lines |
| Text.TrimPadded | src/terminal.tsx:130 | `trim` of a text padded with whitespace on either side gives back the text, when it starts and ends with non-whitespace |
| Text.LowerLetters | src/terminal.tsx:131 | `toLowerCase` (ASCII) turns each capital into its small letter, which upper-cases back, and leaves every other character alone |
| Text.LowerIdempotent | src/terminal.tsx:131 | lower-casing a lower-cased name changes nothing |
| Text.PadEnd | src/terminal.tsx:79 | `padEnd(n)` has length max(\|s\|, n), starts with `s`, and is padded with spaces |
| Text.Repeat | src/terminal.tsx:83 | `"-".repeat(n)` has length n, and every character is the repeated one |
| Text.JoinEmpty | src/terminal.tsx:71 | a join with a non-empty separator is empty exactly for no parts or one empty part |
| Parser.Parse | src/terminal.tsx:130-133 | the command is empty exactly for blank input, and then there are no arguments; no token holds whitespace; every argument is non-empty |
| Parser.ParseKeepsText | src/terminal.tsx:130 | the command followed by the arguments spells the input's non-whitespace characters |
| Parser.ParseTyped | src/terminal.tsx:130 | a command and arguments separated by whitespace runs of any length and mix, with any whitespace around them, parse back into that command and those arguments |
| Parser.ParseTabs | src/terminal.tsx:130 | the line `"echo a\t\tb"` parses into `echo` with the arguments `a` and `b` |
| Parser.ParseWord | src/terminal.tsx:130 | a single whitespace-free word parses into that command with no arguments |
| Commands.EchoText | src/terminal.tsx:71 | `args.join(" ") \|\| prompt`: the prompt for no arguments or one empty argument; otherwise the non-empty space-join |
| Commands.EchoOfTokens | src/terminal.tsx:71 | for parsed arguments (none empty), echo gives the prompt exactly when there are no arguments, and the space-join otherwise |
| Commands.Label | src/terminal.tsx:79 | the label's first character is the key's first character upper-cased; then comes the rest of the key, padded with spaces; length is 1 + max(\|key\|-1, 12); an empty key gives twelve spaces |
| Commands.LabelOneLine | src/terminal.tsx:79 | a label has no line break when its key has none |
| Commands.RowOneLine | src/terminal.tsx:79-92 | a table row and a skills line have no line break when the field's key and value have none |
| Commands.RuleOneLine | src/terminal.tsx:83 | the 50-dash rule holds no line break |
| Commands.RowShape | src/terminal.tsx:79 | a table row (`Row`) starts with `"\| "`, the upper-cased first character and the rest of the key; `" \| "` sits at column max(\|key\|, 13) + 2; the shown value and a space follow, a list value shown comma-joined (`Show`) |
| Commands.BlockLayout | src/terminal.tsx:76-83 | a record block (`Block`) shows an empty line, the rule, one row per field in key order (one empty line for no fields), and the rule, when no key or shown value holds a line break |
| Commands.TableLayout | src/terminal.tsx:73-110 | the `experience`/`projects` output (`Table`) shows the block lines of every record in turn (a single empty line for no records), when no key or shown value holds a line break |
| Commands.SkillsLayout | src/terminal.tsx:88-95 | the `skills` output (`SkillsText`) shows exactly one line per category, in order (a single empty line for none), when no key or shown value holds a line break |
| Commands.SkillLineShape | src/terminal.tsx:92 | a skills line (`SkillLine`) starts with `"\| "`, the upper-cased first character and the rest of the name; `" \| "` sits at column max(\|key\|, 13) + 2; the comma-joined skills follow |
| Commands.HelpListsCommands | src/terminal.tsx:40-52 | the help text (`HelpText`)'s second line is "Available commands:"; every command name, and `clear`, heads a line of its own after it |
| Commands.HelpEntryStarts | src/terminal.tsx:42-51 | a help line starts with the indented name and a space |
| Commands.Lookup | src/terminal.tsx:145 | the registry finds a command only under its own name, and finds nothing for a name no command has |
| Commands.LookupName | src/terminal.tsx:39-111 | every command in the table is found under its own name |
| Commands.Run | src/terminal.tsx:39-111 | a handler throws exactly when the collection it reads is missing; a thrown error always carries a message; a returned value is never null |
| Commands.InputsRead | src/terminal.tsx:40-70 | only `echo` reads its arguments; `help`, `whoami`, `pwd` and `ls` (`HelpText`, `WhoAmIText`, `PwdText`, `LsText`) give the same output whatever the arguments, profile and time; `date` gives the time |
| Commands.RunMissing | src/terminal.tsx:74-98 | with its collection missing, `skills` throws the `Object.keys` TypeError and `experience`/`projects` the `.map` TypeError |
| Shell.Submit | src/terminal.tsx:129-167 | blank input leaves the history unchanged; `clear` in any case gives exactly the banner; any other line keeps the old history and appends the echo `"➜ " + raw`, `""`, the entry and `""` |
| Shell.Step | src/terminal.tsx:129-167 | `handleCommand`'s net history: blank input changes nothing; `clear` in any case gives exactly the banner; any other line keeps the history and appends the echo, `""`, the response to the parsed line (`Response`) and `""` |
| Shell.StepKeepsBanner | src/terminal.tsx:115-144 | a history that starts with the banner still starts with it after any line |
| Shell.ReplayAppends | src/terminal.tsx:136-159 | lines that are neither blank nor `clear` only append: the old history stays a prefix, with exactly four entries per line |
| Shell.ReplayConcat | src/terminal.tsx:136-165 | submitting lines in two batches (`Replay`) gives the history of submitting them all in turn |
| Shell.ReplayForgets | src/terminal.tsx:139-144 | after a `clear` line, the history is what the later lines give from a fresh banner, whatever came before |
| Shell.ReplayBlank | src/terminal.tsx:133 | blank lines, however many, leave the history unchanged |
| Shell.StepClear | src/terminal.tsx:139-144 | a line whose command is `clear` in any letter case resets the history to the banner, whatever it held |
| Shell.StepOther | src/terminal.tsx:136-159 | a line with any other command keeps the history and appends the untrimmed echo, `""`, the command's entry and `""` |
| Shell.CaseInsensitive | src/terminal.tsx:131 | command names that agree once lower-cased, that name a command and that have the same arguments, get the same entry (an unknown name keeps its case, see `UnknownKeepsCase`) |
| Shell.Dispatched | src/terminal.tsx:145-153 | a name that looks up a handler gets the entry of that handler's outcome (`OutcomeEntry`) |
| Shell.EchoInAnyCase | src/terminal.tsx:145-153 | `echo` in any letter case answers with its arguments joined by single spaces, or with the prompt when it has none |
| Shell.UnknownKeepsCase | src/terminal.tsx:154-159 | a name no command has gets `NotFound`: `"bash: " + token + ": command not found"`, with the token's case kept |
| Shell.FailureReported | src/terminal.tsx:161-166 | a failing handler does not escape; its entry is `"Error: "` followed by the TypeError's message |
| Shell.EntriesWithoutValue | src/terminal.tsx:152-165 | a null result leaves `""`; a failure without a message leaves `"Error: An unknown error occurred"`. Both branches are unreachable in the model: by `Run`'s contract no handler returns nothing or throws without a message |
| Shell.BlankTranscript | src/terminal.tsx:133 | the line `" \t "` changes nothing |
| Shell.ClearTranscript | src/terminal.tsx:139-144 | the line `CLEAR` restores the banner |
| Shell.Session.constructor | src/terminal.tsx:115-120 | a new session holds exactly the banner (`Banner`) and is windowed |
| Shell.Session.Execute | src/terminal.tsx:129-167 | `handleCommand` leaves the history `Step` prescribes; it keeps the banner prefix and never changes the window mode |
| Shell.Session.ToggleFullScreen | src/terminal.tsx:176-178 | the window mode flips, and the history is untouched |
| Shell.ToggleTwiceAround | src/terminal.tsx:176-178 | toggling twice around a command restores the window mode; the history is what the command alone gives |

## Left out

- Rendering: JSX, CSS classes, the window buttons, auto-scroll, input focus and the controlled input with `handleSubmit`. These are UI with no effect on the history.
- Loading the JSON profile files. The data is the `Profile` parameter. The education file is loaded but no command reads it.
- `date`: the clock and the locale-dependent `Date.toString` are replaced by a clock-string parameter. `Replay` uses one clock string for all of its lines.
- Inherited object members in the command lookup. `COMMANDS["constructor"]` and `COMMANDS["__proto__"]` are truthy, and the lookup would find them. The registry is modelled as the closed set of the named handlers, so those names are reported as not found.
- The `typeof ... === "function"` test in the dispatcher: every named handler is a function, so only the call branch is modelled.
- Text.Lower: case mapping is ASCII only. JavaScript's full Unicode `toLowerCase` and `toUpperCase` are not modelled (for example the Kelvin sign, or `ß` becoming `SS`).
- Strings are sequences of code points. JavaScript counts UTF-16 code units in `padEnd`, `charAt` and `slice`, so the model differs for characters outside the Basic Multilingual Plane.
- `Object.keys` puts integer-like keys first. The model takes a record's fields in the order given.
- Profile values other than strings and lists of strings (numbers, nested objects) are not modelled.
- The TypeError messages use V8's wording. Other engines word them differently.
- React state batching: only the net effect of `handleCommand`'s `setHistory` calls is modelled.
- Commands.HelpListsCommands: states that each command name starts a help line, not that the help text's lines are free of line breaks. That is evident from the listing but not proved.
- Commands.BlockLayout, Commands.TableLayout, Commands.SkillsLayout: the display layout is stated only for profile data whose keys and shown values hold no line break. A value with a line break shows more lines than there are fields, and the model does not describe those extra lines.
