# Portfolio command palette, skills typer and theme provider

This project models the three pieces of the portfolio site that have logic
beyond rendering. It proves what each one guarantees.

- **The command palette** (`CommandBar.tsx`). It is a small terminal with an
  open flag, an input line, a scrollback of outputs, a command history and a
  recall position.
  - `executeCommand` trims the line and ignores a blank one.
  - Otherwise it echoes the line, pushes it onto the front of the history,
    resets recall and clears the input.
  - It lower-cases the line, splits it on single spaces and dispatches on the
    first word: `help`, `clear`, `exit`, `theme`, `cd`, `whoami`, `ls`, or the
    "command not found" default.
  - The arrow keys walk the history.
  - Ctrl/Meta+K toggles the palette and Escape closes it.

  The component is the class `CommandBar.CommandBar`. Each method is proved
  against a pure transition on a `Palette` value (`Execute`, `KeyDown`,
  `GlobalKey`), and the properties are lemmas about those transitions.
  Router and DOM calls (`navigate(-1)`, `navigate(path)`, the delayed
  `scrollIntoView`) are kept as a list of recorded `Effect`s. The theme switch
  goes through the theme provider object.

- **The skills typer** (`TerminalTyper` in `Skills.tsx`). The skill names are
  typed out one character per interval tick, separated by `" | "`.
  - `fullTextLength` is computed by a `reduce`.
  - The tick advances `charIndex` up to that length.
  - The render loop keeps a running character count and shows each item's
    clamped prefix of name and separator.

- **The theme provider** (`ThemeContext.tsx`).
  - The initial theme is the stored one, or `system`.
  - `setTheme` replaces the theme.
  - An effect removes the three theme classes from the root element, adds
    `theme-<t>` unless the theme is `system`, and writes the theme to local
    storage under `portfolio-theme`.

  The provider is the class `ThemeContext.ThemeProvider`. Its class list is
  a `seq<string>` and its local storage a `map<string, string>`.

The JavaScript string operations the palette relies on are modelled in
`JsString`:
- `trim`, with the ECMAScript whitespace set;
- `toLowerCase`, for ASCII letters;
- `split` on one character, keeping empty parts;
- `join`.

Two behaviours of the source are modelled as written:
- **Recall order.** Lines are pushed onto the front of the history, but
  recall reads `history[length - 1 - index]`. So the first ArrowUp after
  several submissions shows the oldest line, not the latest
  (`FirstArrowUpShowsOldest`).
- **Stored theme not checked.** The stored theme is cast to `Theme` without
  a check. An unknown stored value becomes the current theme, so the
  provider's theme is a `string`. What follows depends on the value:
  - If the value holds no whitespace, its class `theme-<value>` is added and
    never removed again (`UnknownStoredThemeClassStays`).
  - If it holds ASCII whitespace (a stored `dark mode`, say), `classList.add`
    throws. The effect then stops after removing the theme classes and
    before writing to storage (`SpacedThemeThrows`, `ApplyTheme`).

## Model

| member | source | states |
|---|---|---|
| CommandBar.CommandBar.constructor | Portfolio/src/components/CommandBar.tsx:15-19 | mounting gives a closed palette, empty input and history, recall position -1, and the welcome message as the only output |
| CommandBar.Mounted | Portfolio/src/components/CommandBar.tsx:27-46 | the mounted state keeps recall in range, is closed and has no history |
| CommandBar.GlobalKey | Portfolio/src/components/CommandBar.tsx:55-62 | Ctrl+K or Meta+K toggles the palette, Escape closes it, any other key leaves it as it is |
| CommandBar.CommandBar.HandleKeyDown | Portfolio/src/components/CommandBar.tsx:55-62 | the handler sets the open flag to the `GlobalKey` result |
| CommandBar.CommandBar.HandleOpenEvent | Portfolio/src/components/CommandBar.tsx:65 | the `open-command-bar` event opens the palette |
| CommandBar.KeyDown | Portfolio/src/components/CommandBar.tsx:76-95 | recall keeps the position in [-1, \|history\|-1]; only the position and the input change; when the position moves, the input is `history[\|history\|-1-position]`, or empty at -1; a press that leaves the position alone (any key but the two arrows, ArrowUp at the oldest entry, ArrowDown at -1) changes nothing |
| CommandBar.RecallSteps | Portfolio/src/components/CommandBar.tsx:77-94 | ArrowUp advances exactly when older history remains, and at the oldest entry changes nothing; ArrowDown steps back, goes from 0 to -1 with an empty input, and from -1 does nothing |
| CommandBar.ArrowDownUndoesArrowUp | Portfolio/src/components/CommandBar.tsx:77-94 | ArrowDown after an ArrowUp that moved returns to the old position |
| CommandBar.KeyDowns | Portfolio/src/components/CommandBar.tsx:76-95 | any series of arrow keys keeps the recall position in range |
| CommandBar.RecallNeverChangesHistory | Portfolio/src/components/CommandBar.tsx:76-95 | any series of key presses changes nothing but the recall position and the input; the history is never modified |
| CommandBar.CommandBar.HandleInputKeyDown | Portfolio/src/components/CommandBar.tsx:76-95 | the handler keeps recall in range and moves the component to `KeyDown` of its old state |
| CommandBar.CommandBar.AddToOutput | Portfolio/src/components/CommandBar.tsx:103-105 | `addToOutput` appends exactly one entry of the given kind and content |
| CommandBar.CommandBar.Record | Portfolio/src/components/CommandBar.tsx:141-166 | each router or scroll call is appended to the recorded effects, after those made before |
| CommandBar.AddToOutput | Portfolio/src/components/CommandBar.tsx:103-105 | `addToOutput` appends exactly one entry, with the given kind and content, after the old scrollback, and changes nothing else |
| CommandBar.Execute | Portfolio/src/components/CommandBar.tsx:107-181 | a blank line leaves the state unchanged; any other line puts its trimmed form at the front of the history, resets recall to -1 and empties the input; recall stays in range |
| CommandBar.CommandBar.ExecuteCommand | Portfolio/src/components/CommandBar.tsx:107-181 | the method keeps recall in range and moves the component and the provider's theme to `Execute` of the old state |
| CommandBar.BlankLineIsIgnored | Portfolio/src/components/CommandBar.tsx:107-109 | input that is empty after trimming changes no output, history, position, input, theme or navigation |
| CommandBar.ExecuteNonBlank | Portfolio/src/components/CommandBar.tsx:107-123 | a non-blank line is dispatched on the state that already has the echo and the history entry |
| CommandBar.SubmissionIsEchoedAndRecorded | Portfolio/src/components/CommandBar.tsx:111-117 | a non-blank line goes to the front of the history, with recall at -1 and an empty input; unless it is `clear`, the old scrollback stays and is followed by the trimmed line as a `command` entry before any response |
| CommandBar.Echo | Portfolio/src/components/CommandBar.tsx:111-117 | after the echo and the history push, recall is in range |
| CommandBar.Parse | Portfolio/src/components/CommandBar.tsx:119-121 | the command name and the argument hold no space; the name holds no upper-case letter; there is an argument exactly when the line contains a space |
| CommandBar.ParseWords | Portfolio/src/components/CommandBar.tsx:119-121 | words joined by single spaces parse to the first word lower-cased and the second word lower-cased, if there is one |
| CommandBar.LineOfTwoWords | Portfolio/src/components/CommandBar.tsx:108-121 | two lower-case words joined by a space are already trimmed, and parse to those two words |
| CommandBar.Classify | Portfolio/src/components/CommandBar.tsx:123-179 | the `switch` falls to the default exactly when the name is none of the seven command names; otherwise it picks the case whose label is the name |
| CommandBar.ClassifyLabel | Portfolio/src/components/CommandBar.tsx:123-179 | each of the seven cases is picked by its own label |
| CommandBar.Dispatch | Portfolio/src/components/CommandBar.tsx:123-180 | no case changes the history, the recall position or the input; `clear` empties the scrollback; every other case keeps the old scrollback as a prefix |
| CommandBar.DispatchCase | Portfolio/src/components/CommandBar.tsx:124-179 | `help`, `whoami` and `ls` append one response (the help table, the identity card, the listing of the known directories); `clear` empties the scrollback; `exit` closes the palette; `theme` and `cd` run their handlers; an unknown name appends one error naming it |
| CommandBar.DispatchAddsOne | Portfolio/src/components/CommandBar.tsx:124-179 | every case but `clear` and `exit` appends exactly one output |
| CommandBar.OneResponsePerCommand | Portfolio/src/components/CommandBar.tsx:111-179 | a command other than `clear` and `exit` adds exactly two outputs: the echo, then one response or error |
| CommandBar.ClearAndExit | Portfolio/src/components/CommandBar.tsx:127-132 | `clear` leaves the scrollback empty, dropping even the echo; `exit` closes the palette and changes nothing else |
| CommandBar.UsageMessageText | Portfolio/src/components/CommandBar.tsx:138 | the usage error lists the four theme names, in order, joined by `\|`, between `Usage: theme [` and `]` |
| CommandBar.ThemeListText | Portfolio/src/components/CommandBar.tsx:138 | the four theme names joined by `\|` read `system\|matrix\|cyberpunk\|retro` |
| CommandBar.ThemeCommand | Portfolio/src/components/CommandBar.tsx:133-139 | `theme` changes only the theme and the scrollback and appends exactly one entry; it is a response exactly when the argument is one of the available themes, which then becomes the theme; otherwise the theme stays |
| CommandBar.ThemeCommandEffect | Portfolio/src/components/CommandBar.tsx:133-139 | `theme x` with `x` available sets the theme to `x` and appends `Theme switched to x`; otherwise the theme is unchanged and the usage error is appended |
| CommandBar.CommandBar.EchoLine | Portfolio/src/components/CommandBar.tsx:111-117 | echoing moves the component to `Echo` of its old state, which keeps recall in range |
| CommandBar.CommandBar.RunCommand | Portfolio/src/components/CommandBar.tsx:119-180 | the `switch` moves the component and the provider's theme to `Dispatch` of the old state |
| CommandBar.CommandBar.RunTheme | Portfolio/src/components/CommandBar.tsx:133-139 | the `theme` case moves the component and the provider's theme to `ThemeCommand` of the old state |
| CommandBar.CdCommandEffect | Portfolio/src/components/CommandBar.tsx:141-166 | with no argument, `cd` goes to `/` and closes; `..` goes back and stays open; `projects` and `log` go to `/<arg>` and close; the other known directories go to `/`, scroll to their section and close; anything else appends `Directory not found: <arg>` with no navigation and no close |
| CommandBar.CdCommand | Portfolio/src/components/CommandBar.tsx:141-166 | `cd` changes only the effects, the scrollback and the open flag, and appends exactly one entry; it is an error exactly when the argument is present and is neither `..` nor a known directory, and then nothing else changes; otherwise a navigation follows the old effects; the palette stays open only for `..` or an unknown directory |
| CommandBar.CommandBar.RunCd | Portfolio/src/components/CommandBar.tsx:141-166 | the `cd` case moves the component to `CdCommand` of the old state |
| CommandBar.UnknownCommandIsOneError | Portfolio/src/components/CommandBar.tsx:178-179 | an unrecognised command appends exactly one error naming the lower-cased token, and changes nothing else |
| CommandBar.InformationCommands | Portfolio/src/components/CommandBar.tsx:124-176 | `help`, `whoami` and `ls` append, after the echo, one response with the help table, the identity card or the listing of the known directories, and leave the open flag, the theme and the effects alone |
| CommandBar.LowerOfLowercase | Portfolio/src/components/CommandBar.tsx:119 | lower-casing text without upper-case letters changes nothing |
| CommandBar.CommandBar.HandleSubmit | Portfolio/src/components/CommandBar.tsx:183-186 | submitting runs `Execute` on the current input |
| CommandBar.CommandBar.SetInput | Portfolio/src/components/CommandBar.tsx:236 | typing replaces the input |
| CommandBar.CommandBar.ClearScrollback | Portfolio/src/components/CommandBar.tsx:201 | the trash button empties the scrollback |
| CommandBar.CommandBar.Close | Portfolio/src/components/CommandBar.tsx:191-204 | the close button and a backdrop click close the palette |
| CommandBar.ExecuteAll | Portfolio/src/components/CommandBar.tsx:107-117 | any series of submissions keeps recall in range |
| CommandBar.HistoryIsNewestFirst | Portfolio/src/components/CommandBar.tsx:115 | after a series of submissions, the history is the non-blank trimmed lines newest first, in front of the old history |
| CommandBar.RecallResetAfterSubmissions | Portfolio/src/components/CommandBar.tsx:116 | after at least one non-blank line, the recall position is -1 |
| CommandBar.RecallIndexKept | Portfolio/src/components/CommandBar.tsx:108-109 | blank lines leave the recall position where it was |
| CommandBar.FirstArrowUpShowsOldest | Portfolio/src/components/CommandBar.tsx:79-115 | starting from an empty history, the first ArrowUp after some submissions shows the oldest submitted line |
| CommandBar.Reverse | Portfolio/src/components/CommandBar.tsx:115 | the reversed list has the same length, with element i taken from position length-1-i |
| CommandBar.ReverseCons | Portfolio/src/components/CommandBar.tsx:115 | reversing a list with a head puts that head last |
| JsString.IsWhitespace | Portfolio/src/components/CommandBar.tsx:108 | among the ASCII characters, exactly tab, line feed, vertical tab, form feed, carriage return and space are whitespace to `trim` |
| JsString.TrimStart | Portfolio/src/components/CommandBar.tsx:108 | the result is the suffix left after a blank prefix, and starts with a non-blank character |
| JsString.TrimStartEmpty | Portfolio/src/components/CommandBar.tsx:108 | nothing is left after the leading whitespace exactly when the input is blank |
| JsString.TrimEnd | Portfolio/src/components/CommandBar.tsx:108 | the result is the prefix left before a blank suffix, and ends with a non-blank character |
| JsString.Trim | Portfolio/src/components/CommandBar.tsx:108 | `trim` gives the infix after the leading blanks and before the trailing blanks; it is empty exactly when the input is blank, and otherwise starts and ends with a non-blank character |
| JsString.TrimInfix | Portfolio/src/components/CommandBar.tsx:108 | the trimmed string is the start of what follows the leading blanks |
| JsString.TrimTail | Portfolio/src/components/CommandBar.tsx:108 | what follows the trimmed string in the input is blank |
| JsString.TrimBlank | Portfolio/src/components/CommandBar.tsx:108-109 | the trimmed string is empty exactly when the input is blank |
| JsString.TrimEnds | Portfolio/src/components/CommandBar.tsx:108 | a non-empty trimmed string starts and ends with a non-blank character |
| JsString.BlankConcat | Portfolio/src/components/CommandBar.tsx:108 | two blank strings together are blank |
| JsString.TrimOfTrimmed | Portfolio/src/components/CommandBar.tsx:108 | text that neither starts nor ends with whitespace is its own trim |
| JsString.LowerChar | Portfolio/src/components/CommandBar.tsx:119 | `A`-`Z` map to `a`-`z`, every other character is unchanged, and only a space maps to a space |
| JsString.Lower | Portfolio/src/components/CommandBar.tsx:119 | `toLowerCase` keeps the length, maps each character by `LowerChar` and leaves no upper-case letter |
| JsString.LowerKeepsSpaces | Portfolio/src/components/CommandBar.tsx:119 | lower-casing neither adds nor removes a space |
| JsString.LowerAppend | Portfolio/src/components/CommandBar.tsx:119 | lower-casing distributes over concatenation |
| JsString.LowerIdempotent | Portfolio/src/components/CommandBar.tsx:119 | lower-casing twice is the same as lower-casing once |
| JsString.LowerAll | Portfolio/src/components/CommandBar.tsx:119 | every part is lower-cased, and the count is kept |
| JsString.Join | Portfolio/src/components/CommandBar.tsx:138 | `join` of no parts is empty; the first part starts the result, and is followed by the separator when more parts follow |
| JsString.Split | Portfolio/src/components/CommandBar.tsx:119 | `split(' ')` gives at least one part, and no part holds the separator |
| JsString.SplitSeveral | Portfolio/src/components/CommandBar.tsx:119-121 | a split has more than one part exactly when the string holds the separator |
| JsString.JoinSplit | Portfolio/src/components/CommandBar.tsx:119 | joining the parts of a split with the separator gives the string back |
| JsString.JoinCons | Portfolio/src/components/CommandBar.tsx:138 | joining a head and a non-empty tail puts one separator after the head |
| JsString.JoinPrepend | Portfolio/src/components/CommandBar.tsx:119 | a character put in front of the first part ends up in front of the joined string |
| JsString.SplitHead | Portfolio/src/components/CommandBar.tsx:119 | a separator-free head joins the first part of the split of the rest |
| JsString.SplitJoin | Portfolio/src/components/CommandBar.tsx:119 | splitting undoes joining when no part holds the separator |
| JsString.SplitLower | Portfolio/src/components/CommandBar.tsx:119 | lower-casing then splitting on a space gives the lower-cased parts of the split |
| Skills.ReduceLength | Portfolio/src/components/Skills.tsx:15-17 | the reduce never loses what it has accumulated, and adds at least the current item's name and separator |
| Skills.ReduceLengthClosedForm | Portfolio/src/components/Skills.tsx:15-17 | the reduce from an item on adds the remaining names and one separator between each remaining pair |
| Skills.FullTextLength | Portfolio/src/components/Skills.tsx:14-17 | `fullTextLength` is the sum of the name lengths plus 3·(n-1) for n ≥ 1 items, and 0 for no items |
| Skills.TypingStep | Portfolio/src/components/Skills.tsx:30-36 | a tick increments `charIndex` by one exactly when it is below `fullTextLength`, otherwise leaves it; it never goes past the length from at or below it |
| Skills.TypingFromZero | Portfolio/src/components/Skills.tsx:29-37 | starting from 0, after k ticks `charIndex` is min(k, `fullTextLength`), so it never exceeds the length |
| Skills.TypingFromPosition | Portfolio/src/components/Skills.tsx:29-37 | from any position at or below the length, k ticks give min(position + k, length) |
| Skills.TerminalTyper.constructor | Portfolio/src/components/Skills.tsx:9-17 | the typer starts at position 0, not typing, with `fullTextLength` computed from its items |
| Skills.TerminalTyper.Start | Portfolio/src/components/Skills.tsx:19-29 | after the start delay, typing starts and the interval runs |
| Skills.TerminalTyper.Tick | Portfolio/src/components/Skills.tsx:30-36 | a tick moves `charIndex` by `TypingStep`; the interval keeps running exactly when the position was below the length; the position stays within the length |
| Skills.ItemStart | Portfolio/src/components/Skills.tsx:50-55 | the running count where an item starts is at least the previous item's name and separator |
| Skills.ItemStartClosedForm | Portfolio/src/components/Skills.tsx:48-55 | item i starts after the names of the i items before it plus 3 characters per earlier item |
| Skills.NameLengthsSnoc | Portfolio/src/components/Skills.tsx:16 | adding an item at the end adds its name's length to the name total |
| Skills.ItemStartReduce | Portfolio/src/components/Skills.tsx:43-55 | the reduce from item i, started at item i's offset, equals `fullTextLength` |
| Skills.ItemStartOfEnd | Portfolio/src/components/Skills.tsx:43-55 | the running offset after all items equals `fullTextLength` |
| Skills.RenderItems | Portfolio/src/components/Skills.tsx:43-65 | the render loop gives item i the view at its accumulated offset, and ends with the running count equal to `fullTextLength` |
| Skills.TerminalTyper.Render | Portfolio/src/components/Skills.tsx:48-65 | the render gives each item its view at the current typing position |
| Skills.RenderItem | Portfolio/src/components/Skills.tsx:58-65 | an item renders nothing exactly when `charIndex < itemStart`; the icon shows when the item has one; the visible text is the prefix of the name of length clamp(0, \|name\|, `charIndex - itemStart`); the visible separator is the prefix of `" \| "` of length clamp(0, 3, `charIndex - itemEnd`), and empty for the last item |
| Skills.RenderItemShown | Portfolio/src/components/Skills.tsx:58-65 | an item shows its name length plus its separator length (none for the last item), clamped between 0 and how far typing has gone past its start |
| Skills.ShownIsClamped | Portfolio/src/components/Skills.tsx:58-63 | an item shows its name and separator length clamped to what typing has reached past its start |
| Skills.ShownUpToIsTyped | Portfolio/src/components/Skills.tsx:43-63 | the first i items together show min(`charIndex`, start of item i) characters |
| Skills.TotalShownIsTyped | Portfolio/src/components/Skills.tsx:43-63 | for `charIndex` ≥ 0, all items together show min(`charIndex`, `fullTextLength`) characters of text and separator |
| ThemeContext.Name | Portfolio/src/context/ThemeContext.tsx:3 | every theme is written as a non-empty string |
| ThemeContext.Names | Portfolio/src/context/ThemeContext.tsx:37 | the names of a list of themes keep its order and length |
| ThemeContext.AvailableThemesAreAllThemes | Portfolio/src/context/ThemeContext.tsx:37 | `availableThemes` holds every value of `Theme` exactly once, written `system`, `matrix`, `cyberpunk`, `retro` |
| ThemeContext.FromName | Portfolio/src/context/ThemeContext.tsx:37 | a string is a theme exactly when it is in `availableThemes`, and then it is that theme's name |
| ThemeContext.NameRoundTrip | Portfolio/src/context/ThemeContext.tsx:37 | reading back a theme's name gives the theme |
| ThemeContext.InitialTheme | Portfolio/src/context/ThemeContext.tsx:15-18 | the initial theme is the stored `portfolio-theme` value when it is non-empty, and `system` when it is absent or empty; it is never empty, and it is not checked against the themes |
| ThemeContext.ThemeProvider.constructor | Portfolio/src/context/ThemeContext.tsx:15-18 | the provider starts with the initial theme from storage |
| ThemeContext.Persist | Portfolio/src/context/ThemeContext.tsx:30 | after persisting, storage maps `portfolio-theme` to the theme, and every other key is as before |
| ThemeContext.ReloadRestoresTheme | Portfolio/src/context/ThemeContext.tsx:15-30 | a persisted theme is the initial theme of the next load |
| ThemeContext.RemoveClasses | Portfolio/src/context/ThemeContext.tsx:23 | `classList.remove` keeps exactly the classes not dropped, never grows the list, and keeps it free of duplicates |
| ThemeContext.AddClass | Portfolio/src/context/ThemeContext.tsx:27 | `classList.add` throws exactly when the token is empty or holds ASCII whitespace; otherwise it adds the class only when it is absent, at the end, and keeps the list free of duplicates |
| ThemeContext.ThemeClassValid | Portfolio/src/context/ThemeContext.tsx:27 | `theme-<t>` is a valid token exactly when t holds no ASCII whitespace |
| ThemeContext.UpdatedClasses | Portfolio/src/context/ThemeContext.tsx:20-28 | the update throws exactly when the theme is not `system` and holds ASCII whitespace; otherwise a class is present afterwards exactly when it was present and is not one of the three theme classes, or it is `theme-<t>` and t is not `system` |
| ThemeContext.AvailableThemesUpdate | Portfolio/src/context/ThemeContext.tsx:20-37 | the update never throws for an available theme |
| ThemeContext.SpacedThemeThrows | Portfolio/src/context/ThemeContext.tsx:17-27 | a stored `dark mode` makes the update throw |
| ThemeContext.ThemeClassIsRemovable | Portfolio/src/context/ThemeContext.tsx:23-27 | the class of every theme but `system` is one of the classes the update removes |
| ThemeContext.UpdatedClassesSelectOneTheme | Portfolio/src/context/ThemeContext.tsx:20-28 | for an available theme t, exactly one theme class, the one for t, remains, and none remains for `system` |
| ThemeContext.RemoveAbsent | Portfolio/src/context/ThemeContext.tsx:23 | removing classes that are absent changes nothing |
| ThemeContext.RemoveAppend | Portfolio/src/context/ThemeContext.tsx:23 | removing from a concatenation removes from each part |
| ThemeContext.RemoveAfterUpdate | Portfolio/src/context/ThemeContext.tsx:20-28 | after an update with an available theme, removing the theme classes gives what the first removal gave |
| ThemeContext.UpdateIdempotent | Portfolio/src/context/ThemeContext.tsx:20-28 | when the update does not throw, running it twice with the same theme is the same as running it once |
| ThemeContext.SwitchLeavesNoTrace | Portfolio/src/context/ThemeContext.tsx:20-28 | switching from an available theme to another leaves the classes the second theme alone would give |
| ThemeContext.UnknownStoredThemeClassStays | Portfolio/src/context/ThemeContext.tsx:17-27 | a stored `solarized` adds `theme-solarized`, and a later switch to `matrix` does not remove it |
| ThemeContext.ThemeProvider.SetTheme | Portfolio/src/context/ThemeContext.tsx:33-35 | `setTheme` replaces the theme and changes nothing else |
| ThemeContext.ThemeProvider.ApplyTheme | Portfolio/src/context/ThemeContext.tsx:20-31 | the effect throws exactly when the update does; then the theme classes are removed and storage is untouched; otherwise the class list becomes `UpdatedClasses` of the old list and the theme is persisted, which the next load restores |

## Left out

- Output ids (`Math.random` in `addToOutput`) are not modelled. The code does not guarantee they are unique, and nothing depends on them.
- The rendered JSX is not modelled. The help table, the identity card and the directory grid are abstract output contents (`HelpTable`, `IdentityCard`, `DirectoryListing`); the welcome banner is `Welcome`.
- JsString.Lower: models `toLowerCase` for the ASCII letters only, because Unicode case mapping tables are outside this model; command names and arguments outside ASCII are lower-cased only in their ASCII letters.
- Router navigation, `scrollIntoView`, focus, `preventDefault` and the auto-scroll of the scrollback are not real calls. Navigation and the section scroll are appended to `effects`; focus, `preventDefault` and auto-scroll are dropped.
- Timers are left out. The 100 ms delay before the section scroll is not modelled: the scroll is recorded right after its navigation. The 10 ms focus delay, the typer's start delay and the 40 ms tick period are left out too; `Start` and `Tick` are the events those timers fire.
- React batching of state updates is not modelled. Each handler's updates are applied one after the other, in the order the handler queues them.
- The provider's update effect does not run automatically after a `theme` command. `ApplyTheme` is the effect, and React runs it after the render that follows `setTheme`.
- The typer's interval callback after `clearInterval` is not modelled. `Tick` requires a running interval.
- `useTheme` throwing outside a provider is not modelled: the palette always holds its provider.
- What React does with the error the theme effect throws for a theme holding whitespace is not modelled. `ApplyTheme` reports the throw and stops where the source stops.
- Skills.FullTextLength, Skills.RenderItem: lengths and prefixes count Unicode scalar values, while `length` and `slice` in `Skills.tsx` count UTF-16 code units. A name holding a character outside the Basic Multilingual Plane (an emoji, say) would get a different length, different item offsets and different visible prefixes. The skill names the site ships are ASCII.
- Everything outside the three files above is not part of this model: `SystemIgnition.tsx`, `BootSequence.tsx` (animation and timers), the other page and section components (rendering), `content.ts` and `logs.ts` (static data; `KnownDirs` is the directory list written in `CommandBar.tsx` itself), and the build configuration.

