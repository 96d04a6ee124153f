# Portfolio site interactive components, in Dafny

This project models the stateful parts of a single-page React portfolio. It covers six components:

- the simulated **terminal**: history, input line, exact-match command dispatcher, deferred `clear`, and the scripted reveal of three entries on mount;
- the **voice assistant**: an ordered table of spoken triggers, a first-match substring matcher over the normalised transcript, the effects each entry fires, and the enable and microphone toggles;
- the **navigation bar**: a scroll-spy that picks the active section, a smooth scroll that keeps a section clear of the fixed bar, and the mobile menu flag;
- the **hero typewriter**: it types the five titles one character per firing and wraps round after the last;
- the **theme switcher**: applying a theme rewrites the root element's theme classes and colour variables, stores the theme and makes it current, and "system" stands for dark or light;
- the **phone simulator**: a periodic screen rotation, an app switch with a loading phase, and indicator dots.

Each component is a Dafny `class` whose fields are the component's `useState` values. Its event handlers and timer firings are methods. Each method's `ensures` clause gives the whole new state, in terms of pure specification functions. Lemmas then prove what the component promises about those functions.

The browser is outside the model and appears only in these forms:

- the page, as parameters: the set of section ids present, or the map from section ids to their `offsetTop`;
- the speech kit's `listening` status, as a field;
- every call the code makes into the page or the speech kit, as an append-only log (`speak`, `window.open`, `scrollIntoView`, `listen`, `stop`, `window.scrollTo`);
- the root element's class list, style properties and local storage, as a set and maps.

The files are:

- `wrappers.dfy`: `Option`.
- `text.dfy`: the JavaScript string operations the components use (`toLowerCase`, `trim`, `includes`) and their laws.
- `terminal.dfy`, `voice.dfy`, `navigation.dfy`, `hero.dfy`, `theme.dfy`, `simulator.dfy`: one module per component.

## Model

| member | source | states |
|---|---|---|
| Text.LowerChar | src/components/Terminal.tsx:81 | one character lower-cased: a capital moves down by 32 code points, any other character is kept; the result is never a capital, and it is white space exactly when the input is |
| Text.Lower | src/components/Terminal.tsx:81 | `toLowerCase` keeps the length and folds every character independently |
| Text.TrimStart | src/components/Terminal.tsx:81 | dropping the leading white space never lengthens the string (`TrimStartSpec` states what is dropped) |
| Text.TrimEnd | src/components/Terminal.tsx:81 | dropping the trailing white space never lengthens the string (`TrimEndSpec` states what is dropped) |
| Text.Trim | src/components/Terminal.tsx:81 | `trim()` never lengthens the string (`TrimSpec` states the rest) |
| Text.TrimStartSpec | src/components/Terminal.tsx:81 | trimming the start removes a prefix that is all white space, and what is left starts with a non-blank |
| Text.TrimEndSpec | src/components/Terminal.tsx:81 | trimming the end removes a suffix that is all white space, and what is left ends with a non-blank |
| Text.TrimSpec | src/components/Terminal.tsx:81 | `trim` never lengthens, leaves no white space at either end, and gives "" exactly when the input is all blank |
| Text.TrimBlank | src/components/Terminal.tsx:62 | `trim()` is empty iff the string is all white space, the test `handleSubmit` guards with |
| Text.TrimIsSlice | src/components/Terminal.tsx:81 | `trim` returns a contiguous slice of its argument |
| Text.TrimTrimmed | src/components/Terminal.tsx:81 | `trim` leaves a string with no blank at either end unchanged |
| Text.TrimStartAt | src/components/Terminal.tsx:81 | trimming the start stops exactly at the first non-blank |
| Text.TrimEndAt | src/components/Terminal.tsx:81 | trimming the end stops exactly after the last non-blank |
| Text.TrimBetween | src/components/Terminal.tsx:81 | `trim` of a string whose first and last non-blanks are at `lo` and `hi - 1` is `s[lo..hi]` |
| Text.SliceNoUpper | src/components/Terminal.tsx:81 | a slice of a string without capitals has none |
| Text.LowerHasNoUpper | src/components/Terminal.tsx:81 | a lower-cased string has no capital letter |
| Text.TrimKeepsNoUpper | src/components/Terminal.tsx:81 | trimming a string without capitals leaves none |
| Text.Normalize | src/components/VoiceCommands.tsx:94 | `toLowerCase().trim()` never lengthens the string (`NormalizeIsNormal` and `NormalizeBlank` state the rest) |
| Text.NormalizeIsNormal | src/components/VoiceCommands.tsx:94 | `toLowerCase().trim()` has no capital and no blank at either end |
| Text.NormalizeBlank | src/components/VoiceCommands.tsx:94 | the normal form is empty exactly when the input is all white space |
| Text.NormalOf | src/components/VoiceCommands.tsx:94 | a lower-case trimmed string is its own normal form |
| Text.LowerKeepsSpaces | src/components/VoiceCommands.tsx:94 | lower-casing neither creates nor destroys white space |
| Text.LowerNoUpper | src/components/VoiceCommands.tsx:98 | lower-casing a string without capitals is the identity |
| Text.NormalizeIdempotent | src/components/VoiceCommands.tsx:94 | normalising twice is normalising once |
| Text.Contains | src/components/VoiceCommands.tsx:98 | `hay.includes(needle)`: the needle occurs at some offset, so a contained needle is never longer than the haystack |
| Text.ContainedCharsOccur | src/components/VoiceCommands.tsx:98 | if `hay.includes(needle)`, every character of the needle occurs in the haystack |
| Text.MissingChar | src/components/VoiceCommands.tsx:98 | a needle with a character the haystack lacks is not included |
| Text.PrefixContained | src/components/VoiceCommands.tsx:98 | a prefix of the haystack is included in it |
| Text.SuffixContained | src/components/VoiceCommands.tsx:98 | a suffix of the haystack is included in it |
| Terminal.NotFound | src/components/Terminal.tsx:145 | the fallback line is "command not found: ", then the input exactly as typed, then ". Type 'help' for available commands." |
| Terminal.Respond | src/components/Terminal.tsx:83-145 | the reset is scheduled iff the command is "clear"; a command outside the six names gets the fallback naming the raw input |
| Terminal.GetCommandOutput | src/components/Terminal.tsx:80-146 | the reset is scheduled iff the normalised input is "clear"; input whose normal form is no command name gets the fallback naming the raw input, with no reset |
| Terminal.RespondMatchesTable | src/components/Terminal.tsx:83-143 | the if-chain returns each table row's output, and only the last row ("clear") schedules the reset |
| Terminal.DispatchMatchesTable | src/components/Terminal.tsx:80-143 | input whose normal form is a table name gets that row's output; only "clear" schedules the reset |
| Terminal.TableNamesNormal | src/components/Terminal.tsx:81 | each command name, typed exactly, is its own normal form |
| Terminal.UnknownFallsBack | src/components/Terminal.tsx:145 | input whose normal form is no table name gets "command not found: <raw input>. Type 'help' …" and no reset |
| Terminal.TableNamesRecognised | src/components/Terminal.tsx:83-140 | the recognised names are exactly the table's names |
| Terminal.InitialCommands | src/components/Terminal.tsx:17-45 | three initial entries, all with the mount's time stamp |
| Terminal.LowerShouted | src/components/Terminal.tsx:81 | lower-casing "  SKILLS " gives "  skills " |
| Terminal.TrimPadded | src/components/Terminal.tsx:81 | trimming "  skills " gives "skills" |
| Terminal.SkillsIgnoringCaseAndBlanks | src/components/Terminal.tsx:81-107 | "  SKILLS " shows the skills panel: case and surrounding blanks do not matter |
| Terminal.ShowSkillsNotFound | src/components/Terminal.tsx:81-145 | "show skills" gets the fallback: dispatch is exact equality, not containment |
| Terminal.HelpCommandsRecognised | src/components/Terminal.tsx:86-91 | every command the help panel advertises is a table row and shows that row's output |
| Terminal.Shell.constructor | src/components/Terminal.tsx:12-13 | empty history, empty input, nothing pending |
| Terminal.Shell.Type | src/components/Terminal.tsx:197 | the input line becomes the typed value; nothing else changes |
| Terminal.Shell.Submit | src/components/Terminal.tsx:60-71 | blank input changes nothing; otherwise exactly one entry, holding the raw input and its output, is appended, the line is cleared, and a reset is scheduled iff the reply asks for one |
| Terminal.Shell.FireClear | src/components/Terminal.tsx:140-141 | a pending reset empties the history and is used up |
| Terminal.Shell.RevealNext | src/components/Terminal.tsx:49-51 | one loop iteration appends the next initial entry |
| Terminal.Shell.TypeCommands | src/components/Terminal.tsx:48-56 | the whole loop appends the three initial entries in order |
| Terminal.Mount | src/components/Terminal.tsx:47-58 | after mounting, the reveal has finished and the history is exactly the initial entries |
| Terminal.SubmitClear | src/components/Terminal.tsx:60-143 | submitting "clear" and letting its timer fire leaves an empty history and an empty line; pending resets and the reveal's progress are as before |
| Voice.Matches | src/components/VoiceCommands.tsx:98 | a row matches when its trigger occurs in the normalised transcript; a matching trigger is no longer than the transcript, and each of its characters occurs in it |
| Voice.FindFrom | src/components/VoiceCommands.tsx:97-99 | from row `from`, the first row whose trigger occurs; None iff no later row matches |
| Voice.FindCommand | src/components/VoiceCommands.tsx:97-99 | `commands.find`: the first matching row in declaration order; None iff no trigger occurs |
| Voice.ActionEffects | src/components/VoiceCommands.tsx:68-91 | an action does nothing only when it scrolls to a section missing from the page; otherwise its last effect is an utterance |
| Voice.Response | src/components/VoiceCommands.tsx:97-106 | every result ends with an utterance; no match gives only the not-recognised line; a match gives its action's effects, then "Executing: " + the row's description |
| Voice.TriggersNoUpper | src/components/VoiceCommands.tsx:25-66 | no trigger contains a capital letter |
| Voice.TriggersLower | src/components/VoiceCommands.tsx:25-66 | lower-casing any trigger leaves it unchanged |
| Voice.LoweredTriggerMatches | src/components/VoiceCommands.tsx:98 | the source's test with `cmd.command.toLowerCase()` is the test with the trigger itself |
| Voice.NoTriggerNotRecognized | src/components/VoiceCommands.tsx:97-106 | a transcript containing none of the eight triggers matches no row and only says "Command not recognized…" |
| Voice.NavigationTargets | src/components/VoiceCommands.tsx:25-50 | the first five rows scroll to projects, skills, experience, contact and hero |
| Voice.ScrollOnlyIfPresent | src/components/VoiceCommands.tsx:68-74 | a scroll, and its announcement, happen exactly when the section is on the page; the announcement is "Navigating to <id> section"; no window opens |
| Voice.LinksOpenOnce | src/components/VoiceCommands.tsx:83-91 | GitHub and resume each open exactly one window, in a new browsing context, first |
| Voice.GitHubRowChosen | src/components/VoiceCommands.tsx:93-107 | a transcript with "show github" and none of the six earlier triggers opens the profile and acknowledges it |
| Voice.ResumeRowChosen | src/components/VoiceCommands.tsx:93-107 | a transcript with "download resume" and no other trigger opens the resume and acknowledges it |
| Voice.ShowGitHubTriggers | src/components/VoiceCommands.tsx:25-66 | of the triggers up to row 6, only "show github" occurs in "show github" |
| Voice.ShowGitHubOpensProfile | src/components/VoiceCommands.tsx:93-107 | saying "show github" selects row 6 and opens the profile |
| Voice.DownloadResumeTriggers | src/components/VoiceCommands.tsx:25-66 | only "download resume" occurs in "download resume" |
| Voice.DownloadResumeOpensResume | src/components/VoiceCommands.tsx:93-107 | saying "download resume" selects the last row and opens the resume |
| Voice.EarlierRowWins | src/components/VoiceCommands.tsx:97-99 | in "show projects and show skills" both triggers occur, and the earlier row is chosen |
| Voice.ShowCommandsSkipsSections | src/components/VoiceCommands.tsx:25-45 | none of the four section triggers occurs in "show commands" |
| Voice.ShowCommandsSkipsOthers | src/components/VoiceCommands.tsx:46-66 | none of the other four triggers occurs in "show commands" |
| Voice.ShowCommandsNotRecognized | src/components/VoiceCommands.tsx:104-106 | the phrase the prompts suggest, "show commands", is not recognised |
| Voice.Assistant.constructor | src/components/VoiceCommands.tsx:13-16 | all flags off, no last command, nothing said |
| Voice.Assistant.Say | src/components/VoiceCommands.tsx:18 | `speak` logs one utterance and changes nothing else |
| Voice.Assistant.ScrollToSection | src/components/VoiceCommands.tsx:68-74 | logs exactly the scroll and announcement for the section, or nothing if it is absent |
| Voice.Assistant.OpenGitHubProfile | src/components/VoiceCommands.tsx:83-86 | logs the profile window and its acknowledgement |
| Voice.Assistant.OpenResume | src/components/VoiceCommands.tsx:88-91 | logs the resume window and its acknowledgement |
| Voice.Assistant.Run | src/components/VoiceCommands.tsx:27-63 | running a row's action logs exactly that action's effects |
| Voice.Assistant.HandleVoiceCommand | src/components/VoiceCommands.tsx:93-107 | records the normalised transcript whether or not it matches; logs the first matching row's effects plus "Executing: …", or only the not-recognised line |
| Voice.Assistant.ToggleListening | src/components/VoiceCommands.tsx:109-117 | stops a running recogniser or starts an idle one, with the flag following |
| Voice.Assistant.ToggleVoiceCommands | src/components/VoiceCommands.tsx:119-130 | flips the switch; announces activation, or deactivation plus a stop if the recogniser runs |
| Voice.Assistant.ToggleCommandsPanel | src/components/VoiceCommands.tsx:187 | flips the panel flag only |
| Voice.Assistant.RecognitionEnded | src/components/VoiceCommands.tsx:19-23 | the recogniser's own status becomes false |
| Voice.Assistant.SyncListening | src/components/VoiceCommands.tsx:132-134 | `isListening` takes the recogniser's status |
| Navigation.Qualifies | src/components/Navigation.tsx:32 | a qualifying section is on the page, the `section &&` guard; the `offsetTop <= scrollPosition` test is the body itself |
| Navigation.LastQualifying | src/components/Navigation.tsx:30-36 | the last of the first `k` sections that is on the page and starts at or above the position; None iff there is none |
| Navigation.Spied | src/components/Navigation.tsx:27-36 | the selected section is on the page and starts at or above `scrollY + 200`; None iff no section does |
| Navigation.SpiedIsLowest | src/components/Navigation.tsx:30-36 | whenever a section qualifies, one is selected, and it is at least as late in the bar's list of sections |
| Navigation.SpiedMonotone | src/components/Navigation.tsx:26-36 | scrolling further down never selects a section earlier in the bar's list |
| Navigation.Navigator.constructor | src/components/Navigation.tsx:6-24 | menu closed, "hero" active, one scroll to the top |
| Navigation.Navigator.HandleScroll | src/components/Navigation.tsx:26-37 | the bottom-up loop highlights the section `Spied` selects for `scrollY + 200`, or keeps the highlight when none qualifies |
| Navigation.Navigator.ScrollToSection | src/components/Navigation.tsx:43-55 | scrolls to the section's top minus 80 iff it is on the page; always closes the menu |
| Navigation.Navigator.ToggleMenu | src/components/Navigation.tsx:98 | flips the menu flag only |
| Hero.Next | src/components/Hero.tsx:19-34 | a firing keeps the text a prefix of its title: it grows by one character, or a full title is cleared and the index moves to the next title modulo 5 |
| Hero.Run | src/components/Hero.tsx:19-34 | any number of firings keeps the text a prefix of the current title |
| Hero.RunAdd | src/components/Hero.tsx:19-34 | firings compose: `a` then `b` is `a + b` |
| Hero.TypesPrefix | src/components/Hero.tsx:22-25 | from empty text, `k` firings show the first `k` characters of the title |
| Hero.TypesTitle | src/components/Hero.tsx:21-31 | a title of length n is fully shown after n firings, and one more firing starts the next title |
| Hero.TitleRound | src/components/Hero.tsx:21-31 | one title's length plus one firings lead from its empty text to the next title's empty text |
| Hero.CyclesInOrder | src/components/Hero.tsx:11-30 | the titles come in declaration order, and the first comes again after the last |
| Hero.FullCycle | src/components/Hero.tsx:11-34 | 119 firings bring the headline back to the empty first title |
| Hero.Typewriter.constructor | src/components/Hero.tsx:7-9 | nothing typed, first title, not visible |
| Hero.Typewriter.Tick | src/components/Hero.tsx:19-34 | the section becomes visible and the headline takes the step `Next` describes |
| Theme.Resolve | src/components/ThemeSwitcher.tsx:130-132 | never "system": any other theme is kept, and "system" becomes dark iff dark is preferred and light otherwise |
| Theme.AddedClasses | src/components/ThemeSwitcher.tsx:93-122 | `classList.add` adds only theme classes; the theme itself is among them iff it is a theme; a name that is no theme adds none; every theme but light also adds "dark" |
| Theme.SetVars | src/components/ThemeSwitcher.tsx:93-128 | a name that is no theme sets no property; `SetVarsColours` and the four `*Steps` rows state which properties and values each theme sets |
| Theme.SetVarsColours | src/components/ThemeSwitcher.tsx:93-128 | every theme sets the four base colours, and only neon and matrix set `--tech-glow` |
| Theme.Applied | src/components/ThemeSwitcher.tsx:87-138 | the result is never "system", is stored under "theme", keeps the classes outside the four theme classes, and keeps every other storage key |
| Theme.SystemResolves | src/components/ThemeSwitcher.tsx:130-133 | applying "system" is applying dark or light by preference, and "system" is never current nor stored |
| Theme.OtherThemesStored | src/components/ThemeSwitcher.tsx:136-137 | any other theme becomes current and is stored under "theme" |
| Theme.ClassesApplied | src/components/ThemeSwitcher.tsx:90-122 | after applying, the theme classes are exactly those of the resolved theme; other classes are untouched |
| Theme.VarsApplied | src/components/ThemeSwitcher.tsx:93-128 | a style property outside `SetVars` of the resolved theme keeps its old value, or stays absent |
| Theme.BaseThemesKeepGlow | src/components/ThemeSwitcher.tsx:94-108 | light and dark do not set the glow and neon colours, so values left by neon or matrix persist |
| Theme.ApplyIdempotent | src/components/ThemeSwitcher.tsx:87-138 | applying the same theme twice is applying it once |
| Theme.UnknownTheme | src/components/ThemeSwitcher.tsx:87-145 | a string naming no theme clears the theme classes, sets no property, is still stored and current, and the menu shows Dark Mode |
| Theme.FindTheme | src/components/ThemeSwitcher.tsx:145 | the first row with the id; None iff no row has it |
| Theme.CurrentThemeConfig | src/components/ThemeSwitcher.tsx:145 | the current theme's row if there is one, otherwise Dark Mode |
| Theme.SavedTheme | src/components/ThemeSwitcher.tsx:141 | the stored theme, or "dark" if none or an empty one is stored |
| Theme.LightSteps | src/components/ThemeSwitcher.tsx:96-99 | the four `setProperty` calls of light set exactly its property table, `SetVars("light")` |
| Theme.DarkSteps | src/components/ThemeSwitcher.tsx:104-107 | the four `setProperty` calls of dark set exactly its property table, `SetVars("dark")` |
| Theme.NeonSteps | src/components/ThemeSwitcher.tsx:112-118 | the seven `setProperty` calls of neon set exactly its property table, `SetVars("neon")` |
| Theme.MatrixSteps | src/components/ThemeSwitcher.tsx:123-127 | the five `setProperty` calls of matrix set exactly its property table, `SetVars("matrix")` |
| Theme.Switcher.constructor | src/components/ThemeSwitcher.tsx:21-22 | "dark" current, menu closed, the document as given |
| Theme.Switcher.ApplyTheme | src/components/ThemeSwitcher.tsx:87-138 | the step-by-step class and property updates, and the recursive "system" case, reach the document `Applied` describes |
| Theme.Switcher.Mount | src/components/ThemeSwitcher.tsx:140-143 | applies the saved theme, or dark |
| Theme.Switcher.SelectTheme | src/components/ThemeSwitcher.tsx:190-193 | applies the chosen theme and closes the menu |
| Theme.Switcher.ToggleMenu | src/components/ThemeSwitcher.tsx:157 | flips the menu flag; the document is unchanged |
| Simulator.Screens | src/components/MobileSimulator.tsx:27-195 | NammaYatri has two screens and MuscleFit one; never none |
| Simulator.NextScreen | src/components/MobileSimulator.tsx:199 | the next screen index stays in range: one more, or 0 after the last |
| Simulator.Ticks | src/components/MobileSimulator.tsx:197-202 | after any firings, or none from a valid screen, the screen index is in range |
| Simulator.TicksAdvance | src/components/MobileSimulator.tsx:197-202 | within one round, `k` firings advance the screen by `k`, wrapping once |
| Simulator.FullRound | src/components/MobileSimulator.tsx:197-202 | as many firings as there are screens come back to the starting screen |
| Simulator.TickCycles | src/components/MobileSimulator.tsx:197-202 | NammaYatri's two screens alternate, and MuscleFit's single screen stays |
| Simulator.Phone.constructor | src/components/MobileSimulator.tsx:23-25 | NammaYatri at its first screen, not loading |
| Simulator.Phone.Tick | src/components/MobileSimulator.tsx:197-202 | one firing moves to the next screen of the current app and keeps the index in range |
| Simulator.Phone.BeginSwitch | src/components/MobileSimulator.tsx:204-206 | loading starts and the switch joins the queue of waits |
| Simulator.Phone.FinishSwitch | src/components/MobileSimulator.tsx:206-209 | the oldest wait ends: its app opens at its first screen and loading stops |
| Simulator.Phone.ShowScreen | src/components/MobileSimulator.tsx:318-322 | an indicator dot shows its screen |
| Simulator.SwitchApp | src/components/MobileSimulator.tsx:204-210 | a whole switch shows the chosen app at its first screen, even when it was already shown, and ends not loading |

## Left out

- Rendering: the JSX, animations, icons and styling classes are left out. The terminal's panels and the simulator's screens are named, not rendered.
- Timers: `setTimeout` and `setInterval` firings are explicit steps (`Tick`, `FireClear`, `RevealNext`, `FinishSwitch`), not wall-clock time. The terminal's 100 ms scroll-to-bottom and the `scrollTop` updates are left out. So are the effect clean-ups that clear a timer.
- Speech kit: the kit (`react-speech-kit`) is foreign code. Its calls are logged as effects, and its `listening` status is a field. The recogniser stopping by itself is the step `RecognitionEnded`. Voice selection (`voices`) is not used by the source.
- Browser objects: the document, the media query and local storage are parameters and fields. The model has no layout: element offsets are given as integers, and `window.scrollY` is an unbounded integer. The browser's `scrollY` and `offsetTop` are floating-point numbers, so sub-pixel positions are not modelled.
- Text.Lower: folds only ASCII capitals, while JavaScript's `toLowerCase` folds all of Unicode.
- Text.Trim: strips only the space and the control characters 9 to 13, while JavaScript's `trim` also strips the other Unicode white space and line terminators.
- Time stamps: `toLocaleTimeString()` values are opaque strings passed in. All three initial terminal entries carry the mount's time stamp.
- Terminal `isTyping`: the source declares this state but never sets it, so it is not modelled.
- Terminal dispatch: the terminal recognises a command only when the normalised input equals its name. `Terminal.ShowSkillsNotFound` shows that containment is not enough; substring containment is what the voice matcher does.
- Voice.Matches: tests each trigger as written rather than `cmd.command.toLowerCase()`. `Voice.LoweredTriggerMatches` proves the two tests are the same.
- Hero isVisible: the model sets it on every `Tick`, where the source sets it whenever the effect runs. Both leave it true from the first firing on.
- Simulator switches: overlapping `switchApp` calls are a FIFO queue of pending waits. Each wait is 800 ms, so earlier calls finish first. An interval firing can happen between `BeginSwitch` and `FinishSwitch`.
- Simulator.TicksAdvance: is stated for up to one round of firings, not for any number, which avoids general modular arithmetic. `FullRound` gives the periodicity.
- ThemeSwitcher cast: TypeScript's `as Theme` cast does no check at run time. A stored string that names no theme is therefore applied as it is, and `Theme.UnknownTheme` states what then happens.
- Speech kit status: `ToggleListening` and `ToggleVoiceCommands` set the kit's `listening` status the moment they call `listen()` or `stop()`, as if the kit reacted at once. A kit that does not start, or stops later by itself, is that call followed by `RecognitionEnded`.
- Text.TrimStart, Text.TrimEnd, Text.Trim, Text.Normalize: their own `ensures` give only the length bound; what they remove and what they leave is stated by `TrimStartSpec`, `TrimEndSpec`, `TrimSpec`, `NormalizeIsNormal` and `NormalizeBlank`, kept apart so that the recursive functions stay cheap to verify.
