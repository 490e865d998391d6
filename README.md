# LitNames state logic in Dafny

LitNames is a demo front end for a `.lit` naming service. Minting, availability and pricing are all simulated in the browser. Under the presentation sits a small layer of state logic, and this project models it and proves properties about it:

- **Owned-domain registry** (`Registry`): the root view's list of owned domains and its copy in browser storage. Completing a mint appends an entry, and the first entry minted is primary. "Set as primary" rewrites every entry's flag. The module also covers the wallet flag, the open mint wizard, the dashboard toggle, and the live registration feed, which always holds four names.
- **Mint wizard** (`MintFlow`): three steps that only move forward, a duration that never drops below one year, the owner-address abbreviation and the "Year/Years" label.
- **Search rules** (`Search`): availability (a name needs a JavaScript `length` above three, counted in UTF-16 code units, on both the success path and the fallback path), the lowercased result name, the fixed fallback result, the rarity badge, and how suggested names are displayed and turned back into a query.
- **Text-record editor** (`Records`): four fields edited one at a time, a bio written by the completion service, and the save hand-off.
- **Chat transcript** (`Assistant`): a greeting followed by alternating user and assistant messages. Each accepted send gets exactly one reply.

Components that change state in place are classes: `App`, `MintWizard`, `SearchBox`, `RecordEditor` and `Chat`. Their methods state the whole new state in terms of the old one. The list and record transforms they use are pure functions, and the lemmas are about those functions. `Strings` restates the JavaScript string built-ins the components call: `trim`, `length` in UTF-16 code units, ASCII `toLowerCase`, `indexOf`, `includes`, first-occurrence `replace`, `slice`, and decimal rendering of numbers.

Asynchronous handlers are split in two. A `Begin…` method runs up to the `await`, and a `Finish…`/`Receive` method runs when the promise settles. The completion service's answer is an input value:
- `AiReplies.AiReply` is text, no text, or a thrown error with its message.
- `Search.SearchReply` is the parsed JSON, with every field optional, or a failure.

Timers are explicit methods: `MintWizard.FireMintTimer` and `App.FeedTick`. The random choices of a feed tick are parameters. Browser storage is the field `App.storage`, and the `new Date()` of a mint is an opaque `Timestamp` parameter.

## Model

| member | source | states |
|---|---|---|
| Registry.AppendMinted | App.tsx:48-55 | a completed mint appends exactly one entry at the end; every earlier entry is unchanged; the new entry carries the given name, years and time, and is primary iff the list was empty |
| Registry.MintPrimaryCount | App.tsx:53-55 | a mint adds one primary entry when the list was empty and none otherwise |
| Registry.MintKeepsSinglePrimary | App.tsx:53-55 | minting preserves "exactly one primary entry in a non-empty list" |
| Registry.MarkPrimary | App.tsx:63-66 | set-primary keeps the length and every field other than the flag; an entry is primary exactly when its name equals the chosen name |
| Registry.MarkPrimaryIdempotent | App.tsx:63-66 | applying set-primary twice gives the same list as applying it once |
| Registry.PrimaryCountAfterMark | App.tsx:63-66 | after set-primary, the number of primary entries equals the number of entries with that name |
| Registry.SetPrimaryExactlyOne | App.tsx:62-66 | with distinct names, set-primary on a listed name leaves exactly one primary entry, and on an unlisted name none |
| Registry.SetPrimaryKeepsSinglePrimary | App.tsx:62-66 | with distinct names, set-primary on a listed name establishes the single-primary invariant |
| Registry.RepeatedMintBreaksSinglePrimary | App.tsx:48-66 | mint does not check that a name is new: minting "abcd" twice and then setting "abcd" primary leaves two primary entries |
| Registry.FeedName | App.tsx:35-38 | a feed name starts with the chosen prefix and ends in ".lit"; the part in between is empty iff the number exceeds 500, and otherwise is the number's decimal digits |
| Registry.PushFeed | App.tsx:39 | a feed update puts the new name first and keeps the first three previous names in order |
| Registry.FeedWindow | App.tsx:20-40 | a feed that starts with four names always has four: the newest names first, newest at the front, then what remains of the starting feed |
| Registry.App.constructor | App.tsx:16-31 | initial state: wallet disconnected, no mint open, landing page shown, the four starting feed names; owned domains restored when storage holds a readable list, empty otherwise |
| Registry.App.Connect | App.tsx:44-46 | connecting sets the wallet flag and changes nothing else |
| Registry.App.OpenMint | App.tsx:144 | "mint this" opens the wizard for the given name |
| Registry.App.CloseMint | App.tsx:79 | the wizard's Cancel closes it and leaves the owned list alone |
| Registry.App.SetShowProfile | App.tsx:149 | the dashboard toggle changes only the toggle |
| Registry.App.CompleteMint | App.tsx:48-60 | completion sets the owned list to the appended list and writes that same list to storage; it closes the wizard and shows the dashboard |
| Registry.App.FinishWizard | App.tsx:76-81 | the wizard's completion mints the wizard's own name and duration, and the duration is at least one year |
| Registry.App.SetPrimary | App.tsx:62-69 | set-primary sets the owned list to the re-flagged list and writes that same list to storage |
| Registry.App.FeedTick | App.tsx:34-40 | one interval firing pushes a generated name onto the feed, which keeps four entries; nothing else changes |
| MintFlow.FormatAddress | components/MintFlow.tsx:28-31 | a missing or empty address gives "0x00...0000"; otherwise the result is the first six characters, "...", and the last four characters, with JavaScript's clamping for short addresses |
| MintFlow.YearWord | components/MintFlow.tsx:55 | the unit is "Year" or "Years", and "Years" exactly when more than one year is chosen |
| MintFlow.DurationLabel | components/MintFlow.tsx:55 | the duration line begins with the decimal years followed by a space, and ends in "s" exactly when more than one year is chosen |
| MintFlow.FewerYears | components/MintFlow.tsx:59 | "-" gives one year fewer but never less than one |
| MintFlow.FewerUndoesMore | components/MintFlow.tsx:59-60 | "-" after "+" returns to the starting duration, and "-" at one year stays at one |
| MintFlow.MintWizard.constructor | components/MintFlow.tsx:14-16 | the wizard starts on step 1 with one year and no mint pending |
| MintFlow.MintWizard.Decrement | components/MintFlow.tsx:59 | step 1's "-" applies FewerYears and keeps the step |
| MintFlow.MintWizard.Increment | components/MintFlow.tsx:60 | step 1's "+" adds a year and keeps the step |
| MintFlow.MintWizard.Continue | components/MintFlow.tsx:79-80 | Continue moves from step 1 to step 2 |
| MintFlow.MintWizard.StartMint | components/MintFlow.tsx:20-22 | confirming on step 2 sets the minting flag and keeps the step |
| MintFlow.MintWizard.FireMintTimer | components/MintFlow.tsx:22-25 | the mint timer clears the minting flag and moves forward to step 3; steps stay in 1..3 and minting happens only on step 2 |
| MintFlow.MintWizard.Completion | components/MintFlow.tsx:133-134 | on step 3 the wizard hands over its domain and a duration of at least one year |
| Search.FallbackResult | components/SearchDomain.tsx:83-95 | the fallback result is available iff the query's `length` (UTF-16 code units) is above three; it has the lowercased name, rarity "Common", the fixed vibe, and exactly the suggestions "flame."+q, "alpha."+q, "lit."+q in that order |
| Search.ResultFor | components/SearchDomain.tsx:80-95 | the result name is the lowercased query on both paths; on success, available iff the query's `length` (UTF-16 code units) is above three and the reply said available, with the reply's other fields kept; on failure, the fallback |
| Search.ShortQueryNeverAvailable | components/SearchDomain.tsx:81-86 | a query whose `length` is three UTF-16 code units or fewer is never available, whatever the reply |
| Search.TwoAstralCharactersAreLongEnough | components/SearchDomain.tsx:81 | two characters outside the Basic Multilingual Plane already pass the length guard, because `length` counts four code units |
| Search.ResearchKeepsName | components/SearchDomain.tsx:82-87 | searching again for a result's name gives back that same name |
| Search.RarityTier | components/SearchDomain.tsx:147-150 | the badge is Legendary or Rare exactly when the lowercased rarity is "legendary" or "rare"; anything else is Common |
| Search.RarityTierIgnoresCase | components/SearchDomain.tsx:147-150 | the badge ignores letter case, and the fallback's "Common" shows as Common |
| Search.DisplayName | components/SearchDomain.tsx:201 | a displayed suggestion always contains ".lit": unchanged when it already does, ".lit" appended otherwise |
| Search.ChosenQuery | components/SearchDomain.tsx:196 | choosing a suggestion yields its name with the first ".lit" removed, or the name itself when it has none |
| Search.FirstTldIsAppended | components/SearchDomain.tsx:196-201 | in a name without ".lit", the first ".lit" after display is the appended one |
| Search.ChooseUndoesDisplay | components/SearchDomain.tsx:196-201 | for a suggestion without ".lit", choosing the displayed name gives back the suggestion |
| Search.LitSuggestionForLite | components/SearchDomain.tsx:92-93 | the fallback's "lit.lite" suggestion for query "lite" is shown without a suffix, and choosing it sets the query to "lite" |
| Search.SearchBox.constructor | components/SearchDomain.tsx:26-28 | the widget starts with an empty query, no search running and no result |
| Search.SearchBox.SetQuery | components/SearchDomain.tsx:108 | typing changes only the query |
| Search.SearchBox.BeginSearch | components/SearchDomain.tsx:30-33 | submitting an empty query does nothing; otherwise searching starts for the current query |
| Search.SearchBox.FinishSearch | components/SearchDomain.tsx:80-98 | when the call settles, the result is ResultFor of the searched query and searching ends, on both paths |
| Search.SearchBox.ChooseAlternative | components/SearchDomain.tsx:196 | choosing a suggestion sets the query to ChosenQuery of its name and clears the result |
| Search.SearchBox.MintName | components/SearchDomain.tsx:157-161 | "mint this" is offered only for an available result; its name is lowercase and its `length` is above three UTF-16 code units |
| Records.Edit | components/ManageDomain.tsx:72-110 | editing a field sets that field and leaves the other three unchanged |
| Records.EditLaws | components/ManageDomain.tsx:72-110 | the last edit of a field wins; re-entering a field's value changes nothing; edits of different fields commute |
| Records.InitialRecords | components/ManageDomain.tsx:15 | the editor opens with the domain's records when present, otherwise with all four fields empty |
| Records.GeneratedBio | components/ManageDomain.tsx:31-35 | a non-blank reply gives its trimmed text; a missing or blank reply gives the first fixed bio; a failure gives the second; the result is never empty and never has surrounding whitespace |
| Records.RecordEditor.constructor | components/ManageDomain.tsx:15-16 | the editor starts with the initial records and no generation running |
| Records.RecordEditor.EditField | components/ManageDomain.tsx:72-110 | an input's change applies Edit to the current records |
| Records.RecordEditor.BeginGenerate | components/ManageDomain.tsx:18-19 | generation sets the generating flag and leaves the records alone |
| Records.RecordEditor.FinishGenerate | components/ManageDomain.tsx:31-37 | when generation settles, only the bio changes, to the generated bio, and the generating flag clears on every path |
| Records.RecordEditor.Save | components/ManageDomain.tsx:132 | save hands over exactly the current records |
| Assistant.ReplyText | components/AIAssistant.tsx:62-64 | the assistant message is the response text, the fixed fallback when that text is empty or missing, or "Error: " plus the message on failure; it is never empty |
| Assistant.AcceptsIff | components/AIAssistant.tsx:28 | a send is accepted exactly when the input is not all whitespace and no reply is pending |
| Assistant.EveryPromptAnsweredOnce | components/AIAssistant.tsx:27-67 | in a well-formed transcript, user and assistant messages balance: with no reply pending, one assistant message per user message plus the greeting |
| Assistant.Chat.constructor | components/AIAssistant.tsx:8-20 | the transcript starts with the single greeting, an empty input and nothing pending |
| Assistant.Chat.SetOpen | components/AIAssistant.tsx:73 | opening or closing the panel changes nothing else |
| Assistant.Chat.SetInput | components/AIAssistant.tsx:111 | typing changes only the input |
| Assistant.Chat.Send | components/AIAssistant.tsx:27-33 | an accepted send appends the untrimmed input as a user message, clears the input and sets loading; an ignored send changes nothing |
| Assistant.Chat.Receive | components/AIAssistant.tsx:62-67 | a settled reply appends exactly one assistant message and clears loading; earlier messages never change and alternation is kept |
| Strings.Trim | components/AIAssistant.tsx:28 | trim returns the slice after the leading whitespace with the trailing whitespace removed; it is empty iff the input is blank, and otherwise starts and ends with a non-whitespace character |
| Strings.TrimIdempotent | components/ManageDomain.tsx:31 | trimming a trimmed string changes nothing |
| Strings.Lower | components/SearchDomain.tsx:82 | lowercasing keeps the length, maps each character, and leaves no upper-case ASCII letter |
| Strings.Utf16Length | components/SearchDomain.tsx:81 | `length` counts one code unit per character of the Basic Multilingual Plane and two per character outside it, so it lies between the character count and twice that, and equals the character count when no character is outside the plane |
| Strings.LowerKeepsUtf16Length | components/SearchDomain.tsx:81-82 | lowercasing does not change `length`, so the guard on the query also holds for the lowercased result name |
| Strings.FindFrom | components/SearchDomain.tsx:201 | the search finds the first occurrence at or after the start, or reports that there is none |
| Strings.ReplaceFirst | components/SearchDomain.tsx:196 | replace with a string pattern replaces only the first occurrence, and returns the string unchanged when there is none |
| Strings.IndexOf | components/SearchDomain.tsx:196 | `indexOf` gives the first index where the pattern occurs, or none when it occurs nowhere |
| Strings.Contains | components/SearchDomain.tsx:201 | `includes` holds iff the pattern occurs at some index |
| Strings.ClampIndex | components/MintFlow.tsx:30 | a `slice` index is clamped into the string: a negative index counts from the end and stops at 0, a non-negative one stops at the length |
| Strings.Slice | components/MintFlow.tsx:30 | `slice` yields the characters from the clamped start, as many as the clamped end exceeds it, and nothing for an inverted range |
| Strings.NatToString | App.tsx:38 | a number renders as at least one decimal digit, without a leading zero |
| Strings.NatToStringRoundTrip | App.tsx:38 | reading the rendered digits back gives the number |

## Left out

- JSX rendering, styling, animations, and the `Lightning` and `ElectricBorder` visuals. The two visual components are not part of this model.
- The completion service calls and their prompt text (components/SearchDomain.tsx:36-77, components/ManageDomain.tsx:21-29, components/AIAssistant.tsx:36-60) are foreign network calls. Their outcome is the reply parameter of `FinishSearch`, `FinishGenerate` and `Receive`.
- Browser storage and JSON serialisation (App.tsx:23-31, 57, 68). Storage is the `App.storage` field. Text that does not parse is the `Unreadable` case. Text that parses to something other than a list is not modelled, and neither is the conversion of `mintedAt` to a string after a storage round trip.
- `Math.random` for feed names and the fake hex addresses (App.tsx:36-37, 168). The prefix index and the number are parameters of `FeedTick`. The hex addresses exist only in the markup.
- Timer durations (components/MintFlow.tsx:22, App.tsx:34). Firing a timer is the explicit method `FireMintTimer` or `FeedTick`.
- Registry.App.FinishWizard: unmounting is not modelled. This covers clearing the feed interval and the cancelled wizard that React discards (App.tsx:76-81). `FinishWizard` accepts any step-3 wizard whose domain equals `activeMint`. That includes a stale wizard that was cancelled, reached step 3 through `FireMintTimer`, and is completed after the same name was reopened. In the source the cancelled wizard is unmounted, so it cannot complete.
- The price display with `0.05` and `toFixed(3)` (components/MintFlow.tsx:18, 67, 75), because it is floating point.
- Strings.Slice: positions count characters, not UTF-16 code units, here and in `FormatAddress`, `ChosenQuery` and `DisplayName`. The two differ only for characters outside the Basic Multilingual Plane. The `length` guard on search queries does count code units (`Utf16Length`).
- Strings.Lower: only ASCII letters are lowercased, because Unicode case mapping is out of scope.
- Search.ResultFor: when the reply text is empty, the parsed data `{}` has no rarity and no alternatives. The card then calls `toLowerCase` and `map` on undefined (components/SearchDomain.tsx:148, 193). The model keeps those fields as absent options and does not model the exception thrown while rendering.
- Registry.App.SetPrimary: it is stated for any name. The dashboard only offers it for a listed, non-primary entry (App.tsx:248-250). The single-primary guarantee therefore appears as the lemmas `SetPrimaryExactlyOne` and `SetPrimaryKeepsSinglePrimary`, under the extra assumption of distinct names. Minting does not ensure distinct names (`RepeatedMintBreaksSinglePrimary`).
- Records.RecordEditor: types.ts:29-34 declares `OwnedDomain` without the `records` field that components/ManageDomain.tsx:15 reads, and the dashboard's MANAGE button (App.tsx:257) has no handler. The editor is therefore modelled on its own and is not connected to `Registry`.
- The static content in constants.tsx, components/Roadmap.tsx, components/Navbar.tsx and components/Documentation.tsx, and the type-only types.ts. They hold no logic.
- Scrolling the chat to the bottom (components/AIAssistant.tsx:23-25) is a view effect.
