# PromptCraft prompt generator — a Dafny model

PromptCraft is a browser tool. A user describes a need in free text, picks a prompt
type and a tone, and gets a `{ system, prompt }` pair for a chat model. This project
models its deterministic core in Dafny and proves properties about that model:

- `text.dfy` (module `Text`): the JavaScript string operations the core relies on.
  These are `trim`, `toLowerCase`/`toUpperCase` (ASCII letters only), `includes`,
  `some(... includes ...)`, `repeat` and number-to-string.
- `prompt_builder.dfy` (module `PromptBuilder`): `TONE_INSTRUCTIONS`,
  `detectPromptType` and `generatePrompt` from `src/utils/generatePrompt.js`. The ten
  templates are kept as their exact text. Each one is split into a system sentence,
  a lead (the text before the quoted problem) and a checklist (the text after the
  tone line).
- `history.dfy` (module `History`): the five-entry history and its text export.
  The `'promptHistory'` storage slot is a field of class `HistoryStore`, of type
  `Option<seq<PromptRecord>>`, where `None` means the key is absent.
  `exportPromptsAsText` is a method whose loop appends to the report line by line,
  as the source does.
- `context_questions.dfy` (module `ContextQuestions`): the question data of
  `EnhancedContextQuestions.jsx`, with icons dropped. It also holds the three
  triggers, the answer map, the open/closed map and the suggestion table.
- `recent_prompts.dfy` (module `RecentPrompts`): `formatTimeAgo`, the 60-character
  shortening, tone capitalisation, and the two-click clear confirmation of
  `RecentPrompts.jsx`.
- `input_section.dfy` (module `InputSection`): `PROMPT_TYPES`, `TONE_OPTIONS`, the
  form defaults, and the submit guard and record of `InputSection.jsx`.

The prompt embeds the problem exactly as typed. There is no spelling correction, no
style normalisation and no per-category phrase rewriting: type detection works on
the lower-cased raw text, and the template receives the untrimmed original. This
model follows that code and has no correction or normalisation stage.

## Model

| member | source | states |
|---|---|---|
| `Text.TrimStart` | src/utils/generatePrompt.js:36 | the result is a suffix of the input, starts with a non-space, and everything dropped is white space |
| `Text.TrimEnd` | src/utils/generatePrompt.js:36 | the result is a prefix of the input, ends with a non-space, and everything dropped is white space |
| `Text.Trim` | src/utils/generatePrompt.js:36 | `trim()` is a contiguous slice of the input that neither starts nor ends with white space, with only white space cut before and after it |
| `Text.TrimEmptyIffBlank` | src/utils/generatePrompt.js:36 | `problem.trim()` is empty exactly when the problem is all white space (both directions) |
| `Text.LowerChar` | src/utils/generatePrompt.js:12 | each upper-case ASCII letter maps to the same letter in lower case (code point + 32); every other character is unchanged |
| `Text.UpperChar` | src/components/RecentPrompts.jsx:137 | each lower-case ASCII letter maps to the same letter in upper case (code point - 32); every other character is unchanged |
| `Text.Lower` | src/utils/generatePrompt.js:12 | `toLowerCase` keeps the length and lower-cases every character at its own position |
| `Text.LowerIdempotent` | src/components/EnhancedContextQuestions.jsx:16 | lower-casing twice is lower-casing once |
| `Text.Contains` | src/utils/generatePrompt.js:21 | `includes` is true exactly when the substring occurs at some position (both directions) |
| `Text.ContainsAny` | src/utils/generatePrompt.js:21 | `keys.some(k => s.includes(k))` is true exactly when some key occurs in the text |
| `Text.Repeat` | src/utils/generatePrompt.js:259 | `c.repeat(n)` has length n and every character is c |
| `Text.NatToString` | src/utils/generatePrompt.js:262 | a number prints as a non-empty string of decimal digits with no leading zero |
| `Text.NatToStringValue` | src/utils/generatePrompt.js:262 | reading the printed digits back gives the number |
| `PromptBuilder.ToneInstruction` | src/utils/generatePrompt.js:45 | a known tone gets its own sentence; any other tone gets the friendly one; the result is always one of the five sentences |
| `PromptBuilder.DetectPromptType` | src/utils/generatePrompt.js:11-32 | a presentation keyword in the lower-cased problem gives "presentation"; otherwise an HR keyword gives "hr"; otherwise the selected type is returned unchanged |
| `PromptBuilder.TemplateFor` | src/utils/generatePrompt.js:49-214 | exactly the nine named types get a template of their own; `general` and every other string get the general template |
| `PromptBuilder.TemplateForTypeName` | src/utils/generatePrompt.js:49-214 | every template is reached from its own case label |
| `PromptBuilder.Render` | src/utils/generatePrompt.js:50-62 | a filled template carries the template's system sentence, and its user prompt reads back, between the template's opening and closing, as exactly the problem put in |
| `PromptBuilder.GeneratePrompt` | src/utils/generatePrompt.js:35-220 | blank input gives the fixed guard pair whatever the type and tone; otherwise the template of the detected type, filled in with the untrimmed problem and the tone sentence |
| `PromptBuilder.ExtractProblem` | src/utils/generatePrompt.js:49-214 | text read back between a template's opening and closing re-renders to the same prompt |
| `PromptBuilder.ExtractGenerated` | src/utils/generatePrompt.js:44-53 | the original untrimmed problem is recovered exactly from a generated prompt (round trip) |
| `PromptBuilder.TemplateOfSystem` | src/utils/generatePrompt.js:49-214 | a recognised system sentence belongs to the template it names |
| `PromptBuilder.SystemIdentifiesTemplate` | src/utils/generatePrompt.js:37-214 | the ten system sentences are non-empty, pairwise distinct, and differ from the guard's sentence |
| `PromptBuilder.GeneratedPromptShape` | src/utils/generatePrompt.js:49-220 | for non-blank input, the system sentence is non-empty and not the guard's; the prompt contains the problem in double quotes and the tone sentence on its own line |
| `PromptBuilder.KeywordIsLowercase` | src/utils/generatePrompt.js:15-18 | every keyword is its own lower-case form, so it can match the lower-cased text |
| `PromptBuilder.WordOccursInLower` | src/utils/generatePrompt.js:12-21 | a word typed in any letter case anywhere in the problem occurs, lower-cased, in the lower-cased problem |
| `PromptBuilder.PresentationKeywordWins` | src/utils/generatePrompt.js:21-23 | any problem that contains a presentation keyword, in any letter case, resolves to the presentation template, whatever type was selected |
| `PromptBuilder.HrKeywordWins` | src/utils/generatePrompt.js:26-28 | an HR keyword in any letter case, with no presentation keyword, resolves to the HR template; this includes "hr" inside another word |
| `PromptBuilder.NoKeywordKeepsSelection` | src/utils/generatePrompt.js:31 | with no keyword from either family, a named type keeps its own template and any other type gets the general one |
| `History.Prepend` | src/utils/generatePrompt.js:233 | the new record comes first, the older ones follow in order, and at most five are kept |
| `History.SaveAllKeepsNewest` | src/utils/generatePrompt.js:224-235 | after any sequence of saves, the list is the saved records newest first, then the old list, cut to five |
| `History.LastFiveSaves` | src/utils/generatePrompt.js:232-233 | after five or more saves, the list is exactly the last five saved, newest first |
| `History.KindLabel` | src/utils/generatePrompt.js:262 | a missing or empty type label reads "General Help"; any other label is kept |
| `History.EntryBlockLayout` | src/utils/generatePrompt.js:262-268 | an entry's block starts with its number and type label, holds the problem line, the system prompt and the user prompt, and ends with the 50-character dash rule and a blank line |
| `History.EntryBlocks` | src/utils/generatePrompt.js:261-269 | one block per entry, in list order, numbered on from the first number |
| `History.ExportText` | src/utils/generatePrompt.js:252-272 | an empty history exports "No prompts to export."; any other history exports a report that starts with the title and the 50-character `=` rule |
| `History.ExportListsEveryEntry` | src/utils/generatePrompt.js:261-269 | every entry appears in the report as its own block, numbered by its position from one |
| `History.HistoryStore.constructor` | src/utils/generatePrompt.js:239-243 | a fresh slot holds nothing |
| `History.HistoryStore.GetHistory` | src/utils/generatePrompt.js:239-243 | the stored list, or the empty list when the key is absent |
| `History.HistoryStore.SaveToHistory` | src/utils/generatePrompt.js:224-236 | the stored list becomes `Prepend` of the old one; the list returned is the list stored; the new record is first; at most five are kept |
| `History.HistoryStore.ClearHistory` | src/utils/generatePrompt.js:246-249 | the key is removed, the empty list is returned, and reading afterwards gives the empty list |
| `History.HistoryStore.ExportPromptsAsText` | src/utils/generatePrompt.js:252-272 | the loop's output equals `ExportText` of the stored history |
| `ContextQuestions.SelectQuestions` | src/components/EnhancedContextQuestions.jsx:15-104 | the question list is empty exactly when none of the three triggers fires (both directions) |
| `ContextQuestions.BlogOverridesOthers` | src/components/EnhancedContextQuestions.jsx:76-101 | a blog trigger gives the content-strategy and publishing-context sections, whatever else fires |
| `ContextQuestions.LearningOverridesLeave` | src/components/EnhancedContextQuestions.jsx:48-73 | without a blog trigger, a learning trigger gives the learning sections even when the leave trigger fires |
| `ContextQuestions.LeaveOnlySections` | src/components/EnhancedContextQuestions.jsx:20-45 | a leave trigger alone gives exactly the sections leave-details and professional-context |
| `ContextQuestions.BlogWordInAnyCase` | src/components/EnhancedContextQuestions.jsx:16-76 | any letter case of "blog" anywhere in the problem selects the blog sections |
| `ContextQuestions.LearnWordInAnyCase` | src/components/EnhancedContextQuestions.jsx:16-48 | any letter case of "learn" anywhere in the problem selects the learning sections, unless blog fires |
| `ContextQuestions.SmartSuggestions` | src/components/EnhancedContextQuestions.jsx:119-129 | fixed lists for duration, reason, level and audience; empty for any other id; the current value plays no part |
| `ContextQuestions.SuggestionsShown` | src/components/EnhancedContextQuestions.jsx:170-192 | suggestion buttons appear only under a free-text field with a non-empty answer whose id has table entries, and such a field shows exactly the table's list for its id |
| `ContextQuestions.ReasonAndLevelSuggestionsNeverShown` | src/components/EnhancedContextQuestions.jsx:170-180 | the "reason" and "level" suggestions never appear, because those questions are drop-downs in every list |
| `ContextQuestions.Toggled` | src/components/EnhancedContextQuestions.jsx:112-117 | the toggled section flips, an absent entry counting as closed; every other section is unchanged |
| `ContextQuestions.ToggleTwice` | src/components/EnhancedContextQuestions.jsx:112-117 | toggling the same section twice leaves every section as it was |
| `ContextQuestions.ContextQuestionsPanel.constructor` | src/components/EnhancedContextQuestions.jsx:5-7 | no questions, no answers, every section closed |
| `ContextQuestions.ContextQuestionsPanel.GenerateEnhancedQuestions` | src/components/EnhancedContextQuestions.jsx:15-104 | the three overwriting `if`s give the precedence blog over learning over leave; the panel renders exactly when a trigger fires; answers and open sections are kept |
| `ContextQuestions.ContextQuestionsPanel.HandleAnswerChange` | src/components/EnhancedContextQuestions.jsx:106-110 | only the given question's answer changes; the map passed to the callback is the new map |
| `ContextQuestions.ContextQuestionsPanel.ToggleSection` | src/components/EnhancedContextQuestions.jsx:112-117 | the open map becomes `Toggled` of the old one; nothing else changes |
| `RecentPrompts.FloorDiv` | src/components/RecentPrompts.jsx:41-56 | `Math.floor(a / b)` for positive b: the q with q*b <= a < (q+1)*b |
| `RecentPrompts.ElapsedSeconds` | src/components/RecentPrompts.jsx:41 | `Math.floor((now - then) / 1000)`: the whole seconds r with r*1000 <= now - then < (r+1)*1000 |
| `RecentPrompts.JustNowIffUnderSixtyThousandMillis` | src/components/RecentPrompts.jsx:41-58 | from two instants, "Just now" shows exactly when they are less than 60000 ms apart, a timestamp in the future included |
| `RecentPrompts.FormatTimeAgo` | src/components/RecentPrompts.jsx:40-59 | under 60 elapsed seconds, negative ones included, the text is "Just now" |
| `RecentPrompts.FirstFit` | src/components/RecentPrompts.jsx:43-56 | picks the first unit, largest first, whose floor quotient is at least one; none when no unit fits |
| `RecentPrompts.FormatTimeAgoFollowsTable` | src/components/RecentPrompts.jsx:43-58 | the chain of early returns equals the lookup in the table y/mo/d/h/m (31536000, 2592000, 86400, 3600, 60 seconds) |
| `RecentPrompts.JustNowIffUnderAMinute` | src/components/RecentPrompts.jsx:41-58 | the text is "Just now" exactly when fewer than 60 seconds have elapsed (both directions) |
| `RecentPrompts.CountAtLeastOne` | src/components/RecentPrompts.jsx:43-56 | from a minute on, the text is the floor count (at least one) of a table unit, followed by its suffix and " ago" |
| `RecentPrompts.Shortened` | src/components/RecentPrompts.jsx:130 | a problem of at most 60 characters is shown unchanged; a longer one as its first 60 characters plus "...", 63 in all |
| `RecentPrompts.Capitalized` | src/components/RecentPrompts.jsx:137 | the first character is upper-cased, the rest is kept verbatim, and the length is unchanged |
| `RecentPrompts.RecentPromptsPanel.constructor` | src/components/RecentPrompts.jsx:6-12 | mounting loads the stored list, closed and not armed |
| `RecentPrompts.RecentPromptsPanel.LoadPrompts` | src/components/RecentPrompts.jsx:23-26 | the shown list becomes the stored list |
| `RecentPrompts.RecentPromptsPanel.HandleClearHistory` | src/components/RecentPrompts.jsx:28-38 | a first click only arms and leaves list and storage untouched; a click while armed clears storage and list and disarms |
| `RecentPrompts.RecentPromptsPanel.ConfirmTimeout` | src/components/RecentPrompts.jsx:36 | the timer disarms the confirmation and changes nothing else |
| `RecentPrompts.RecentPromptsPanel.ToggleOpen` | src/components/RecentPrompts.jsx:103 | the list opens or closes; nothing else changes |
| `InputSection.FindType` | src/components/InputSection.jsx:43 | `find` returns the first entry with the value, or nothing when no entry has it |
| `InputSection.PromptTypeValuesDistinct` | src/components/InputSection.jsx:5-16 | no two type options share a value |
| `InputSection.TypeLabel` | src/components/InputSection.jsx:43 | a listed value gets its own label; any other value gets "General Help" |
| `InputSection.OfferedTypesHaveTemplates` | src/components/InputSection.jsx:5-16 | every offered type value reaches its own template case |
| `InputSection.OfferedTonesAreKnown` | src/components/InputSection.jsx:18-24 | every offered tone has its own instruction sentence |
| `InputSection.ToneCaptionsAreCapitalizedValues` | src/components/InputSection.jsx:18-24 | each tone's label is its value with the first letter capitalised, so the recent list shows the same word |
| `InputSection.Submission` | src/components/InputSection.jsx:37-49 | nothing is emitted exactly when the trimmed problem is empty or a generation is running; otherwise the record has the exact problem and tone, the selected type's label, and the pair `generatePrompt` returns |
| `InputSection.LabelIgnoresDetection` | src/components/InputSection.jsx:40-43 | with type general and a presentation keyword in any letter case, the record says "General Help" while its system sentence is the presentation one |
| `InputSection.InputForm.constructor` | src/components/InputSection.jsx:27-29 | empty problem, type general, tone friendly |
| `InputSection.InputForm.SetProblem` | src/components/InputSection.jsx:80 | the problem becomes the typed text; the type and tone are kept |
| `InputSection.InputForm.HandleTypeSelect` | src/components/InputSection.jsx:51-53 | only the selected type changes |
| `InputSection.InputForm.HandleToneSelect` | src/components/InputSection.jsx:55-57 | only the selected tone changes |
| `InputSection.InputForm.HandleSubmit` | src/components/InputSection.jsx:37-49 | what reaches `onGenerate` is `Submission` of the current fields |

## Left out

- Persistence and JSON: `localStorage` and `JSON.stringify`/`JSON.parse` are replaced by an in-memory `Option` slot. A stored value that is not valid JSON, and the `typeof window === 'undefined'` server-side branch, are not modelled.
- Clock and locale: `Date.now()` and `new Date().toISOString()` are parameters of `SaveToHistory`. `toLocaleString` is a `string -> string` parameter of the export. `formatTimeAgo` takes the elapsed whole seconds; `ElapsedSeconds` computes them from two millisecond instants. An unparsable timestamp gives `NaN` in JavaScript (shown as "Just now"); that case is not represented.
- Timers: the 3-second reset of the clear confirmation is the explicit event `ConfirmTimeout`. Its timing, the simulated generation delay and the preview debounce are not modelled.
- Rendering: JSX, icons, the clipboard, the file download, `window.open`, the `storage` event listener (its effect is `LoadPrompts`), theme handling and the `smartSuggestions` state, which is never written.
- `getCharCountColor` (floating-point percentages) and the 500-character `maxLength` that the browser enforces.
- `Text.Lower`, `Text.UpperChar`: case mapping covers ASCII letters only. JavaScript also maps non-ASCII letters.
- `Text.TrimStart`, `Text.TrimEnd`: white space is the fixed ECMAScript set of white-space and line-terminator characters.
- Strings here are sequences of Unicode scalar values, while JavaScript strings are sequences of UTF-16 code units. A character outside the Basic Multilingual Plane counts as one here and as two in JavaScript, and lone surrogates cannot be represented.
- `RecentPrompts.Shortened`: counts characters, not UTF-16 code units. A problem of 59 `a`s followed by U+1F600 has length 60 here and is shown unchanged, while JavaScript sees length 61 and cuts through the surrogate pair. A cut through a surrogate pair is not represented.
- `RecentPrompts.Capitalized`: treats a first character outside the Basic Multilingual Plane as one character; JavaScript's `charAt(0)` takes only its high surrogate. Both leave such a character unchanged, since it has no ASCII case mapping here.
- `PromptBuilder.ToneInstruction`: keys inherited by every JavaScript object (`TONE_INSTRUCTIONS["constructor"]` and the like) are not modelled; such a tone gets the friendly sentence here.
- Object spread in `saveToHistory`: a record is the caller's data between an id and a timestamp. The case where the caller's data carries its own `id` or `timestamp` keys is not modelled, since the form never supplies them.
