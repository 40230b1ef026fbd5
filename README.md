# Lucky draw — a verified model

This project models the logic of the K-R-Training lucky-draw web app in Dafny.
The app is written in React/TypeScript.

- **The prize wheel (standard mode).** A spin picks a name from the pool of remaining participants. It then turns the wheel to an absolute rotation that brings that name's wedge under a pointer fixed on the left side. Eight seconds later a reveal callback shows the name and, when a prize is active, records the winner and removes the name from the pool.
- **The gift exchange (batch mode).** Each participant line gets a numbered prize `No. 1`, `No. 2`, … A shuffle of the participants hands out the numbers in one step.
- **The setup screen.** It parses participants (one per line, blank lines ignored) and checks whether the draw may start, per mode. It also adds and removes prizes and merges generated prize images.
- **The application shell.** It routes between screens, builds the session prizes and sets the header subtitle.
- **The prompt gallery.** It holds an editable prompt per catalogue entry, with reset. It also has category chips and their filter, a source photo, and the bookkeeping of running and finished image generations.

Modules, one file each:

| file | module | models |
|---|---|---|
| `wrappers.dfy` | `Wrappers` | `Option`, for `null`/`undefined` |
| `js_builtins.dfy` | `Js` | `trim`, `split`, `startsWith`, `${n}`, `filter`, `find`, `splice(i, 1)` |
| `types.dfy` | `Types` | `Prize`, `AppState`, `AppMode` (types.ts) |
| `wheel_geometry.dfy` | `WheelGeometry` | the rotation and slice arithmetic of components/DrawingView.tsx |
| `drawing_view.dfy` | `Drawing` | components/DrawingView.tsx |
| `setup_view.dfy` | `Setup` | components/SetupView.tsx |
| `app.dfy` | `Shell` | App.tsx |
| `nano_prompts_view.dfy` | `Prompts` | components/NanoPromptsView.tsx |

Modelling conventions:

- Each React component with state is a `class`. Its `useState` variables are fields, and its handlers are methods that change exactly the fields the handler sets.
- A `setTimeout` callback or an `await` continuation is a second method. The values the callback closes over are stored as a pending record when the first method runs: `StartSpin` then `Reveal`, `StartBatchDraw` then `RevealBatch`, `BeginGenerateImages` then `FinishGenerateImages`, `BeginTransform` then `CompleteTransform`.
- Every `Math.random()` value is a `real` parameter in `[0, 1)`.
- The `sort(() => Math.random() - 0.5)` shuffle is a parameter required to be a permutation of the participants.
- `crypto.randomUUID()` is a parameter required to differ from the existing prize ids.
- Image-generation calls are parameters: the generator's answer is an `Option<string>`.
- Angles are exact reals.

## Model

| member | source | states |
|---|---|---|
| Js.TrimStart | components/SetupView.tsx:30 | `trimStart` drops only white space and leaves a suffix that starts with a non-space |
| Js.TrimEnd | components/SetupView.tsx:30 | `trimEnd` drops only white space and leaves a prefix that ends with a non-space |
| Js.BlankIffAllWhiteSpace | components/SetupView.tsx:30 | `!s.trim()` holds exactly when every character of `s` is white space |
| Js.TrimShape | components/SetupView.tsx:33 | a trimmed name is a slice of the input and neither starts nor ends with white space |
| Js.Split | components/SetupView.tsx:62 | `split('\n')` gives at least one piece, and no piece contains the separator |
| Js.JoinSplit | components/SetupView.tsx:62 | splitting loses nothing: joining the pieces with the separator gives the text back |
| Js.SplitJoin | components/SetupView.tsx:62 | splitting a join of separator-free lines gives exactly those lines |
| Js.Decimal | App.tsx:34-35 | `${i + 1}` is a non-empty string of decimal digits |
| Js.ParseDecimalOfDecimal | App.tsx:34-35 | reading the rendered number back gives the number |
| Js.DecimalInjective | App.tsx:34-35 | different numbers render to different strings |
| Js.Filter | components/SetupView.tsx:40 | `filter` returns elements of the input that pass the test, and is no longer than the input |
| Js.FilterMultiset | components/SetupView.tsx:40 | `filter` keeps each passing element exactly as often as it occurs and drops every failing one |
| Js.FilterAppend | components/NanoPromptsView.tsx:205 | `filter` commutes with concatenation, so it keeps the input's order |
| Js.FilterSkips | components/SetupView.tsx:62 | an element the test rejects can be dropped before filtering without changing the result |
| Js.FilterKeepsAll | components/SetupView.tsx:62 | a filter that accepts every element returns the input unchanged |
| Js.Find | components/DrawingView.tsx:50 | `find` returns the first element that passes, and `undefined` exactly when none does |
| Js.RemoveAt | components/DrawingView.tsx:119-123 | the copy after `splice(i, 1)` is the input without position `i`: one element shorter, the same multiset minus that element |
| WheelGeometry.SliceAngle | components/DrawingView.tsx:87 | `n` slices of `360 / n` degrees make exactly one turn |
| WheelGeometry.JsMod360NonNegative | components/DrawingView.tsx:93 | for a non-negative rotation, JavaScript's truncating `%` is the reduction into `[0, 360)` |
| WheelGeometry.SliceBounds | components/DrawingView.tsx:161-162 | slice `i` runs from `i` to `i + 1` slice widths |
| WheelGeometry.MidAngleIsSliceCenter | components/DrawingView.tsx:174 | the label's mid-angle in the drawing equals the slice centre the spin aims for (line 88) |
| WheelGeometry.SlicesTile | components/DrawingView.tsx:160-162 | the slices start at 0, end at 360, are non-empty and follow each other without gaps |
| WheelGeometry.SlicesDisjoint | components/DrawingView.tsx:160-162 | no angle lies in two slices |
| WheelGeometry.SliceAtContains | components/DrawingView.tsx:160-162 | every angle of a turn lies in a slice, and `SliceAt` names it |
| WheelGeometry.SliceAtInside | components/DrawingView.tsx:160-162 | an angle strictly inside slice `k` decodes to `k` |
| WheelGeometry.PickIndex | components/DrawingView.tsx:83 | `Math.floor(Math.random() * n)` is a valid pool position |
| WheelGeometry.ExtraTurns | components/DrawingView.tsx:91 | a spin adds between 12 and 19 full turns |
| WheelGeometry.RandomOffsetBound | components/DrawingView.tsx:97 | the random offset lies within ±0.4 slice widths of the centre, so less than half a slice and less than 144° |
| WheelGeometry.AimInsideSlice | components/DrawingView.tsx:88-97 | the point aimed at (the slice centre shifted by the offset) lies strictly inside the winner's slice |
| WheelGeometry.FinalRotation | components/DrawingView.tsx:99 | the absolute rotation the wheel animates to; what it achieves is stated by the two lemmas below |
| WheelGeometry.PointerLandsInWinnerSlice | components/DrawingView.tsx:87-99 | the final rotation differs from `targetBase + randomOffset` by whole turns only. The angle under the pointer at rest lies strictly inside the winner's slice, and decoding it gives back the winner's index |
| WheelGeometry.SpinMovesForward | components/DrawingView.tsx:91-99 | the final rotation exceeds the start by more than ten turns: the wheel never turns backwards |
| Drawing.WheelSlices | components/DrawingView.tsx:134-199 | an empty pool draws nothing and one name draws a full disc in the first colour. More names draw one wedge per name with the layout, colour and label of its position |
| Drawing.WinnerSectorUnderPointer | components/DrawingView.tsx:160-193 | after a spin, the wedge labelled with the winner's name is the only wedge under the pointer, and its label sits at the slice centre the spin aims for |
| Drawing.SectorAt | components/DrawingView.tsx:159-193 | wedge `i` is labelled with name `i` and filled with a palette colour; its layout is stated by the slice lemmas above |
| Drawing.NeighbourColoursDiffer | components/DrawingView.tsx:182 | consecutive wedges `i` and `i + 1` never share a colour |
| Drawing.FirstLastColours | components/DrawingView.tsx:182 | the last and first wedges, which touch at 0°/360°, share the first palette colour exactly when the number of names is one more than a multiple of ten (11, 21, …) |
| Drawing.BatchResult | components/DrawingView.tsx:61-65 | no more results than prizes or shuffled names, and result `i` is won by shuffled name `i` |
| Drawing.AssignBatch | components/DrawingView.tsx:59-65 | the `forEach` loop builds exactly the pairing of prize `i` with shuffled name `i`, and drops the prizes past the end of the list |
| Drawing.BatchResultShape | components/DrawingView.tsx:61-65 | the batch keeps the prizes' order and ids, and hands them to the first shuffled names, each used once |
| Drawing.ExchangeAssignsEveryoneOnce | components/DrawingView.tsx:58-65 | with one prize per participant and a permuting shuffle, every participant gets exactly one prize |
| Drawing.CommitMovesOneName | components/DrawingView.tsx:116-123 | a commit moves one name from the pool to the winners: pool plus winner names stays the same multiset |
| Drawing.CommitKeepsNoDoubleDraw | components/DrawingView.tsx:116-123 | a commit keeps every participant drawn at most once |
| Drawing.SelectedPrizeSpec | components/DrawingView.tsx:50 | no prize is active without a selection. With id `id` selected, the active prize is the first prize with that id, and one exists exactly when some prize has that id |
| Drawing.DrawingView.constructor | components/DrawingView.tsx:35-47 | the initial state: the whole list is the pool, there are no winners and no selection, and the rotation is 0 |
| Drawing.DrawingView.StartSpin | components/DrawingView.tsx:77-101 | a running spin or an empty pool changes nothing. Otherwise the pick, the winner's name and the active prize are fixed for the reveal. The wheel moves forward to a rotation that puts the winner's slice under the pointer, and nothing else changes |
| Drawing.DrawingView.Reveal | components/DrawingView.tsx:104-124 | the spin stops and the drawn name is shown. With an active prize, that prize is appended with the name as winner and exactly the drawn position leaves the pool; without one, winners and pool are unchanged. No participant is ever drawn twice (`Valid`) |
| Drawing.DrawingView.Commit | components/DrawingView.tsx:116-123 | appends the winner entry and removes position `k` from the pool, keeping every participant drawn at most once |
| Drawing.DrawingView.HandleBackToList | components/DrawingView.tsx:128-131 | the selection is cleared and the winner dialog closes |
| Drawing.DrawingView.StartBatchDraw | components/DrawingView.tsx:55-57 | shows the shuffling state and schedules one shuffle |
| Drawing.DrawingView.RevealBatch | components/DrawingView.tsx:57-69 | for a permuting shuffle, the winners become the batch pairing and the screen shows the result |
| Drawing.DrawingView.SelectPrize | components/DrawingView.tsx:35 | sets the active prize id (the corrected behaviour in Findings) |
| Drawing.DrawOnceAsWritten | components/DrawingView.tsx:116-124 | as written, a draw shows a name but records no winner and leaves the pool whole |
| Drawing.DrawOnceCorrected | components/DrawingView.tsx:116-124 | with a prize selected, a draw records that prize with the drawn name, and exactly that name leaves the pool |
| Setup.ParticipantList | components/SetupView.tsx:62 | every parsed name is a non-blank piece of the text without a line break |
| Setup.ParticipantListSpec | components/SetupView.tsx:62 | the participant list holds exactly the non-blank lines, untrimmed, each as often as typed, and no name contains a line break |
| Setup.ParticipantListOfLines | components/SetupView.tsx:62 | names typed one per line come back as exactly those names, in order |
| Setup.BlankLinesIgnored | components/SetupView.tsx:62 | a blank line anywhere does not change the list |
| Setup.CanStart | components/SetupView.tsx:64-72 | the start-button condition per mode; its cases are stated by the lemma below |
| Setup.CanStartRules | components/SetupView.tsx:66-72 | standard mode may start exactly when 1 ≤ prizes ≤ participants. An exchange may start exactly when there are two or more participants, whatever the prizes |
| Setup.WithoutIdMembers | components/SetupView.tsx:39-41 | removal drops every prize with the id and keeps every other prize, as often as before |
| Setup.WithoutIdKeepsUnique | components/SetupView.tsx:39-41 | removal keeps prize ids distinct |
| Setup.MergeImages | components/SetupView.tsx:54-57 | the merged list has one prize per prize, in order |
| Setup.MergeImagesSpec | components/SetupView.tsx:54-57 | the merge keeps length, order, ids, names and winners. An image changes only to a non-empty URL returned for that prize's id; conversely the first update for a prize's id, when it carries a non-empty URL, becomes that prize's image, and a prize no update names is kept as it was |
| Setup.MergeRequestedImages | components/SetupView.tsx:43-57 | with the answers paired to the requested prizes, a prize gets the non-empty URL answered for the first request with its id, and a prize that was not requested is kept |
| Setup.SetupView.constructor | components/SetupView.tsx:26-27 | the prize-name input is empty and no generation is running |
| Setup.SetupView.TypePrizeName | components/SetupView.tsx:134 | the input holds the typed text |
| Setup.SetupView.AddPrize | components/SetupView.tsx:29-37 | a blank input changes nothing. Otherwise one prize with a fresh id and the trimmed, non-empty name is appended, and the input is cleared |
| Setup.SetupView.RemovePrize | components/SetupView.tsx:39-41 | the prizes become the filtered list, and ids stay distinct |
| Setup.SetupView.BeginGenerateImages | components/SetupView.tsx:43-52 | marks the generation as running and requests exactly the prizes without an image |
| Setup.SetupView.FinishGenerateImages | components/SetupView.tsx:54-59 | merges the answers: a prize changes only if it had no image and now has one, a requested prize still present whose answer is non-empty now shows that image, an unrequested prize is unchanged, ids and order are kept, and the generation ends |
| Shell.NumberPrizes | App.tsx:32-36 | one numbered prize per participant name |
| Shell.NumberPrizesSpec | App.tsx:31-37 | one numbered prize per name, with distinct ids `num-<i+1>` and names `No. <i+1>` that read back as the 1-based position, and no image or winner |
| Shell.ExchangeSessionAssignsEveryone | App.tsx:30-41 | end to end, for a permuting shuffle, every participant line gets exactly one number and every number keeps its id |
| Shell.SubTitle | App.tsx:58-63 | the header subtitle per screen; its cases are stated by the lemma below |
| Shell.SubTitleRules | App.tsx:58-63 | only the dashboard has no subtitle. The three lucky-draw screens show '幸運抽獎', and each tool's title belongs to its screen alone |
| Shell.App.constructor | App.tsx:10-18 | the shell starts on the dashboard in standard mode with empty settings |
| Shell.App.SetParticipants | App.tsx:109 | the setup screen's participant text is stored |
| Shell.App.SetPrizes | App.tsx:111 | the setup screen's prizes are stored |
| Shell.App.SetAppMode | App.tsx:114 | the selected mode is stored |
| Shell.App.HandleSelectTool | App.tsx:20-28 | the three known tiles open their screen, any other name changes nothing, and a tile never opens the drawing or results directly |
| Shell.App.HandleStartDraw | App.tsx:30-42 | an exchange gets one numbered prize per participant line and standard mode gets the configured prizes; the drawing screen opens and session ids stay distinct |
| Shell.App.HandleFinishDraw | App.tsx:44-47 | the results become the winners and the results screen opens |
| Shell.App.HandleReset | App.tsx:49-52 | the winners are cleared and setup opens; participants, prizes and mode are kept |
| Shell.App.HandleGoHome | App.tsx:54-56 | the dashboard opens and everything else is kept |
| Shell.App.HandleDrawBack | App.tsx:123 | the `onBack` callback handed to the drawing screen reopens setup and keeps everything else; the drawing screen never invokes it (see Left out) |
| Prompts.DefaultPrompts | components/NanoPromptsView.tsx:74-76 | the initial overrides have exactly the catalogue's ids as keys |
| Prompts.DefaultPromptsSpec | components/NanoPromptsView.tsx:74-76 | with distinct ids, each id starts with its entry's own prompt |
| Prompts.OriginalSpec | components/NanoPromptsView.tsx:86-87 | the reset lookup finds an entry exactly for catalogue ids, and that entry carries the initial prompt |
| Prompts.Distinct | components/NanoPromptsView.tsx:202 | `Array.from(new Set(xs))` has no duplicates and the same values as `xs` |
| Prompts.DistinctFirstAppearance | components/NanoPromptsView.tsx:202 | the distinct values are in order of first appearance |
| Prompts.Categories | components/NanoPromptsView.tsx:202 | the chip list; stated by the lemma below |
| Prompts.CategoriesSpec | components/NanoPromptsView.tsx:202 | the chips are '全部' followed by each catalogue category exactly once, in first-appearance order, and nothing else |
| Prompts.FilteredData | components/NanoPromptsView.tsx:203-205 | the shown entries are catalogue entries and no more than the catalogue |
| Prompts.FilteredDataSpec | components/NanoPromptsView.tsx:203-205 | '全部' shows the whole catalogue. Any other chip shows exactly the entries of its category, as often as in the catalogue and in catalogue order, and every chip of a non-empty catalogue shows at least one entry |
| Prompts.NanoPromptsView.constructor | components/NanoPromptsView.tsx:63-76 | every entry starts with its own prompt; there is no photo, nothing loading and no results |
| Prompts.NanoPromptsView.SelectCategory | components/NanoPromptsView.tsx:270 | the chosen chip becomes the active category |
| Prompts.NanoPromptsView.HandlePromptChange | components/NanoPromptsView.tsx:81-83 | only entry `id` changes, to the new text |
| Prompts.NanoPromptsView.ResetPrompt | components/NanoPromptsView.tsx:85-90 | a catalogue id gets its initial prompt back and nothing else changes; an unknown id changes nothing |
| Prompts.NanoPromptsView.ProcessFile | components/NanoPromptsView.tsx:98-114 | a non-`image/` file changes nothing. An image file sets the MIME type, and a non-empty read result becomes the photo and clears the generated images |
| Prompts.NanoPromptsView.HandleClearImage | components/NanoPromptsView.tsx:145-150 | no photo, no MIME type, no generated images |
| Prompts.NanoPromptsView.BeginTransform | components/NanoPromptsView.tsx:167-175 | without a photo nothing happens. Otherwise the item is marked loading, and the request carries the photo, its type and the item's current prompt |
| Prompts.NanoPromptsView.CompleteTransform | components/NanoPromptsView.tsx:176-190 | only a non-empty answer is stored for the item; whatever the outcome, the item stops loading and the other items are untouched |

## Left out

- Randomness is not modelled as a distribution. `Math.random()` values are parameters in `[0, 1)`, so nothing is said about fairness. The `sort(() => Math.random() - 0.5)` shuffle is only required to be a permutation, not a uniform one.
- Timers are not modelled as time. The 8-second reveal and the 2-second shuffle delay are separate methods. A reveal firing after the screen is gone is not modelled.
- Confetti, CSS transitions and easing, and the results screen's animation loop are not modelled.
- IEEE-754 rounding is not modelled: angles are exact reals.
- The SVG path strings and trigonometry of the wedges (components/DrawingView.tsx:164-178) and the label rotation are not modelled.
- services/geminiService.ts is not part of this model. Its answers are `Option<string>` parameters. A thrown error in `handleTransform` is the `None` answer, whose effects are the same.
- `Promise.all` in `generateImages`: the answers arrive as one list (`FinishGenerateImages`). A rejected promise, which would leave `isGenerating` stuck at true, is not modelled.
- File, URL and clipboard input, the paste listener, the copy button and the download link (components/NanoPromptsView.tsx:92-165, 193-200) are not modelled. `ProcessFile` takes the file's type and what the reader returned. The reader's asynchrony between the type check and `onload` is not modelled.
- The literal `PROMPT_DATA` catalogue is not modelled. The gallery takes any catalogue with distinct ids, which the literal has.
- Presentation-only components are not part of this model: components/Button.tsx, components/PrizeItem.tsx, components/DashboardView.tsx and components/ResultsView.tsx.
- Render-only state is not modelled: `copiedId`, `selectedEnlarge`, the URL-import inputs, and the disabled state of buttons.
- State sharing is simplified. The setup screen edits the shell's `prizes` and `participants` through props. Here `Setup.SetupView` keeps its own prize list, and the shell's `SetParticipants`/`SetPrizes`/`SetAppMode` stand for the props' setters.
- Shell.App.SetPrizes requires distinct ids, which `Setup.SetupView.Valid` guarantees for the lists the setup screen produces.
- Prompts.NanoPromptsView.BeginTransform and Prompts.NanoPromptsView.CompleteTransform require a catalogue item: the gallery only renders cards from `filteredData`, a sub-list of the catalogue.
- Setup.SetupView.FinishGenerateImages merges into the prize list as it stands when the answers arrive, like the source's functional update. Prizes removed in the meantime are simply not there.
- A result that arrives after the photo was changed or cleared is stored anyway, as in the source. The model does not flag this.
- The standard-mode commit happens in the 8-second reveal callback (components/DrawingView.tsx:104-124), not at spin start; `StartSpin` only records the pick.
- The rotation delta `targetBase - wheelRotation % 360` (components/DrawingView.tsx:93) is not normalised: it lies in (-450°, 270°). SpinMovesForward shows the wheel still moves forward, because the extra turns outweigh a negative delta.
- The drawing screen receives `onBack` (components/DrawingView.tsx:31) but never calls it: both of its back buttons (:248, :346) call `handleBackToList`, which only clears the selection and closes the dialog. So App.tsx:123, modelled by `Shell.App.HandleDrawBack`, cannot be reached from the drawing screen. Likewise `onFinish` is only called from the gift-exchange screen (:235), so a standard-mode session never reaches the results screen. The model keeps both shell handlers as the source defines them and does not model a navigation path to them.

## Findings

| source | as written | input that shows it | evidently intended | confidence | as-written member | corrected member |
|---|---|---|---|---|---|---|
| components/DrawingView.tsx:116 | `activePrizeId` is only ever set to `null` (lines 35 and 129). Nothing on the wheel screen selects a prize, so `activePrize` is always `undefined` and the reveal never records a winner or shrinks the pool | any standard-mode session, e.g. participants `["A","B"]`, one prize, any spin: after the reveal, `winners == []` and the pool is still `["A","B"]` | a prize is selected before each spin: the wheel screen's back button is labelled 返回獎項 ("back to prizes", :247-253), its heading shows `{activePrize?.name}` (:260), and `handleBackToList` clears the selection (:128-131), all of which presume a prize list from which one is picked. The reveal then records it with the drawn name and removes that name from the pool | high (read from the code, not executed) | Drawing.DrawOnceAsWritten | Drawing.DrawOnceCorrected |
