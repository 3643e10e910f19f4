# DocAnalyzer core in Dafny

DocAnalyzer analyses business documents such as tender proposals and
résumés. A user picks a document type and an AI model in a React page and
uploads a file. A Django endpoint queues a Celery task. The Celery task has ABBYY
Vantage extract the document's fields, then asks an LLM provider (Gemini or
OpenAI) for a structured analysis. The page polls the Celery task's status every
five seconds. It then shows the analysis and can export it as a PDF.

This project models that core and proves properties of it.

- **Front end**
  - `JobControl` is the state of the analyzer page
    (`FullAnalyzer.js`, with `Test.js` behaving the same): the submit
    handler, the polling effect, and its one interval timer. It is written
    twice:
    - as a pure step function over a `Ui` record, about which the lemmas
      speak;
    - as the class `Analyzer`, whose methods update the component's state
      in place and are proved to match the step function.
  - `ResultView` is the results area as a list of rendered elements:
    - the proposal cards;
    - the résumé cards;
    - the banners;
    - the differences between the two components.
  - `PdfLayout` is jsPDF's running cursor as the class `PdfWriter`
    (`addText`, the page break at 280, the spacing).
  - `PdfExport` is `downloadPdf` of both components. There is one writer
    method per section, each proved equal to a plan of text operations.
    Lemmas then state which headings, bullets and blocks end up in the file.
  - `Markdown` is the two uses of `replace(/\*\*/g, …)`.
  - `Js` covers the JavaScript semantics the components rely on:
    - truthiness;
    - `typeof`;
    - property reads and `?.`;
    - `toUpperCase`;
    - template-string conversion.
- **Back end**
  - `Views` covers the upload endpoint and the status endpoint
    (`api/views.py`).
  - `Permissions` is the Vault bearer-token check (`api/permissions.py`).
  - `AbbyyProvider` is the ABBYY client as the class `Provider`, which logs
    every request it sends. Its status loop is capped at thirty rounds.
  - `AbbyyParser` is `parse_abbyy_response`: nested loops that fill a dict,
    proved equal to a functional definition.
  - `GeminiParser` is `parse_gemini_response`.
  - `Tasks` is `process_document_analysis` and `get_llm_provider`
    (`api/tasks.py`), including the FAILURE states it records. It is written
    twice:
    - as the class `AnalysisTask`, which records each `update_state`;
    - as a function it is proved equal to.
  - `Py` covers the Python semantics the back end relies on:
    - dict and list subscription with their KeyError, IndexError and
      TypeError;
    - `dict.get`;
    - iteration;
    - `in`;
    - `str`;
    - `strip`;
    - `split`.
  - `Json` is the JSON value shared by both sides.

Several things are inputs or function parameters, so every property holds
for any behaviour of them:
- every HTTP reply;
- Vault's answers;
- `json.loads` and `JSON.stringify`;
- `str` of a dict;
- base64;
- the prompt template;
- the LLM's answer;
- jsPDF's `splitTextToSize` and the page width.

The ABBYY client and the Celery task return the list of requests they sent, so
the number of status queries is itself a proved quantity.

Where the two front-end components differ, the model keeps both.
`PdfExport.Variant` is `Full` (FullAnalyzer.js) or `Trial` (Test.js). Both
components' quirks are modelled as written:
- FullAnalyzer.js prints the bullet as the three characters `‚Ä¢`, where
  Test.js prints `•`.
- A missing budget makes both components' result cards throw.
- A numeric cost is silently dropped from the PDF.
- A guard such as `{analysis.proposal && (...)}` shows a bare "0" when the
  guarded value is the number 0, as React renders it.

## Model

| member | source | states |
|---|---|---|
| Json.NatText | gemini-frontend/src/components/FullAnalyzer.js:209 | the decimal text of a natural number is non-empty and all digits, and a positive number's text does not start with '0' |
| Json.IntText | gemini-frontend/src/components/FullAnalyzer.js:209 | the text of an integer starts with '-' exactly when it is negative |
| Json.NatTextRoundTrip | gemini-frontend/src/components/FullAnalyzer.js:209 | reading the digits of a rendered natural number gives the number back |
| Js.Truthy | gemini-frontend/src/components/FullAnalyzer.js:262-320 | defines JavaScript truthiness on the modelled values: undefined, null, false, 0 and "" are falsy, everything else, every array and object included, is truthy |
| Js.Text | gemini-frontend/src/components/FullAnalyzer.js:152-154 | defines `${v}` in a template literal: strings as themselves, numbers in decimal, null and undefined as their names, arrays joined with commas, objects as "[object Object]" |
| Js.TypeOf | gemini-frontend/src/components/FullAnalyzer.js:149-151 | `typeof` is "string" exactly for strings, and "object" exactly for null, arrays and objects |
| Js.Get | gemini-frontend/src/components/FullAnalyzer.js:141-187 | a property read that is not undefined comes from an own key of an object |
| Js.GetOpt | gemini-frontend/src/components/FullAnalyzer.js:100 | optional chaining on null or undefined gives undefined instead of throwing |
| Js.UpperChar | gemini-frontend/src/components/FullAnalyzer.js:93 | an upper-cased character is never a lower-case ASCII letter |
| Js.Upper | gemini-frontend/src/components/FullAnalyzer.js:93 | `toUpperCase` keeps the length and upper-cases each character on its own |
| Js.UpperIdempotent | gemini-frontend/src/components/FullAnalyzer.js:93-98 | upper-casing twice is upper-casing once |
| Py.Truthy | api/utils.py:15 | defines `bool(v)`: None, False, 0 and empty strings, lists and dicts are falsy |
| Py.In | api/utils.py:48-50 | defines `needle in v`: a dict tests its keys, a list its items, a string its substrings, and anything else raises TypeError |
| Py.Strip | api/utils.py:51 | defines `str.strip()` as whitespace removed from the start and then from the end; its properties are the Py.Strip* lemmas below |
| Py.Str | api/utils.py:44 | `str` of a string is the string itself |
| Py.Sub | api/utils.py:11 | a successful subscription of a dict used a string key present in it and gives its value; only dicts, lists and strings can be subscripted |
| Py.Get | api/utils.py:13-14 | `get` succeeds exactly on dicts and gives the stored value or the default |
| Py.Iterate | api/utils.py:12 | iteration succeeds exactly on lists, strings and dicts; a list yields its items in order, a string or a dict yields strings |
| Py.StripStart | api/utils.py:51 | the result is a suffix of the input that does not start with whitespace, unless it is empty |
| Py.StripEnd | api/utils.py:51 | the result is a prefix of the input that does not end with whitespace, unless it is empty |
| Py.StripStartAllSpace | api/utils.py:51 | stripping the front gives "" exactly when the text is all whitespace |
| Py.StripProperties | api/utils.py:51-53 | `strip` gives "" exactly for all-whitespace text; otherwise the result neither starts nor ends with whitespace |
| Py.Split | api/permissions.py:15 | `split(sep)` always gives at least one piece |
| Py.SplitAfter | api/permissions.py:15 | splitting a separator-free piece, a separator and a rest gives that piece followed by the split of the rest |
| Py.SplitWhole | api/permissions.py:15 | a text without the separator splits into itself alone |
| Markdown.ReplaceBold | gemini-frontend/src/components/FullAnalyzer.js:300 | defines the global replacement of "**", matched left to right without overlap, by a replacement text |
| Markdown.StripBold | gemini-frontend/src/components/FullAnalyzer.js:169 | defines the removal of every "**", as the PDF export applies it to each step |
| Markdown.ReplaceBoldNoDoubleStar | gemini-frontend/src/components/FullAnalyzer.js:300 | replacing every "**" by a replacement without '*' leaves no "**" |
| Markdown.StripBoldNoDoubleStar | gemini-frontend/src/components/FullAnalyzer.js:169 | removing every "**" leaves no "**" |
| Markdown.ReplaceBoldKeepsClean | gemini-frontend/src/components/FullAnalyzer.js:300 | a text without "**" is left unchanged |
| Markdown.StripBoldIdempotent | gemini-frontend/src/components/FullAnalyzer.js:169 | removing the markers twice is removing them once |
| Markdown.StripBoldKeepsText | gemini-frontend/src/components/FullAnalyzer.js:169 | removing the markers keeps every character other than '*', in order |
| PdfLayout.Place | gemini-frontend/src/components/FullAnalyzer.js:125-136 | defines one `addText` call or `yPosition` increment: a value that is not a non-empty string is skipped; a block that would pass the bottom line starts a new page at the top; the block is placed at the margin plus its indent, and the cursor moves down by its height plus 4 |
| PdfLayout.Layout | gemini-frontend/src/components/FullAnalyzer.js:125-136 | defines a run of `addText` calls and increments applied in order; the PdfLayout lemmas below state what it keeps |
| PdfLayout.Height | gemini-frontend/src/components/FullAnalyzer.js:130 | a block's height is never negative, and is zero exactly when it has no lines or the font size is zero |
| PdfLayout.LayoutAppend | gemini-frontend/src/components/FullAnalyzer.js:125-136 | laying out two runs of text in turn is laying out their concatenation |
| PdfLayout.PrintedAppend | gemini-frontend/src/components/FullAnalyzer.js:126 | the printable texts of a concatenation are those of each part, in order |
| PdfLayout.LayoutPrints | gemini-frontend/src/components/FullAnalyzer.js:125-136 | the blocks on the pages are exactly the non-empty string texts, in order, each at the margin plus its indent; non-strings and empty strings leave no trace |
| PdfLayout.IndentedAppend | gemini-frontend/src/components/FullAnalyzer.js:134 | the indented blocks of a concatenation are those of each part, in order |
| PdfLayout.PlaceWellPlaced | gemini-frontend/src/components/FullAnalyzer.js:130-135 | placing one block keeps the cursor consistent: the block fits below 280 or starts a new page at the top, and the cursor moves past it |
| PdfLayout.LayoutWellPlaced | gemini-frontend/src/components/FullAnalyzer.js:130-135 | every block of a document fits its page or starts a fresh one, and each follows the previous one |
| PdfLayout.TallFirstBlock | gemini-frontend/src/components/FullAnalyzer.js:130-133 | a block too tall for the space left opens page 2 and is placed at the top margin |
| PdfLayout.PdfWriter.constructor | gemini-frontend/src/components/FullAnalyzer.js:119-120 | a new document has one page, the cursor at 20 and nothing written |
| PdfLayout.PdfWriter.AddText | gemini-frontend/src/components/FullAnalyzer.js:125-136 | `addText` changes the document and cursor exactly as the layout function places that text |
| PdfLayout.PdfWriter.Skip | gemini-frontend/src/components/FullAnalyzer.js:143 | `yPosition += d` moves only the cursor |
| PdfExport.SolutionOps | gemini-frontend/src/components/FullAnalyzer.js:160-175 | defines the Proposed Solution section: present when the field is truthy; a string as one paragraph, an object as methodology, one bullet per step and technology; no export when a step is not a string |
| PdfExport.BudgetText | gemini-frontend/src/components/FullAnalyzer.js:180 | defines the budget line: a string budget as is, else `budget.cost` when truthy, else "Total: $" followed by the cost's text |
| PdfExport.ProposalOps | gemini-frontend/src/components/FullAnalyzer.js:139-187 | defines the proposal export: title, introduction, then the analysis, solution, budget and conclusion sections, each when its field is truthy |
| PdfExport.ResumeOps | gemini-frontend/src/components/FullAnalyzer.js:191-210 | defines the resume export: report title, summary, one bullet per strength and per weakness, and the score; no export when either list is not an array |
| PdfExport.FullPlan | gemini-frontend/src/components/FullAnalyzer.js:116-212 | defines which file FullAnalyzer.js exports: the proposal when `proposal` is truthy, else the resume analysis when `analysis` is truthy, else nothing |
| PdfExport.TrialPlan | gemini-frontend/src/components/Test.js:118-195 | defines what Test.js exports: the proposal file when the result has a truthy `proposal`, else nothing |
| PdfExport.Bullet | gemini-frontend/src/components/FullAnalyzer.js:169 | the bullet of either component is non-empty and holds no '*' |
| PdfExport.Items | gemini-frontend/src/components/FullAnalyzer.js:201 | one 11-point item at indent 5 per text, in order |
| PdfExport.StepTexts | gemini-frontend/src/components/FullAnalyzer.js:166-170 | one text per step, in order, each the bullet, a space and the step without markers |
| PdfExport.ListTexts | gemini-frontend/src/components/FullAnalyzer.js:201-205 | one bulleted text per list item, in order |
| PdfExport.TitleHeadings | gemini-frontend/src/components/FullAnalyzer.js:142-144 | the title block adds no section heading |
| PdfExport.AnalysisHeadings | gemini-frontend/src/components/FullAnalyzer.js:147-157 | the analysis section has the "Analysis" heading exactly when the field is truthy |
| PdfExport.SolutionHeadings | gemini-frontend/src/components/FullAnalyzer.js:160-175 | the solution section has the "Proposed Solution" heading exactly when the field is truthy |
| PdfExport.BudgetHeadings | gemini-frontend/src/components/FullAnalyzer.js:178-183 | the budget section has the "Budget" heading exactly when the field is truthy |
| PdfExport.ConclusionHeadings | gemini-frontend/src/components/FullAnalyzer.js:184-187 | the conclusion section has the "Conclusion" heading exactly when the field is truthy |
| PdfExport.ProposalHeadings | gemini-frontend/src/components/FullAnalyzer.js:139-189 | a proposal export has exactly the section headings of its truthy fields, in the order Analysis, Proposed Solution, Budget, Conclusion; both components agree |
| PdfExport.ProposalThrows | gemini-frontend/src/components/FullAnalyzer.js:164-170 | the proposal export throws exactly when the solution is an object whose `steps` array holds a non-string |
| PdfExport.SolutionBullets | gemini-frontend/src/components/FullAnalyzer.js:160-175 | the only indented blocks of the solution section are its step texts |
| PdfExport.ProposalBullets | gemini-frontend/src/components/FullAnalyzer.js:139-189 | the indented blocks of a proposal export are its steps, one per step, in order, each bulleted and without "**"; no other block is indented |
| PdfExport.StepTextHasNoMarker | gemini-frontend/src/components/FullAnalyzer.js:169 | no exported step holds "**" |
| PdfExport.StringSolutionIsOneBlock | gemini-frontend/src/components/FullAnalyzer.js:162-163 | a string solution is written as one plain block with no bullets |
| PdfExport.NumericCostDropped | gemini-frontend/src/components/FullAnalyzer.js:180-181 | a budget whose cost is a truthy number exports the Budget heading and no budget text |
| PdfExport.MissingCostText | gemini-frontend/src/components/FullAnalyzer.js:180 | a budget object without a cost exports "Total: $undefined" |
| PdfExport.IntroductionGap | gemini-frontend/src/components/Test.js:146-149 | Test.js's title ops are FullAnalyzer.js's plus a 10-unit gap; one export throws exactly when the other does; otherwise Test.js's proposal is FullAnalyzer.js's with that gap after the introduction and every later op passed through `Rebullet`, which swaps the bullet of each solution step |
| PdfExport.Rebullet | gemini-frontend/src/components/Test.js:174 | defines the one difference in a step's op: an indented text that starts with FullAnalyzer.js's bullet and a space gets Test.js's bullet instead; every op that is not an indented text is unchanged |
| PdfExport.SolutionRebulleted | gemini-frontend/src/components/Test.js:165-180 | when FullAnalyzer.js's solution section exports, so does Test.js's, and it is FullAnalyzer.js's with every op passed through `Rebullet` |
| PdfExport.PlainSections | gemini-frontend/src/components/FullAnalyzer.js:146-187 | the analysis, budget and conclusion sections hold no indented item |
| PdfExport.ResumeItems | gemini-frontend/src/components/FullAnalyzer.js:191-211 | the indented blocks of a résumé export are the strengths and then the weaknesses, one per item, in order |
| PdfExport.ResumeEndsWithScore | gemini-frontend/src/components/FullAnalyzer.js:208-209 | the last block of a résumé export is the score followed by " / 100" |
| PdfExport.FullDispatch | gemini-frontend/src/components/FullAnalyzer.js:117-212 | FullAnalyzer.js exports the proposal whenever one is present and the résumé only otherwise; with neither it saves nothing |
| PdfExport.TrialDispatch | gemini-frontend/src/components/Test.js:118-195 | Test.js exports only proposals, under the same file name and with the same headings as FullAnalyzer.js |
| PdfExport.SavedProposalBullets | gemini-frontend/src/components/FullAnalyzer.js:116-213 | in a saved proposal the indented blocks on the pages are the steps in order, and every block is well placed |
| PdfExport.Emit | gemini-frontend/src/components/FullAnalyzer.js:125-136 | one text operation changes the writer as the plan says |
| PdfExport.WriteTitle | gemini-frontend/src/components/FullAnalyzer.js:142-144 | writes the title part of the plan |
| PdfExport.WriteAnalysis | gemini-frontend/src/components/FullAnalyzer.js:147-157 | writes the analysis section of the plan |
| PdfExport.WriteSteps | gemini-frontend/src/components/FullAnalyzer.js:166-171 | the `forEach` over the steps writes one bulleted item per step in order, or throws at the first non-string step |
| PdfExport.WriteSolutionBody | gemini-frontend/src/components/FullAnalyzer.js:162-173 | writes the string or object body of the solution section, or throws as the plan does |
| PdfExport.WriteSolution | gemini-frontend/src/components/FullAnalyzer.js:160-175 | writes the solution section of the plan |
| PdfExport.WriteBudget | gemini-frontend/src/components/FullAnalyzer.js:178-183 | writes the budget section of the plan |
| PdfExport.WriteConclusion | gemini-frontend/src/components/FullAnalyzer.js:184-187 | writes the conclusion section of the plan |
| PdfExport.WriteProposal | gemini-frontend/src/components/FullAnalyzer.js:139-189 | writes the whole proposal plan, or reports the throw |
| PdfExport.WriteList | gemini-frontend/src/components/FullAnalyzer.js:200-205 | writes a list's bulleted items in order, or throws when it is not an array |
| PdfExport.WriteResumeHead | gemini-frontend/src/components/FullAnalyzer.js:194-200 | writes the report title and the summary |
| PdfExport.WriteResumeTail | gemini-frontend/src/components/FullAnalyzer.js:206-209 | writes the score section |
| PdfExport.WriteResume | gemini-frontend/src/components/FullAnalyzer.js:191-211 | writes the whole résumé plan |
| PdfExport.DownloadFull | gemini-frontend/src/components/FullAnalyzer.js:116-213 | FullAnalyzer.js's `downloadPdf` produces exactly the rendering of its plan: the saved file and its pages, nothing, or the throw |
| PdfExport.DownloadTrial | gemini-frontend/src/components/Test.js:118-195 | Test.js's `downloadPdf` produces exactly the rendering of its plan |
| ResultView.Guard | gemini-frontend/src/components/FullAnalyzer.js:262-320 | a `{v && (...)}` child shows the guarded piece exactly when `v` is truthy; a falsy `v` shows nothing, except the number 0, which shows as the text "0" |
| ResultView.TitleCard | gemini-frontend/src/components/FullAnalyzer.js:267-270 | defines the title card: FullAnalyzer.js always renders the title heading and the introduction; Test.js (lines 243-246) renders each only when it is truthy |
| ResultView.AnalysisCard | gemini-frontend/src/components/FullAnalyzer.js:273-286 | defines the Analysis card, guarded by the field: a string as one paragraph, otherwise the three labelled fields |
| ResultView.SolutionCard | gemini-frontend/src/components/FullAnalyzer.js:289-308 | defines the Proposed Solution card, guarded by the field: a string as one paragraph, otherwise methodology, the step list when `steps` is an array, and technology |
| ResultView.BudgetCard | gemini-frontend/src/components/FullAnalyzer.js:310-314 | defines the Budget & Conclusion card: always rendered, and it throws when `budget` is null or undefined |
| ResultView.ProposalCards | gemini-frontend/src/components/FullAnalyzer.js:266-316 | defines the proposal cards in page order: title, analysis, solution, budget |
| ResultView.ResumeCards | gemini-frontend/src/components/FullAnalyzer.js:320-346 | defines the resume cards; rendering throws when `strengths` or `weaknesses` is not an array or holds a plain object |
| ResultView.FullView | gemini-frontend/src/components/FullAnalyzer.js:262-352 | defines the FullAnalyzer.js result container, guarded by the result: the proposal cards and the resume cards, each guarded by its key, then the download button |
| ResultView.TrialView | gemini-frontend/src/components/Test.js:241-293 | defines the Test.js result container, guarded by the result and then by its `proposal`: the proposal cards and the download button |
| ResultView.Screen | gemini-frontend/src/components/FullAnalyzer.js:258-262 | defines the display below the form: the loading banner while loading, the error banner for a non-empty error, then the result |
| ResultView.SubmitLabel | gemini-frontend/src/components/FullAnalyzer.js:253 | defines the submit button's label: the loading message while loading, otherwise "Analyze Document" |
| ResultView.StepItems | gemini-frontend/src/components/FullAnalyzer.js:297-302 | the list renders exactly when every step is a string, with one item per step |
| ResultView.BothBlocksShown | gemini-frontend/src/components/FullAnalyzer.js:262-350 | a result with both a proposal and a résumé analysis shows both sets of cards, while its PDF holds the proposal only |
| ResultView.MissingBudgetBreaksDisplay | gemini-frontend/src/components/FullAnalyzer.js:310-314 | a proposal without a budget cannot be displayed by either component, yet its PDF just leaves the Budget section out |
| ResultView.StepsOnScreen | gemini-frontend/src/components/FullAnalyzer.js:297-302 | each step of an object solution is one list item, in order, with no "**" left |
| ResultView.CleanStepUnchanged | gemini-frontend/src/components/FullAnalyzer.js:300 | a step without markers shows as written on screen and after the bullet in the PDF |
| ResultView.MissingTitle | gemini-frontend/src/components/Test.js:243-246 | Test.js omits the title heading of a proposal without a title, where FullAnalyzer.js shows an empty one |
| ResultView.TrialNeedsProposal | gemini-frontend/src/components/Test.js:241 | for a result without a truthy `proposal`, Test.js shows no card and no button: nothing at all, or a bare "0" when the result or its `proposal` is the number 0 |
| ResultView.ZeroProposalShown | gemini-frontend/src/components/FullAnalyzer.js:262-265 | a `proposal` that is the number 0 shows as the text "0": alone in Test.js, and before the download button in FullAnalyzer.js |
| ResultView.ResumeListsMustBeArrays | gemini-frontend/src/components/FullAnalyzer.js:326-333 | a résumé whose strengths are not a list cannot be displayed |
| ResultView.ScoreShown | gemini-frontend/src/components/FullAnalyzer.js:344 | an example: a score of 72 shows as "72 / 100" |
| ResultView.ErrorBesideResult | gemini-frontend/src/components/FullAnalyzer.js:258-262 | after a successful job, a submit without a file shows the error banner above the old result |
| JobControl.Inv | gemini-frontend/src/components/FullAnalyzer.js:82-113 | defines the timer invariant: every live timer is the one the ref holds and polls the current task with the current token, and a timer is live exactly when `taskId` is truthy |
| JobControl.Commit | gemini-frontend/src/components/FullAnalyzer.js:82-113 | defines React's commit: when `taskId` or `vaultToken` changed, the previous effect's cleanup clears the timer and the effect runs again |
| JobControl.SubmitStart | gemini-frontend/src/components/FullAnalyzer.js:47-63 | defines the synchronous part of `handleSubmit`: the no-file error, or the loading state, the cleared error, result and `taskId`, and the form it posts |
| JobControl.SubmitSettle | gemini-frontend/src/components/FullAnalyzer.js:65-78 | defines the rest of `handleSubmit`: a thrown fetch or a non-ok answer shows an error and ends loading; an ok answer sets the `taskId` |
| JobControl.PollTick | gemini-frontend/src/components/FullAnalyzer.js:87-111 | defines one firing of a timer together with its status reply: a cleared timer does nothing; SUCCESS, FAILURE in any case and a failed query end polling; any other status changes nothing |
| JobControl.Step | gemini-frontend/src/components/FullAnalyzer.js:41-113 | defines the effect of one event: a change handler, a new token, a press of the submit button (nothing while it is disabled), the settling of a suspended submission, or a timer firing |
| JobControl.CommitInv | gemini-frontend/src/components/FullAnalyzer.js:82-113 | re-running the polling effect keeps the timer invariant |
| JobControl.SettleInv | gemini-frontend/src/components/FullAnalyzer.js:65-78 | settling the upload request keeps the timer invariant |
| JobControl.TerminalInv | gemini-frontend/src/components/FullAnalyzer.js:93-110 | a terminal poll outcome keeps the timer invariant |
| JobControl.TickInv | gemini-frontend/src/components/FullAnalyzer.js:87-111 | an interval tick keeps the timer invariant |
| JobControl.StepInv | gemini-frontend/src/components/FullAnalyzer.js:41-113 | every single event keeps the timer invariant |
| JobControl.RunInv | gemini-frontend/src/components/FullAnalyzer.js:41-113 | every sequence of events from the initial state keeps the timer invariant |
| JobControl.AtMostOneInterval | gemini-frontend/src/components/FullAnalyzer.js:82-113 | in every reachable state at most one interval is live, and one is live exactly when a task id is set |
| JobControl.StepFreshIds | gemini-frontend/src/components/FullAnalyzer.js:87 | an event never lowers the next interval id, and every interval live after it was live before or has a fresh id |
| JobControl.CommitFreshIds | gemini-frontend/src/components/FullAnalyzer.js:87 | re-running the effect never lowers the next interval id, and any interval it starts has a fresh id |
| JobControl.TerminalFreshIds | gemini-frontend/src/components/FullAnalyzer.js:94-109 | a terminal poll outcome never lowers the next interval id and leaves only old or fresh intervals |
| JobControl.ClearedStaysCleared | gemini-frontend/src/components/FullAnalyzer.js:84-112 | in the model a cleared timer id is never live again, whatever events follow, so it never applies another status reply |
| JobControl.ResubmitStopsOldPolling | gemini-frontend/src/components/FullAnalyzer.js:252 | from the page's first render, whatever events follow: while a job is polled the page is loading, so the disabled submit button changes nothing and the polling timer stays live |
| JobControl.Phase | gemini-frontend/src/components/FullAnalyzer.js:47-113 | defines the phases of a job: a suspended submission has the page loading with no `taskId`, and a polled `taskId` has the page loading |
| JobControl.StepPhase | gemini-frontend/src/components/FullAnalyzer.js:41-113 | every event keeps the phases of a job, given the timer invariant |
| JobControl.RunPhase | gemini-frontend/src/components/FullAnalyzer.js:41-113 | any sequence of events keeps both the timer invariant and the phases of a job |
| JobControl.SubmitWithoutFile | gemini-frontend/src/components/FullAnalyzer.js:49-52 | submitting without a file only sets the error message and sends nothing |
| JobControl.SubmitResetsState | gemini-frontend/src/components/FullAnalyzer.js:53-63 | submitting with a file sets loading and the upload message, clears error, result and task id, and sends the form |
| JobControl.SubmitRejected | gemini-frontend/src/components/FullAnalyzer.js:71-77 | a failed upload shows the server's error text, or the default text, and stops loading |
| JobControl.SubmitAcceptedStartsPolling | gemini-frontend/src/components/FullAnalyzer.js:73-87 | an accepted upload stores the `taskId` and the effect starts exactly one interval for it |
| JobControl.SubmitAcceptedWithoutTaskId | gemini-frontend/src/components/FullAnalyzer.js:73-86 | an accepted reply without a task id leaves the page loading with no interval |
| JobControl.NoSubmitWhileLoading | gemini-frontend/src/components/FullAnalyzer.js:252 | pressing submit while loading, or with no truthy document type or no truthy model, changes nothing; otherwise the press runs `handleSubmit` |
| JobControl.NoFileKeepsPreviousResult | gemini-frontend/src/components/FullAnalyzer.js:49-52 | a submit without a file keeps the previous result |
| JobControl.LiveIsRef | gemini-frontend/src/components/FullAnalyzer.js:87 | the live interval is the one the ref holds |
| JobControl.TickSuccess | gemini-frontend/src/components/FullAnalyzer.js:93-97 | a SUCCESS reply stores the result, stops loading, clears the `taskId` and leaves no interval |
| JobControl.TickFailure | gemini-frontend/src/components/FullAnalyzer.js:98-103 | a FAILURE reply shows "Analysis failed: " with `exc_message`, or the serialised error when that is falsy, and stops polling |
| JobControl.TickPending | gemini-frontend/src/components/FullAnalyzer.js:93-104 | any other status changes nothing |
| JobControl.Pending | gemini-frontend/src/components/FullAnalyzer.js:93-104 | defines a reply that keeps polling: an object whose status is falsy, or a string other than SUCCESS and FAILURE in any letter case |
| JobControl.Succeeded | gemini-frontend/src/components/FullAnalyzer.js:93 | defines a reply that ends the job with its result: an object whose status is a string reading SUCCESS in any letter case |
| JobControl.Ticks | gemini-frontend/src/components/FullAnalyzer.js:87-89 | one firing of the same timer per reply, in order |
| JobControl.PendingTicksIdle | gemini-frontend/src/components/FullAnalyzer.js:93-104 | any number of pending replies, in a row, leave the whole state unchanged |
| JobControl.TickQueryFailed | gemini-frontend/src/components/FullAnalyzer.js:105-110 | a status query that throws shows the polling-failed message and stops polling |
| JobControl.StatusCaseInsensitive | gemini-frontend/src/components/FullAnalyzer.js:93-98 | two statuses equal up to letter case lead to the same state |
| JobControl.SuccessSpellings | gemini-frontend/src/components/FullAnalyzer.js:93 | an example: "success", "Success" and "SUCCESS" all read as success |
| JobControl.PollUntilSuccess | gemini-frontend/src/components/FullAnalyzer.js:47-113 | for any token, truthy selections, file and upload reply with a truthy task id, and any number of pending replies followed by a SUCCESS reply: the final state is the initial one with the selections, the reply's `result` as analysis, the submitted message, no loading, no error, no task id and no live timer |
| JobControl.UploadAccepted | gemini-frontend/src/components/FullAnalyzer.js:53-74 | for any token, truthy selections, file and upload reply with a truthy task id, the five events from the initial page give exactly the loading state with the submitted message, that task id and timer 0 polling it with the token |
| JobControl.UploadPhase | gemini-frontend/src/components/FullAnalyzer.js:53-74 | from any reachable state where submit is enabled and a file is chosen, a press and an upload reply with a truthy task id give exactly: loading, the submitted message, no error, no analysis, that task id and one new timer polling it with the current token |
| JobControl.SelectionsMade | gemini-frontend/src/components/FullAnalyzer.js:222-248 | from any state, choosing a type, a model and a file stores them and changes nothing else |
| JobControl.PollingPhase | gemini-frontend/src/components/FullAnalyzer.js:87-97 | while a timer is live, any number of pending replies followed by a SUCCESS reply store its `result`, end loading and clear the task id and the timer; nothing else changes |
| JobControl.Analyzer.constructor | gemini-frontend/src/components/FullAnalyzer.js:7-18 | the initial state of the component, which meets the invariant |
| JobControl.Analyzer.HandleFileChange | gemini-frontend/src/components/FullAnalyzer.js:42-44 | stores the chosen file and changes nothing else |
| JobControl.Analyzer.HandleContextChange | gemini-frontend/src/components/FullAnalyzer.js:248 | stores the context text and changes nothing else |
| JobControl.Analyzer.HandleDocTypeChange | gemini-frontend/src/components/FullAnalyzer.js:222 | stores the document type and changes nothing else |
| JobControl.Analyzer.HandleModelChange | gemini-frontend/src/components/FullAnalyzer.js:230 | stores the model and changes nothing else |
| JobControl.Analyzer.ClearInterval | gemini-frontend/src/components/FullAnalyzer.js:84 | removes the given interval and nothing else |
| JobControl.Analyzer.RestartEffect | gemini-frontend/src/components/FullAnalyzer.js:83-87 | clears the live interval, and starts a fresh one exactly when a task id is set |
| JobControl.Analyzer.CommitEffect | gemini-frontend/src/components/FullAnalyzer.js:82-113 | the effect's cleanup and re-run as the step function commits them, keeping the invariant |
| JobControl.Analyzer.HandleTokenChange | gemini-frontend/src/components/FullAnalyzer.js:113 | a new token re-runs the effect |
| JobControl.Analyzer.HandleSubmit | gemini-frontend/src/components/FullAnalyzer.js:47-63 | the submit handler up to the request, as the step function states, and whether a request is sent |
| JobControl.Analyzer.SubmitSettled | gemini-frontend/src/components/FullAnalyzer.js:65-78 | the upload's outcome changes the state as the step function states |
| JobControl.Analyzer.SubmitFailed | gemini-frontend/src/components/FullAnalyzer.js:72-77 | a failed upload sets the error and stops loading |
| JobControl.Analyzer.SubmitAccepted | gemini-frontend/src/components/FullAnalyzer.js:73-74 | an accepted upload sets the message and the `taskId` |
| JobControl.Analyzer.EndPolling | gemini-frontend/src/components/FullAnalyzer.js:94-97 | a terminal outcome stops loading and clears the `taskId`, and the effect then clears the live interval |
| JobControl.Analyzer.IntervalFired | gemini-frontend/src/components/FullAnalyzer.js:87-111 | one interval tick changes the state as the step function states, keeping the invariant |
| AbbyyParser.Columns | api/utils.py:23-27 | defines the loop over a row's columns: each named column with a non-empty list stores its first value under its name; the first exception stops the loop |
| AbbyyParser.RowData | api/utils.py:21-27 | defines the dict one table row yields, reading `row.get('Value', {}).get('Fields', [])` |
| AbbyyParser.Table | api/utils.py:18-29 | defines the `techSpecs` table: the rows whose dict is non-empty, in order; the first exception stops it |
| AbbyyParser.FieldStep | api/utils.py:13-31 | defines one iteration over the fields: unnamed or empty fields are skipped, `techSpecs` becomes a table, any other field stores its first value |
| AbbyyParser.Fields | api/utils.py:12-31 | defines the loop over all the fields; the first exception stops it |
| AbbyyParser.Store | api/utils.py:27 | storing succeeds exactly for a hashable key and then sets that key |
| AbbyyParser.Parsed | api/utils.py:4-35 | the parser raises only exceptions it does not catch |
| AbbyyParser.ReadRow | api/utils.py:21-27 | the column loop builds the row dict the functional definition gives |
| AbbyyParser.ReadTable | api/utils.py:18-29 | the row loop builds the table the functional definition gives |
| AbbyyParser.ReadFields | api/utils.py:12-31 | the field loop builds the dict the functional definition gives |
| AbbyyParser.ParseAbbyyResponse | api/utils.py:4-35 | `parse_abbyy_response` returns or raises what the functional definition gives |
| AbbyyParser.FieldStepKeys | api/utils.py:13-31 | one field adds its name as a key, or nothing when it is skipped |
| AbbyyParser.FieldsKeys | api/utils.py:12-16 | the cleaned dict has exactly one key per name of a field that is not skipped |
| AbbyyParser.FieldsKeep | api/utils.py:12-31 | an entry that no later field names is left as it was |
| AbbyyParser.LastFieldWins | api/utils.py:31 | a plain field maps its name to its first list item's Value, and the last field with a name wins |
| AbbyyParser.LastTableWins | api/utils.py:18-29 | the last `techSpecs` field becomes the table of its rows |
| AbbyyParser.ColumnStepKeys | api/utils.py:23-27 | one column adds its name with its first Value, or nothing when it is skipped |
| AbbyyParser.ColumnsKeys | api/utils.py:23-27 | a row's dict has one key per column that is not skipped |
| AbbyyParser.TableRowsNonEmpty | api/utils.py:28-29 | only non-empty rows enter the table, after the rows already collected |
| AbbyyParser.TableAppend | api/utils.py:20-29 | rows are taken in order |
| AbbyyParser.ParsedKeys | api/utils.py:9-35 | the result is the error dict or a dict keyed by exactly the names of the fields not skipped |
| AbbyyParser.ErrorDiscardsPartial | api/utils.py:32-34 | a caught error drops everything parsed so far, however many good fields came before |
| AbbyyParser.NonDictFieldEscapes | api/utils.py:13 | a field that is not a dict raises AttributeError, which escapes the parser |
| AbbyyParser.MissingTransaction | api/utils.py:11 | a reply without `Transaction` yields the error dict |
| GeminiParser.StrippedText | api/utils.py:51 | defines `part['text'].strip()`: a KeyError without the key, an AttributeError for a value that is not a string |
| GeminiParser.PartValue | api/utils.py:48-56 | defines the branch on the first part: its `functionCall` arguments, else its stripped text parsed as JSON (an empty text raises ValueError), else a ValueError naming the content |
| GeminiParser.ParseGemini | api/utils.py:37-58 | `parse_gemini_response` never lets a KeyError or IndexError escape |
| GeminiParser.OnePart | api/utils.py:45-56 | a reply with one candidate and one part is decided by that part |
| GeminiParser.Blocked | api/utils.py:42-44 | a reply without candidates raises ValueError naming the block reason, or "Unknown" |
| GeminiParser.FunctionCallWins | api/utils.py:48-49 | a `functionCall` part returns its `args` unchanged, whatever text it also has |
| GeminiParser.TextStripped | api/utils.py:50-54 | all-whitespace text is refused; other text is decoded from its stripped form, which neither starts nor ends with whitespace |
| GeminiParser.TextPart | api/utils.py:50-54 | a text part gives its stripped text, refused when empty and decoded otherwise |
| GeminiParser.NeitherKey | api/utils.py:55-56 | a part with neither key raises ValueError carrying the content |
| GeminiParser.MissingParts | api/utils.py:57-58 | content without parts is reported as a structure error with the KeyError's text |
| GeminiParser.EmptyParts | api/utils.py:57-58 | an empty list of parts is reported with the IndexError's text |
| GeminiParser.OkOnlyFromCallOrText | api/utils.py:45-54 | a value comes back only from a function call's `args` or from decoding non-blank text |
| Views.Post | api/views.py:38-60 | the upload answers 202 exactly when a task is queued; otherwise it answers 400 with the missing-fields error |
| Views.TaskStatus | api/views.py:63-77 | the status endpoint always answers 200 with the Celery task's state, and uses the error form exactly for FAILURE; the error is a dict exactly when a dict was stored |
| Views.Rendered | api/views.py:70-77 | the reply is an object with `status` and either `error` or `result` |
| Views.PostRefused | api/views.py:45-46 | an upload is refused exactly when the file, the document type or the model is missing or empty |
| Views.PostAccepted | api/views.py:40-60 | a complete upload answers 202 with the `task_id` and queues the form's fields, the context defaulting to empty |
| Views.FailureError | api/views.py:70-73 | a stored meta dict is reported as it is, and a stored exception as its text |
| Views.SuccessReachesScreen | api/views.py:74-77 | a task's SUCCESS reply puts its result on the screen at the next tick and stops polling |
| Views.RaisedFailureShownSerialised | api/views.py:70-73 | when the exception itself was stored, the page finds no `exc_message` and shows the serialised string |
| Permissions.TokenOf | api/permissions.py:15 | the token holds no space |
| Permissions.SplitPieces | api/permissions.py:15 | no piece of a split holds the separator |
| Permissions.HasPermission | api/permissions.py:10-35 | Vault is asked exactly when the header starts with "Bearer " and a non-empty token follows, about that token only; access is granted exactly when Vault accepts it |
| Permissions.TokenIsSecondPiece | api/permissions.py:15 | the token is the text between "Bearer " and the next space |
| Permissions.DoubleSpaceRefused | api/permissions.py:15-17 | "Bearer" followed by two spaces is refused without asking Vault |
| Permissions.LowerCaseRefused | api/permissions.py:12-13 | the prefix is case-sensitive |
| Permissions.LookupErrorsRefuse | api/permissions.py:19-35 | a token Vault rejects, or a failing lookup, is refused rather than raised |
| AbbyyProvider.AccessToken | api/abbyy_provider.py:15-45 | defines `get_access_token`: the Vault settings and both secrets are read first, missing credentials raise ValueError before any request, then one POST to the auth URL gives `access_token` |
| AbbyyProvider.CreateTransaction | api/abbyy_provider.py:47-53 | defines `create_transaction`: one POST to the transactions URL, whose reply gives `transactionId` |
| AbbyyProvider.FileIdOf | api/abbyy_provider.py:76 | defines the `fileId` of the first result file of the first document, with the exception each missing piece raises |
| AbbyyProvider.Settle | api/abbyy_provider.py:75-82 | a status reply settles nothing exactly when it is a dict whose status is neither "Processed" nor a failure status |
| AbbyyProvider.Queries | api/abbyy_provider.py:71-72 | n status queries are n identical GET requests |
| AbbyyProvider.Provider.constructor | api/abbyy_provider.py:5-11 | a provider with the given settings and no request sent |
| AbbyyProvider.Provider.GetAccessToken | api/abbyy_provider.py:15-45 | returns or raises what `AccessToken` gives (a ValueError before any request when a credential is missing, else the auth POST's `access_token`) and adds exactly its requests to the log |
| AbbyyProvider.Provider.CreateTransactionCall | api/abbyy_provider.py:47-53 | returns the `transactionId` of the reply to one POST to the transactions URL, as `CreateTransaction` gives, and logs that request |
| AbbyyProvider.Provider.AddFileToTransaction | api/abbyy_provider.py:55-60 | posts to the transaction's files URL and logs exactly that request |
| AbbyyProvider.Provider.StartTransaction | api/abbyy_provider.py:62-66 | posts to the transaction's start URL and logs exactly that request |
| AbbyyProvider.Provider.CheckStatus | api/abbyy_provider.py:72-82 | one status query, then what its reply settles |
| AbbyyProvider.Provider.Round | api/abbyy_provider.py:71-83 | one round sends the status query, then settles as `Settle` decides, logging the query and any download |
| AbbyyProvider.Provider.PollLoop | api/abbyy_provider.py:71-84 | the `for` loop returns and logs exactly what `Rounds` gives from round 0 |
| AbbyyProvider.Provider.PollAndGetResult | api/abbyy_provider.py:68-84 | `poll_and_get_result` returns what `Poll` gives and adds exactly its requests to the log |
| AbbyyProvider.Rounds | api/abbyy_provider.py:71-84 | defines the status loop from a given attempt on: one status query per round until a reply settles, and the time-out exception after 30 rounds |
| AbbyyProvider.Settlements | api/abbyy_provider.py:72-82 | defines how the reply to each status query settles, by `Settle` |
| AbbyyProvider.Poll | api/abbyy_provider.py:68-84 | defines `poll_and_get_result`: the transaction URL, then the status loop from the first attempt |
| AbbyyProvider.TransactionUrls | api/abbyy_provider.py:48-77 | the status, files, start and download URLs extend the transactions URL as written, and no two of them are equal |
| AbbyyProvider.RoundsStep | api/abbyy_provider.py:71-83 | one round sends the status query and either settles or goes on to the next round |
| AbbyyProvider.SkipPending | api/abbyy_provider.py:71-83 | rounds that settle nothing each add one status query and nothing else |
| AbbyyProvider.SettledAt | api/abbyy_provider.py:71-82 | the first round that settles decides the result, after one query per round |
| AbbyyProvider.TimesOut | api/abbyy_provider.py:84 | thirty pending replies end in the timeout error after exactly thirty status queries |
| AbbyyProvider.SettleProcessed | api/abbyy_provider.py:75-80 | a "Processed" reply downloads the first result file of the first document |
| AbbyyProvider.ProcessedDownloads | api/abbyy_provider.py:71-80 | "Processed" after k pending replies returns the downloaded JSON after k+1 queries and one download |
| AbbyyProvider.FailedStatusRaises | api/abbyy_provider.py:81-82 | a failure status after k pending replies raises at once, naming the status, after k+1 queries |
| AbbyyProvider.AtMostThirtyQueries | api/abbyy_provider.py:71 | the loop sends at most thirty status queries, and every request but the last is a status query |
| AbbyyProvider.SettleSendsDownloadOnly | api/abbyy_provider.py:75-82 | settling sends at most the download request, never another status query |
| AbbyyProvider.PollBounded | api/abbyy_provider.py:68-84 | `poll_and_get_result` sends at most thirty status queries |
| AbbyyProvider.StatusCaseSensitive | api/abbyy_provider.py:75-81 | status names are compared exactly: "processed" and "error" keep polling |
| AbbyyProvider.MissingCredentials | api/abbyy_provider.py:31-32 | a missing client id or secret stops `get_access_token` before any request |
| Tasks.Lookup | api/tasks.py:63-64 | defines the `next(...)` lookup of an id in a configuration list, with the exceptions a missing list or entry id raises |
| Tasks.FirstWithId | api/tasks.py:63 | a found entry is a dict from the list whose `id` matches |
| Tasks.FirstMatchFound | api/tasks.py:63 | the first entry with a matching id is found when every entry before it has a different id |
| Tasks.NoMatchIsNone | api/tasks.py:63-64 | without a matching entry the lookup gives None |
| Tasks.FormIdNeverMatchesNumber | api/tasks.py:63-64 | the form sends ids as strings, which never match numeric ids in the configuration |
| Tasks.GetLlmProvider | api/tasks.py:38-53 | a built provider keeps the model id; a Gemini provider comes only from "google" and an OpenAI provider only from "openai" |
| Tasks.KnownProviders | api/tasks.py:48-51 | "google" and "openai" give their providers with the Vault key, Gemini with the configured endpoint |
| Tasks.UnknownProvider | api/tasks.py:52-53 | any other configured name raises ValueError naming it |
| Tasks.UnconfiguredProvider | api/tasks.py:39 | a name missing from the configuration raises KeyError before the name is dispatched on |
| Tasks.LlmFailureText | api/tasks.py:96-98 | the recorded message is the exception's text, followed by " \| Response: " and the response text when there is one |
| Tasks.AbbyyStage | api/tasks.py:72-79 | defines the ABBYY half of the task: the provider built from the configuration, then its steps in order, each stopping the stage at its first exception |
| Tasks.TokenStep | api/tasks.py:74-75 | defines `get_access_token()` followed by the lookup of the skill id |
| Tasks.CreateStep | api/tasks.py:75 | defines `create_transaction(...)` |
| Tasks.UploadStep | api/tasks.py:76 | defines `add_file_to_transaction(...)` |
| Tasks.StartStep | api/tasks.py:77 | defines `start_transaction(...)` |
| Tasks.PollStep | api/tasks.py:78-79 | defines `poll_and_get_result(...)` followed by `parse_abbyy_response` |
| Tasks.LlmStage | api/tasks.py:85-94 | defines the LLM half of the task: the provider name, the provider, the template path and the prompt, then the analysis, each stopping the stage at its first exception |
| Tasks.Process | api/tasks.py:57-100 | the Celery task records at most one state, a FAILURE of the raised exception's type, and none when it returns; ABBYY is contacted only for a found document type and model |
| Tasks.Analysis | api/tasks.py:71-100 | the two `try` blocks record at most one FAILURE, of the raised exception's type, and none on success |
| Tasks.AnalysisTask.constructor | api/tasks.py:56-57 | a task that has recorded no state |
| Tasks.AnalysisTask.UpdateState | api/tasks.py:81 | appends one recorded state |
| Tasks.AnalysisTask.ProcessDocumentAnalysis | api/tasks.py:57-100 | returns, sends and records exactly what the function `Process` gives |
| Tasks.AnalysisTask.Analyse | api/tasks.py:71-100 | the two `try` blocks return, send and record what the function `Analysis` gives |
| Tasks.RunAbbyy | api/tasks.py:72-79 | the ABBYY stage, on a fresh provider, returns the extracted data or the exception and the requests that `AbbyyStage` gives |
| Tasks.RunToken | api/tasks.py:74-75 | the stage from the access token on, as specified |
| Tasks.RunCreate | api/tasks.py:75 | the stage from the transaction's creation on, as specified |
| Tasks.RunUpload | api/tasks.py:76 | the stage from the upload on, as specified |
| Tasks.RunStart | api/tasks.py:77-79 | the stage from the start on, as specified |
| Tasks.InvalidIdsFirst | api/tasks.py:66-67 | an unknown document type or model is refused before decoding and before any ABBYY request, recording nothing |
| Tasks.DecodeFailureNotRecorded | api/tasks.py:69 | a file that is not valid base64 raises outside both `try` blocks and records nothing |
| Tasks.AbbyyFailureRecorded | api/tasks.py:80-82 | an ABBYY-stage failure records FAILURE with the exception's type and text, then re-raises it |
| Tasks.MissingCredentialsRecorded | api/tasks.py:72-82 | missing ABBYY credentials fail the Celery task and record FAILURE before any ABBYY request |
| Tasks.LlmStageRecorded | api/tasks.py:85-100 | after a good extraction the result is the LLM's; a failure records FAILURE with the extended message |
| Tasks.UnreadableResultStillAnalysed | api/tasks.py:78-79 | an ABBYY result the parser cannot read goes on as the parser's error dict, not as a failure |
| Tasks.StatusQueriesBounded | api/tasks.py:76-78 | from the upload on, the Celery task queries the transaction's status at most thirty times |

## Left out

- Js.Upper: upper-cases ASCII letters only. JavaScript's full Unicode case
  mapping (for example "ß" to "SS") is not modelled. It matters only for
  non-ASCII status strings.
- Json: numbers are integers. Floating-point values, and their JSON and
  template-string text, are not modelled.
- Py.Repr and `str` of a dict: `str` of a dict depends on key order, which a
  Dafny map does not have, so it is a parameter. Python's repr escaping of
  quotes and special characters inside strings is not modelled.
- Py: Python's `True == 1` and `hash(True) == hash(1)` equality of dict keys
  is not modelled; booleans and numbers are distinct keys.
- Views.Rendered: a non-failed task whose stored result is an exception (a
  RETRY state) gives `None`. How Django REST framework would serialise that
  exception is not modelled.
- AbbyyProvider.Provider.AddFileToTransaction: the file's bytes, name and
  content type, and every request's headers and body, are not modelled.
  Only the method, the URL and the reply are logged.
- PdfLayout.PdfWriter.AddText: `splitTextToSize` and the page width are
  parameters. Font selection and glyph rendering are not modelled; a block
  records its text, lines, font size, style, x position and y position.
- Timing: the 5-second interval, the 5-second `time.sleep` between ABBYY
  status queries, and network latency are not modelled. The page's events
  and the status loop's rounds are discrete steps.
- React scheduling: state setters batch and the effect re-runs. This is
  modelled as one commit after each event.
- JobControl.PollTick: a status reply is applied in the same step as the
  timer firing that sent its query. A reply still in flight when its timer
  is cleared is not modelled. In the page, such a late reply still runs the
  callback's branches (FullAnalyzer.js:93-110), and its `clearInterval` clears
  whichever timer the ref then holds. So JobControl.ClearedStaysCleared is a
  fact about the model's timers, not about replies still in flight.
- The configuration fetch (`fetchConfig`, FullAnalyzer.js:21-39) and
  `ConfigView` (api/views.py:21-31) are not modelled. The selected type and
  model are plain state set by the change handlers.
- The HTML `required` attributes of the form are browser behaviour, not
  modelled.
- `dangerouslySetInnerHTML`: the markup string is modelled, its HTML
  parsing is not.
- jsPDF's `save` (the download itself) is not modelled. The saved file is
  the file name and the pages.
- `json.loads`, `JSON.stringify`, base64 encoding and decoding, the YAML
  configuration file (api/tasks.py:59-61), the prompt template file and
  `str.format` (api/tasks.py:88-91), and the LLM providers'
  `generate_analysis` (api/tasks.py:93) are parameters.
- Vault (`vault_utils`) and its `get_secret` and token lookup are
  parameters.
- The Celery result store is not modelled. The state and stored value the
  status endpoint reads are inputs. `update_state` is a recorded log.
- `get_abbyy_access_token` (api/tasks.py:22-34) is not called by the Celery task.
  It is an older duplicate of `AbbyyProvider.get_access_token` and is not
  modelled.
- Login.js, App.js and the LLM provider classes are not part of this model.
- Debug logging to the console is not modelled: the `print` calls of
  api/permissions.py:30 and :34 (a rejected or failed token lookup) and
  api/utils.py:33 (a failed parse). Only the values returned after them are.
- `RequestsProvider(verify=False)` and TLS are not modelled.
