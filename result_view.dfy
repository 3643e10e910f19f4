/** The result display of both components: what the JSX shows for an
    analysis result, as a sequence of nodes. FullAnalyzer.js shows the
    proposal cards when `proposal` is truthy and the resume cards when
    `analysis` is truthy (both, when both are); Test.js shows only the
    proposal cards. A render that throws leaves nothing on screen; it is
    `None` here. */
module ResultView {
  import opened Json
  import Js
  import Markdown
  import PdfExport
  import JobControl

  /** What the display is made of: headings (`h3`, `h4`), paragraphs with an
      optional bold label, list items, list items given as raw HTML, the
      download button, the loading and error banners, and bare text. */
  datatype Node =
    | Heading(level: nat, text: string)
    | Para(caption: string, text: string)
    | Item(text: string)
    | Markup(html: string)
    | Button(caption: string)
    | Loading(text: string)
    | ErrorBanner(text: string)
    | Text(text: string)

  /** A value React can render as a child: anything but a plain object, and
      arrays only of such values. */
  predicate Renderable(v: Json)
    decreases v
  {
    match v
    case JObj(_) => false
    case JArr(items) => forall i :: 0 <= i < |items| ==> Renderable(items[i])
    case _ => true
  }

  /** The text a renderable child shows: strings and numbers as themselves,
      null, undefined and booleans as nothing, arrays as their items run
      together. */
  function Shown(v: Json): string
    requires Renderable(v)
    decreases v, 1
  {
    match v
    case JStr(s) => s
    case JNum(n) => IntText(n)
    case JArr(items) => ShownAll(items)
    case _ => ""
  }

  function ShownAll(items: seq<Json>): string
    requires forall i :: 0 <= i < |items| ==> Renderable(items[i])
    decreases items, 0
  {
    if items == [] then "" else Shown(items[0]) + ShownAll(items[1..])
  }

  /** `{v}` as a child: its text, or `None` when React throws. */
  function Child(v: Json): Option<string> {
    if Renderable(v) then Some(Shown(v)) else None
  }

  /** One piece of a view after another; `None` when either threw. */
  function Then(a: Option<seq<Node>>, b: Option<seq<Node>>): (r: Option<seq<Node>>)
    ensures r.Some? <==> a.Some? && b.Some?
    ensures r.Some? ==> r.value == a.value + b.value
  {
    if a.Some? && b.Some? then Some(a.value + b.value) else None
  }

  function One(node: Option<Node>): Option<seq<Node>> {
    if node.Some? then Some([node.value]) else None
  }

  /** The `h3` of the title. */
  function TitleLine(title: Json): Option<Node> {
    if Renderable(title) then Some(Heading(3, Shown(title))) else None
  }

  function ParaOf(caption: string, v: Json): Option<Node> {
    if Renderable(v) then Some(Para(caption, Shown(v))) else None
  }

  /** What React shows for a falsy child: nothing, except the number 0,
      which is shown as its text. */
  function FalsyShown(v: Json): seq<Node> {
    if v == JNum(0) then [Text("0")] else []
  }

  /** `{v && (...)}`: the guarded piece when `v` is truthy; otherwise `v`
      itself, which shows nothing unless it is the number 0. */
  function Guard(v: Json, shown: Option<seq<Node>>): (r: Option<seq<Node>>)
    ensures Js.Truthy(v) ==> r == shown
    ensures !Js.Truthy(v) ==> r.Some? && (r.value == [] <==> v != JNum(0))
    ensures !Js.Truthy(v) && v == JNum(0) ==> r == Some([Text("0")])
  {
    if Js.Truthy(v) then shown else Some(FalsyShown(v))
  }

  // ---------------------------------------------------------------------
  // The proposal cards

  /** The title card: FullAnalyzer.js always renders both elements, Test.js
      only those that are truthy. */
  function TitleCard(p: Json, v: PdfExport.Variant): Option<seq<Node>> {
    var title := Js.Get(p, "title");
    var intro := Js.Get(p, "introduction");
    if v == PdfExport.Full then
      Then(One(TitleLine(title)), One(ParaOf("", intro)))
    else
      Then(Guard(title, One(TitleLine(title))), Guard(intro, One(ParaOf("", intro))))
  }

  /** The analysis card: shown when `analysis` is truthy; a string as one
      paragraph, anything else as its three labelled fields. */
  function AnalysisCard(p: Json): Option<seq<Node>> {
    var a := Js.Get(p, "analysis");
    Guard(a,
      if Js.TypeOf(a) == "string" then Some([Heading(4, "Analysis"), Para("", a.s)])
      else
        Then(Some([Heading(4, "Analysis")]),
        Then(One(ParaOf("Data Relevance:", Js.Get(a, "data_relevance"))),
        Then(One(ParaOf("Data Quality:", Js.Get(a, "data_quality"))),
             One(ParaOf("Limitations:", Js.Get(a, "limitations")))))))
  }

  /** A step on screen: every "**" becomes "<strong>". */
  function StepMarkup(step: string): string {
    Markdown.ReplaceBold(step, "<strong>")
  }

  /** `steps.map(step => <li .../>)`: throws on a step that is not a
      string. */
  function StepItems(steps: seq<Json>): (r: Option<seq<Node>>)
    ensures r.Some? <==> PdfExport.AllStrings(steps)
    ensures r.Some? ==> |r.value| == |steps|
                        && forall i :: 0 <= i < |steps| ==> r.value[i] == Markup(StepMarkup(steps[i].s))
  {
    if PdfExport.AllStrings(steps) then Some(seq(|steps|, i requires 0 <= i < |steps| => Markup(StepMarkup(steps[i].s))))
    else None
  }

  /** The proposed-solution card: shown when the field is truthy; a string as
      one paragraph, anything else as methodology, steps and technology. */
  function SolutionCard(p: Json): Option<seq<Node>> {
    var sol := Js.Get(p, "proposed_solution");
    var steps := Js.Get(sol, "steps");
    Guard(sol,
      if Js.TypeOf(sol) == "string" then Some([Heading(4, "Proposed Solution"), Para("", sol.s)])
      else
        Then(Some([Heading(4, "Proposed Solution")]),
        Then(One(ParaOf("", Js.Get(sol, "methodology"))),
        Then(if steps.JArr? then StepItems(steps.items) else Some([]),
             One(ParaOf("Technology:", Js.Get(sol, "technology")))))))
  }

  /** The budget card, always rendered: a string budget as is, otherwise the
      text of `budget.cost`, which throws when the budget is null or
      missing. */
  function BudgetCard(p: Json): Option<seq<Node>> {
    var b := Js.Get(p, "budget");
    if Js.Nullish(b) then None
    else
      var budget := if Js.TypeOf(b) == "string" then b.s else Js.Text(Js.Get(b, "cost"));
      Then(Some([Heading(4, "Budget & Conclusion"), Para("Budget:", budget)]),
           One(ParaOf("Conclusion:", Js.Get(p, "conclusion"))))
  }

  function ProposalCards(p: Json, v: PdfExport.Variant): Option<seq<Node>> {
    Then(TitleCard(p, v), Then(AnalysisCard(p), Then(SolutionCard(p), BudgetCard(p))))
  }

  // ---------------------------------------------------------------------
  // The resume cards (FullAnalyzer.js)

  /** `list.map(item => <li>{item}</li>)`: throws when the list is not an
      array or an item is not renderable. */
  function ListItems(list: Json): Option<seq<Node>> {
    if !list.JArr? then None
    else if forall i :: 0 <= i < |list.items| ==> Renderable(list.items[i]) then
      Some(seq(|list.items|, i requires 0 <= i < |list.items| && Renderable(list.items[i]) => Item(Shown(list.items[i]))))
    else None
  }

  function ScoreLine(r: Json): Option<Node> {
    var score := Js.Get(r, "hiring_likelihood_score");
    if Renderable(score) then Some(Para("", Shown(score) + " / 100")) else None
  }

  function ResumeCards(r: Json): Option<seq<Node>> {
    Then(Some([Heading(4, "Resume Analysis")]),
    Then(One(ParaOf("Summary:", Js.Get(r, "summary"))),
    Then(Some([Heading(4, "Strengths")]),
    Then(ListItems(Js.Get(r, "strengths")),
    Then(Some([Heading(4, "Weaknesses / Areas for Clarification")]),
    Then(ListItems(Js.Get(r, "weaknesses")),
    Then(Some([Heading(4, "Hiring Likelihood Score")]),
         One(ScoreLine(r)))))))))
  }

  // ---------------------------------------------------------------------
  // The two displays

  /** FullAnalyzer.js: no result container without a truthy result;
      otherwise the proposal cards and the resume cards, each guarded by its
      key, and the download button. */
  function FullView(analysis: Json): Option<seq<Node>> {
    var p := Js.Get(analysis, "proposal");
    var r := Js.Get(analysis, "analysis");
    Guard(analysis,
      Then(Guard(p, ProposalCards(p, PdfExport.Full)),
      Then(Guard(r, ResumeCards(r)),
           Some([Button("Download as PDF")]))))
  }

  /** Test.js: the proposal cards and the download button, guarded by the
      result and then by its `proposal`. */
  function TrialView(analysis: Json): Option<seq<Node>> {
    var p := Js.Get(analysis, "proposal");
    Guard(analysis, Guard(p, Then(ProposalCards(p, PdfExport.Trial), Some([Button("Download Proposal as PDF")]))))
  }

  /** The whole display below the form: the loading banner while loading,
      the error banner when there is an error, then the result. */
  function Screen(s: JobControl.Ui, v: PdfExport.Variant): Option<seq<Node>> {
    Then(Some((if s.isLoading then [Loading(s.loadingMessage)] else [])
              + (if s.error.Some? && s.error.value != "" then [ErrorBanner(s.error.value)] else [])),
         if v == PdfExport.Full then FullView(s.analysis) else TrialView(s.analysis))
  }

  /** The label of the submit button. */
  function SubmitLabel(s: JobControl.Ui): string {
    if s.isLoading then s.loadingMessage else "Analyze Document"
  }

  // ---------------------------------------------------------------------
  // Properties

  /** A result with both keys shows both the proposal and the resume cards,
      while its PDF export holds the proposal only. */
  lemma BothBlocksShown(analysis: Json)
    requires Js.Truthy(analysis) && FullView(analysis).Some?
    requires Js.Truthy(Js.Get(analysis, "proposal")) && Js.Truthy(Js.Get(analysis, "analysis"))
    ensures Heading(4, "Budget & Conclusion") in FullView(analysis).value
    ensures Heading(4, "Resume Analysis") in FullView(analysis).value
    ensures PdfExport.FullPlan(analysis).Pdf? ==> PdfExport.FullPlan(analysis).file == PdfExport.ProposalFile
  {
    var p := Js.Get(analysis, "proposal");
    var r := Js.Get(analysis, "analysis");
    var cards := ProposalCards(p, PdfExport.Full).value;
    var resume := ResumeCards(r).value;
    assert FullView(analysis).value == cards + resume + [Button("Download as PDF")];
    assert Heading(4, "Budget & Conclusion") in cards;
    assert Heading(4, "Resume Analysis") in resume;
  }

  /** The budget card reads `budget.cost` unconditionally: a proposal without
      a budget cannot be displayed by either component, although its PDF
      export simply leaves the Budget section out. */
  lemma MissingBudgetBreaksDisplay(analysis: Json)
    requires Js.Truthy(analysis) && Js.Truthy(Js.Get(analysis, "proposal"))
    requires Js.Get(Js.Get(analysis, "proposal"), "budget") == JUndefined
    ensures FullView(analysis).None? && TrialView(analysis).None?
    ensures PdfExport.BudgetOps(Js.Get(analysis, "proposal")) == []
  {
  }

  /** On screen every step of an object solution is one list item, in order,
      with each "**" turned into "<strong>" and none left behind. */
  lemma StepsOnScreen(steps: seq<Json>)
    requires PdfExport.AllStrings(steps)
    ensures StepItems(steps).Some?
    ensures forall i :: 0 <= i < |steps| ==> Markdown.NoDoubleStar(StepItems(steps).value[i].html)
  {
    forall i | 0 <= i < |steps| ensures Markdown.NoDoubleStar(StepMarkup(steps[i].s)) {
      Markdown.ReplaceBoldNoDoubleStar(steps[i].s, "<strong>");
    }
  }

  /** A step without markers shows exactly as written, on screen and, after
      the bullet, in the PDF. */
  lemma CleanStepUnchanged(step: string, v: PdfExport.Variant)
    requires Markdown.NoDoubleStar(step)
    ensures StepMarkup(step) == step
    ensures PdfExport.StepText(step, v) == PdfExport.Bullet(v) + " " + step
  {
    Markdown.ReplaceBoldKeepsClean(step, "<strong>");
    Markdown.ReplaceBoldKeepsClean(step, "");
  }

  /** Test.js shows no title heading for a proposal without a title, where
      FullAnalyzer.js shows an empty one. */
  lemma MissingTitle(p: Json)
    requires Js.Get(p, "title") == JUndefined && Js.Get(p, "introduction") == JStr("x")
    ensures TitleCard(p, PdfExport.Trial) == Some([Para("", "x")])
    ensures TitleCard(p, PdfExport.Full) == Some([Heading(3, ""), Para("", "x")])
  {
    assert ParaOf("", JStr("x")) == Some(Para("", "x"));
    assert TitleLine(JUndefined) == Some(Heading(3, ""));
    assert [] + [Para("", "x")] == [Para("", "x")];
    assert [Heading(3, "")] + [Para("", "x")] == [Heading(3, ""), Para("", "x")];
  }

  /** Test.js shows no card and no button for a result without a truthy
      `proposal`, such as a resume analysis: nothing at all, unless the
      result or its `proposal` is the number 0, which shows as "0". */
  lemma TrialNeedsProposal(analysis: Json)
    requires !Js.Truthy(Js.Get(analysis, "proposal"))
    ensures TrialView(analysis) == Some(if Js.Truthy(analysis) then FalsyShown(Js.Get(analysis, "proposal")) else FalsyShown(analysis))
    ensures analysis != JNum(0) && Js.Get(analysis, "proposal") != JNum(0) ==> TrialView(analysis) == Some([])
  {
  }

  /** A result whose `proposal` is the number 0 shows a bare "0" in Test.js,
      and the "0" before the download button in FullAnalyzer.js. */
  lemma ZeroProposalShown()
    ensures TrialView(Obj1("proposal", JNum(0))) == Some([Text("0")])
    ensures FullView(Obj1("proposal", JNum(0))) == Some([Text("0"), Button("Download as PDF")])
  {
    var analysis := Obj1("proposal", JNum(0));
    assert Js.Get(analysis, "proposal") == JNum(0);
    assert Js.Get(analysis, "analysis") == JUndefined;
    assert [Text("0")] + ([] + [Button("Download as PDF")]) == [Text("0"), Button("Download as PDF")];
  }

  /** A resume whose strengths are not a list cannot be displayed. */
  lemma ResumeListsMustBeArrays(r: Json)
    requires !Js.Get(r, "strengths").JArr?
    ensures ResumeCards(r).None?
  {
  }

  /** The resume analysis of the example job: the score shows as
      "72 / 100". */
  lemma ScoreShown(r: Json)
    requires Js.Get(r, "hiring_likelihood_score") == JNum(72)
    ensures ScoreLine(r) == Some(Para("", "72 / 100"))
  {
    assert NatText(72) == NatText(7) + [DigitChar(2)] == "72";
    assert Shown(JNum(72)) == "72";
    assert "72" + " / 100" == "72 / 100";
  }

  /** The error banner and the result are shown together after a submit
      without a file that follows a successful job. */
  lemma ErrorBesideResult(s: JobControl.Ui)
    requires JobControl.SubmitEnabled(s) && s.documentFile.None? && FullView(s.analysis).Some?
    ensures var t := JobControl.SubmitStart(s).0;
            Screen(t, PdfExport.Full) == Some([ErrorBanner(JobControl.NoFileMessage)] + FullView(s.analysis).value)
  {
    var t := JobControl.SubmitStart(s).0;
    assert t == s.(error := Some(JobControl.NoFileMessage));
    assert !t.isLoading && t.error.value != "";
    assert [] + [ErrorBanner(JobControl.NoFileMessage)] == [ErrorBanner(JobControl.NoFileMessage)];
  }
}
