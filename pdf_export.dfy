/** `downloadPdf` of both components: which document is exported for an
    analysis result, and the sequence of `addText` calls and cursor moves
    that builds it. FullAnalyzer.js exports a tender proposal or, failing
    that, a resume analysis; Test.js exports only the proposal. The two
    proposal exports differ in the bullet they put before each solution step
    and in a 10 mm gap after the introduction that only Test.js leaves. */
module PdfExport {
  import opened Json
  import Js
  import Markdown
  import opened PdfLayout

  const ProposalFile := "Tender_Analysis_Proposal.pdf"
  const ResumeFile := "Resume_Analysis.pdf"

  /** The component whose `downloadPdf` runs. */
  datatype Variant = Full | Trial

  /** The bullet before each list item. FullAnalyzer.js writes the three
      characters U+201A U+00C4 U+00A2 (a bullet whose UTF-8 bytes were once
      decoded as Mac Roman); Test.js writes U+2022. */
  function Bullet(v: Variant): (r: string)
    ensures |r| >= 1 && forall i :: 0 <= i < |r| ==> r[i] != '*'
  {
    if v == Full then "\U{201A}\U{00C4}\U{00A2}" else "\U{2022}"
  }

  function Heading(title: string): Op {
    Text(JStr(title), 14, Bold, 0)
  }

  function Para(v: Json): Op {
    Text(v, 11, Normal, 0)
  }

  /** A list item: 11 pt, indented by 5 mm. */
  function Items(texts: seq<string>): (r: seq<Op>)
    ensures |r| == |texts|
    ensures forall i :: 0 <= i < |texts| ==> r[i] == Text(JStr(texts[i]), 11, Normal, 5)
  {
    seq(|texts|, i requires 0 <= i < |texts| => Text(JStr(texts[i]), 11, Normal, 5))
  }

  predicate AllStrings(items: seq<Json>) {
    forall i :: 0 <= i < |items| ==> items[i].JStr?
  }

  /** A solution step as exported: the bullet, a space and the step with its
      bold markers removed. */
  function StepText(step: string, v: Variant): string {
    Bullet(v) + " " + Markdown.StripBold(step)
  }

  function StepTexts(steps: seq<Json>, v: Variant): (r: seq<string>)
    requires AllStrings(steps)
    ensures |r| == |steps|
    ensures forall i :: 0 <= i < |steps| ==> r[i] == StepText(steps[i].s, v)
  {
    seq(|steps|, i requires 0 <= i < |steps| => StepText(steps[i].s, v))
  }

  /** A strength or weakness as exported: the bullet, a space and the item's
      template-literal text. */
  function ListTexts(items: seq<Json>): (r: seq<string>)
    ensures |r| == |items|
    ensures forall i :: 0 <= i < |items| ==> r[i] == Bullet(Full) + " " + Js.Text(items[i])
  {
    seq(|items|, i requires 0 <= i < |items| => Bullet(Full) + " " + Js.Text(items[i]))
  }

  // ---------------------------------------------------------------------
  // The proposal export, section by section

  function TitleOps(p: Json, v: Variant): seq<Op> {
    [Text(Js.Get(p, "title"), 18, Bold, 0), Gap(5), Para(Js.Get(p, "introduction"))]
    + (if v == Trial then [Gap(10)] else [])
  }

  /** The analysis section: present only when `analysis` is truthy; a string
      is written as is, an object as its three labelled fields. */
  function AnalysisOps(p: Json): seq<Op> {
    var a := Js.Get(p, "analysis");
    if !Js.Truthy(a) then []
    else
      [Heading("Analysis")]
      + (if Js.TypeOf(a) == "string" then [Para(a)]
         else if Js.TypeOf(a) == "object" then
           [Para(JStr("Data Relevance: " + Js.Text(Js.Get(a, "data_relevance")))),
            Para(JStr("Data Quality: " + Js.Text(Js.Get(a, "data_quality")))),
            Para(JStr("Limitations: " + Js.Text(Js.Get(a, "limitations"))))]
         else [])
      + [Gap(10)]
  }

  /** The solution steps as list items, when `steps` is an array. */
  function StepOps(steps: Json, v: Variant): seq<Op>
    requires steps.JArr? ==> AllStrings(steps.items)
  {
    if steps.JArr? then Items(StepTexts(steps.items, v)) else []
  }

  /** The body of the proposed-solution section: a string as is; an object
      as its methodology, its steps and its technology; `None` when a step
      is not a string, on which `step.replace` throws and the export stops. */
  function SolutionBody(sol: Json, v: Variant): Option<seq<Op>> {
    if Js.TypeOf(sol) == "string" then Some([Para(sol)])
    else if Js.TypeOf(sol) == "object" then
      var steps := Js.Get(sol, "steps");
      if steps.JArr? && !AllStrings(steps.items) then None
      else Some([Para(Js.Get(sol, "methodology"))] + StepOps(steps, v) + [TechnologyOp(sol)])
    else Some([])
  }

  function TechnologyOp(sol: Json): Op {
    Para(JStr("Technology: " + Js.Text(Js.Get(sol, "technology"))))
  }

  /** The proposed-solution section, present only when the field is truthy. */
  function SolutionOps(p: Json, v: Variant): Option<seq<Op>> {
    var sol := Js.Get(p, "proposed_solution");
    if !Js.Truthy(sol) then Some([])
    else
      match SolutionBody(sol, v)
      case None => None
      case Some(body) => Some([Heading("Proposed Solution")] + body + [Gap(10)])
  }

  /** The budget line: a string budget as is, otherwise its `cost` when
      truthy, otherwise "Total: $" and the cost's text. */
  function BudgetText(b: Json): Json {
    if b.JStr? then b
    else
      var cost := Js.Get(b, "cost");
      if Js.Truthy(cost) then cost else JStr("Total: $" + Js.Text(cost))
  }

  function BudgetOps(p: Json): seq<Op> {
    var b := Js.Get(p, "budget");
    if Js.Truthy(b) then [Heading("Budget"), Para(BudgetText(b)), Gap(5)] else []
  }

  function ConclusionOps(p: Json): seq<Op> {
    var c := Js.Get(p, "conclusion");
    if Js.Truthy(c) then [Heading("Conclusion"), Para(c)] else []
  }

  function ProposalOps(p: Json, v: Variant): Option<seq<Op>> {
    match SolutionOps(p, v)
    case None => None
    case Some(sol) => Some(TitleOps(p, v) + AnalysisOps(p) + sol + BudgetOps(p) + ConclusionOps(p))
  }

  /** The resume export (FullAnalyzer.js only); `None` when `strengths` or
      `weaknesses` is not an array, on which `forEach` throws. */
  function ResumeOps(r: Json): Option<seq<Op>> {
    var strengths := Js.Get(r, "strengths");
    var weaknesses := Js.Get(r, "weaknesses");
    if !strengths.JArr? || !weaknesses.JArr? then None
    else
      Some(ResumeHead(r) + Items(ListTexts(strengths.items)) + ResumeMiddle()
           + Items(ListTexts(weaknesses.items)) + ResumeTail(r))
  }

  function ResumeHead(r: Json): seq<Op> {
    [Text(JStr("Resume Analysis Report"), 18, Bold, 0), Gap(10),
     Heading("Summary"), Para(Js.Get(r, "summary")), Gap(10), Heading("Strengths")]
  }

  function ResumeMiddle(): seq<Op> {
    [Gap(10), Heading("Weaknesses")]
  }

  function ResumeTail(r: Json): seq<Op> {
    [Gap(10), Heading("Hiring Likelihood Score"), ScoreOp(r)]
  }

  function ScoreOp(r: Json): Op {
    Text(JStr(Js.Text(Js.Get(r, "hiring_likelihood_score")) + " / 100"), 12, Normal, 0)
  }

  // ---------------------------------------------------------------------
  // Which document is exported

  /** What a press of the download button does: nothing, save a file built
      by the given steps, or throw part way. */
  datatype Plan = NoPdf | Pdf(file: string, ops: seq<Op>) | Fails

  function FromOps(file: string, ops: Option<seq<Op>>): Plan {
    if ops.Some? then Pdf(file, ops.value) else Fails
  }

  /** FullAnalyzer.js: the proposal when `proposal` is truthy, else the
      resume analysis when `analysis` is truthy, else nothing. */
  function FullPlan(analysis: Json): Plan {
    if !Js.Truthy(analysis) then NoPdf
    else
      var p := Js.Get(analysis, "proposal");
      var r := Js.Get(analysis, "analysis");
      if Js.Truthy(p) then FromOps(ProposalFile, ProposalOps(p, Full))
      else if Js.Truthy(r) then FromOps(ResumeFile, ResumeOps(r))
      else NoPdf
  }

  /** Test.js: the proposal, or nothing. */
  function TrialPlan(analysis: Json): Plan {
    if !Js.Truthy(analysis) || !Js.Truthy(Js.Get(analysis, "proposal")) then NoPdf
    else FromOps(ProposalFile, ProposalOps(Js.Get(analysis, "proposal"), Trial))
  }

  /** The outcome of a download: no file, a saved file with its pages, or an
      exception (nothing is saved). */
  datatype Download = NotSaved | Saved(file: string, doc: Cursor) | Threw

  function Render(plan: Plan, pageWidth: real, split: Splitter): Download {
    match plan
    case NoPdf => NotSaved
    case Fails => Threw
    case Pdf(file, ops) => Saved(file, Layout(Start(), ops, pageWidth, split))
  }

  // ---------------------------------------------------------------------
  // Section headings and list items

  predicate IsHeading(op: Op) {
    op.Text? && op.size == 14 && Printable(op.value)
  }

  /** The section headings the steps write, in order. */
  function Headings(ops: seq<Op>): seq<string>
    decreases |ops|
  {
    if ops == [] then [] else (if IsHeading(ops[0]) then [ops[0].value.s] else []) + Headings(ops[1..])
  }

  lemma {:induction false} HeadingsAppend(a: seq<Op>, b: seq<Op>)
    ensures Headings(a + b) == Headings(a) + Headings(b)
    decreases |a|
  {
    if a == [] {
      assert a + b == b;
    } else {
      assert (a + b)[0] == a[0] && (a + b)[1..] == a[1..] + b;
      HeadingsAppend(a[1..], b);
    }
  }

  lemma {:induction false} NoHeadings(ops: seq<Op>)
    requires forall i :: 0 <= i < |ops| ==> !IsHeading(ops[i])
    ensures Headings(ops) == []
    decreases |ops|
  {
    if ops != [] {
      NoHeadings(ops[1..]);
    }
  }

  lemma OneHeading(ops: seq<Op>)
    requires |ops| >= 1 && IsHeading(ops[0]) && forall i :: 1 <= i < |ops| ==> !IsHeading(ops[i])
    ensures Headings(ops) == [ops[0].value.s]
  {
    NoHeadings(ops[1..]);
  }

  /** The indented texts of steps that indent only list items. */
  lemma {:induction false} ItemsIndented(texts: seq<string>)
    requires forall i :: 0 <= i < |texts| ==> texts[i] != ""
    ensures Indented(Printed(Items(texts))) == texts
    decreases |texts|
  {
    if texts != [] {
      assert Items(texts)[1..] == Items(texts[1..]);
      ItemsIndented(texts[1..]);
    }
  }

  lemma {:induction false} FlatIndented(ops: seq<Op>)
    requires forall i :: 0 <= i < |ops| ==> ops[i].Text? ==> ops[i].indent == 0
    ensures Indented(Printed(ops)) == []
    decreases |ops|
  {
    if ops != [] {
      FlatIndented(ops[1..]);
    }
  }

  lemma IndentedOfAppend(a: seq<Op>, b: seq<Op>)
    ensures Indented(Printed(a + b)) == Indented(Printed(a)) + Indented(Printed(b))
  {
    PrintedAppend(a, b);
    IndentedAppend(Printed(a), Printed(b));
  }

  // ---------------------------------------------------------------------
  // Properties of the proposal export

  /** A proposal export has exactly the section headings whose fields are
      truthy, in the order Analysis, Proposed Solution, Budget, Conclusion:
      a missing analysis leaves no empty Analysis section behind. Both
      components agree on this. */
  lemma ProposalHeadings(p: Json, v: Variant)
    requires ProposalOps(p, v).Some?
    ensures Headings(ProposalOps(p, v).value)
            == (if Js.Truthy(Js.Get(p, "analysis")) then ["Analysis"] else [])
               + (if Js.Truthy(Js.Get(p, "proposed_solution")) then ["Proposed Solution"] else [])
               + (if Js.Truthy(Js.Get(p, "budget")) then ["Budget"] else [])
               + (if Js.Truthy(Js.Get(p, "conclusion")) then ["Conclusion"] else [])
  {
    var t, a, sol, b, c := TitleOps(p, v), AnalysisOps(p), SolutionOps(p, v).value, BudgetOps(p), ConclusionOps(p);
    ProposalParts(p, v);
    TitleHeadings(p, v);
    AnalysisHeadings(p);
    SolutionHeadings(p, v);
    BudgetHeadings(p);
    ConclusionHeadings(p);
    HeadingsOfParts(t, a, sol, b, c, Headings(a), Headings(sol), Headings(b), Headings(c));
  }

  lemma HeadingsOfParts(t: seq<Op>, a: seq<Op>, s: seq<Op>, b: seq<Op>, c: seq<Op>,
                        ha: seq<string>, hs: seq<string>, hb: seq<string>, hc: seq<string>)
    requires Headings(t) == [] && Headings(a) == ha && Headings(s) == hs && Headings(b) == hb && Headings(c) == hc
    ensures Headings(t + a + s + b + c) == ha + hs + hb + hc
  {
    HeadingsOf5(t, a, s, b, c);
    assert [] + ha == ha;
  }

  lemma ProposalParts(p: Json, v: Variant)
    requires ProposalOps(p, v).Some?
    ensures ProposalOps(p, v).value
            == TitleOps(p, v) + AnalysisOps(p) + SolutionOps(p, v).value + BudgetOps(p) + ConclusionOps(p)
  {
  }

  lemma HeadingsOf5(a: seq<Op>, b: seq<Op>, c: seq<Op>, d: seq<Op>, e: seq<Op>)
    ensures Headings(a + b + c + d + e) == Headings(a) + Headings(b) + Headings(c) + Headings(d) + Headings(e)
  {
    HeadingsAppend(a, b);
    HeadingsAppend(a + b, c);
    HeadingsAppend(a + b + c, d);
    HeadingsAppend(a + b + c + d, e);
  }

  lemma IndentedOf5(a: seq<Op>, b: seq<Op>, c: seq<Op>, d: seq<Op>, e: seq<Op>)
    ensures Indented(Printed(a + b + c + d + e))
            == Indented(Printed(a)) + Indented(Printed(b)) + Indented(Printed(c)) + Indented(Printed(d)) + Indented(Printed(e))
  {
    IndentedOfAppend(a, b);
    IndentedOfAppend(a + b, c);
    IndentedOfAppend(a + b + c, d);
    IndentedOfAppend(a + b + c + d, e);
  }

  lemma Assoc3(d: seq<Op>, x: seq<Op>, y: seq<Op>, z: seq<Op>)
    ensures d + x + y + z == d + (x + y + z)
  {
  }

  lemma TitleHeadings(p: Json, v: Variant)
    ensures Headings(TitleOps(p, v)) == []
  {
    NoHeadings(TitleOps(p, v));
  }

  lemma AnalysisHeadings(p: Json)
    ensures Headings(AnalysisOps(p)) == if Js.Truthy(Js.Get(p, "analysis")) then ["Analysis"] else []
  {
    if Js.Truthy(Js.Get(p, "analysis")) { OneHeading(AnalysisOps(p)); } else { NoHeadings(AnalysisOps(p)); }
  }

  lemma SolutionHeadings(p: Json, v: Variant)
    requires SolutionOps(p, v).Some?
    ensures Headings(SolutionOps(p, v).value) == if Js.Truthy(Js.Get(p, "proposed_solution")) then ["Proposed Solution"] else []
  {
    var sol := Js.Get(p, "proposed_solution");
    if Js.Truthy(sol) {
      var body := SolutionBody(sol, v).value;
      assert forall i :: 0 <= i < |body| ==> body[i].Text? && body[i].size == 11;
      OneHeading(SolutionOps(p, v).value);
    } else {
      NoHeadings(SolutionOps(p, v).value);
    }
  }

  lemma BudgetHeadings(p: Json)
    ensures Headings(BudgetOps(p)) == if Js.Truthy(Js.Get(p, "budget")) then ["Budget"] else []
  {
    if Js.Truthy(Js.Get(p, "budget")) { OneHeading(BudgetOps(p)); } else { NoHeadings(BudgetOps(p)); }
  }

  lemma ConclusionHeadings(p: Json)
    ensures Headings(ConclusionOps(p)) == if Js.Truthy(Js.Get(p, "conclusion")) then ["Conclusion"] else []
  {
    if Js.Truthy(Js.Get(p, "conclusion")) { OneHeading(ConclusionOps(p)); } else { NoHeadings(ConclusionOps(p)); }
  }

  /** The export throws exactly when the solution is an object whose `steps`
      is an array holding something other than a string. */
  lemma ProposalThrows(p: Json, v: Variant)
    ensures var sol := Js.Get(p, "proposed_solution");
            ProposalOps(p, v).None?
            <==> sol.JObj? && Js.Get(sol, "steps").JArr? && !AllStrings(Js.Get(sol, "steps").items)
  {
  }

  /** The indented blocks of a proposal export are its solution steps, one
      per step and in their order, each the bullet and the step without its
      bold markers; no other block is indented. */
  lemma ProposalBullets(p: Json, v: Variant)
    requires ProposalOps(p, v).Some?
    ensures var sol := Js.Get(p, "proposed_solution");
            var steps := Js.Get(sol, "steps");
            Indented(Printed(ProposalOps(p, v).value))
            == if sol.JObj? && steps.JArr? then StepTexts(steps.items, v) else []
  {
    var t, a, solOps, b, c := TitleOps(p, v), AnalysisOps(p), SolutionOps(p, v).value, BudgetOps(p), ConclusionOps(p);
    ProposalParts(p, v);
    SectionsFlat(p, v);
    SolutionBullets(p, v);
    IndentedOf5(t, a, solOps, b, c);
    var x := Indented(Printed(solOps));
    assert [] + [] + x + [] + [] == x;
  }

  /** The title, analysis, budget and conclusion sections hold no indented
      block. */
  lemma SectionsFlat(p: Json, v: Variant)
    ensures Indented(Printed(TitleOps(p, v))) == []
    ensures Indented(Printed(AnalysisOps(p))) == []
    ensures Indented(Printed(BudgetOps(p))) == []
    ensures Indented(Printed(ConclusionOps(p))) == []
  {
    FlatIndented(TitleOps(p, v));
    FlatIndented(AnalysisOps(p));
    FlatIndented(BudgetOps(p));
    FlatIndented(ConclusionOps(p));
  }

  /** An object solution is its heading, methodology, steps, technology and
      gap, in order. */
  lemma SolutionObjectOps(p: Json, v: Variant)
    requires var sol := Js.Get(p, "proposed_solution"); Js.Truthy(sol) && Js.TypeOf(sol) == "object"
    requires SolutionOps(p, v).Some?
    ensures var sol := Js.Get(p, "proposed_solution");
            SolutionOps(p, v).value
            == [Heading("Proposed Solution"), Para(Js.Get(sol, "methodology"))] + StepOps(Js.Get(sol, "steps"), v)
               + [TechnologyOp(sol), Gap(10)]
  {
    var sol := Js.Get(p, "proposed_solution");
    var items := StepOps(Js.Get(sol, "steps"), v);
    assert SolutionBody(sol, v).value == [Para(Js.Get(sol, "methodology"))] + items + [TechnologyOp(sol)];
  }

  lemma SolutionBullets(p: Json, v: Variant)
    requires SolutionOps(p, v).Some?
    ensures var sol := Js.Get(p, "proposed_solution");
            var steps := Js.Get(sol, "steps");
            Indented(Printed(SolutionOps(p, v).value))
            == if sol.JObj? && steps.JArr? then StepTexts(steps.items, v) else []
  {
    var sol := Js.Get(p, "proposed_solution");
    if sol.JObj? {
      SolutionObjectOps(p, v);
      StepSectionIndented(sol, v);
    } else {
      FlatIndented(SolutionOps(p, v).value);
    }
  }

  /** Of an object solution's ops, only the steps are indented. */
  lemma StepSectionIndented(sol: Json, v: Variant)
    requires Js.Get(sol, "steps").JArr? ==> AllStrings(Js.Get(sol, "steps").items)
    ensures var steps := Js.Get(sol, "steps");
            Indented(Printed([Heading("Proposed Solution"), Para(Js.Get(sol, "methodology"))] + StepOps(steps, v)
                             + [TechnologyOp(sol), Gap(10)]))
            == if steps.JArr? then StepTexts(steps.items, v) else []
  {
    var steps := Js.Get(sol, "steps");
    var head := [Heading("Proposed Solution"), Para(Js.Get(sol, "methodology"))];
    var items := StepOps(steps, v);
    var tail := [TechnologyOp(sol), Gap(10)];
    FlatIndented(head);
    FlatIndented(tail);
    if steps.JArr? {
      forall i | 0 <= i < |steps.items| ensures StepTexts(steps.items, v)[i] != "" {
        assert |Bullet(v)| >= 1;
      }
      ItemsIndented(StepTexts(steps.items, v));
    } else {
      FlatIndented(items);
    }
    IndentedOfAppend(head, items);
    IndentedOfAppend(head + items, tail);
  }

  /** No exported step still holds a "**" marker. */
  lemma StepTextHasNoMarker(step: string, v: Variant)
    ensures Markdown.NoDoubleStar(StepText(step, v))
  {
    var t := StepText(step, v);
    var pre := Bullet(v) + " ";
    Markdown.StripBoldNoDoubleStar(step);
    forall i | 0 <= i < |t| - 1 ensures !(t[i] == '*' && t[i + 1] == '*') {
      if i + 1 < |pre| {
        assert t[i] == pre[i];
      } else if i + 1 == |pre| {
        assert t[i] == ' ';
      } else {
        assert t[i] == Markdown.StripBold(step)[i - |pre|];
        assert t[i + 1] == Markdown.StripBold(step)[i + 1 - |pre|];
      }
    }
  }

  /** A string solution is written as one plain block, never as a list. */
  lemma StringSolutionIsOneBlock(p: Json, v: Variant)
    requires Js.Get(p, "proposed_solution").JStr? && Js.Get(p, "proposed_solution").s != ""
    ensures SolutionOps(p, v) == Some([Heading("Proposed Solution"), Para(Js.Get(p, "proposed_solution")), Gap(10)])
    ensures Indented(Printed(ProposalOps(p, v).value)) == []
  {
    var sol := Js.Get(p, "proposed_solution");
    assert [Heading("Proposed Solution")] + [Para(sol)] + [Gap(10)] == [Heading("Proposed Solution"), Para(sol), Gap(10)];
    ProposalBullets(p, v);
  }

  /** A budget object whose cost is a truthy number exports the Budget
      heading alone: the number is passed to `addText`, which skips
      non-strings. */
  lemma NumericCostDropped(p: Json, cost: int)
    requires Js.Get(p, "budget") == Obj1("cost", JNum(cost)) && cost != 0
    ensures Printed(BudgetOps(p)) == [("Budget", Margin)]
  {
    var ops := BudgetOps(p);
    assert ops == [Heading("Budget"), Para(JNum(cost)), Gap(5)];
    assert ops[1..] == [Para(JNum(cost)), Gap(5)] && ops[1..][1..] == [Gap(5)] && ops[1..][1..][1..] == [];
    assert Printed(ops[1..][1..]) == [];
    assert Printed(ops[1..]) == [];
  }

  /** A budget object without a cost exports "Total: $undefined". */
  lemma MissingCostText(p: Json)
    requires Js.Get(p, "budget") == JObj(map[])
    ensures Printed(BudgetOps(p)) == [("Budget", Margin), ("Total: $undefined", Margin)]
  {
    var ops := BudgetOps(p);
    assert Js.Text(JUndefined) == "undefined";
    assert "Total: $" + "undefined" == "Total: $undefined";
    assert ops == [Heading("Budget"), Para(JStr("Total: $undefined")), Gap(5)];
    assert ops[1..] == [Para(JStr("Total: $undefined")), Gap(5)] && ops[1..][1..] == [Gap(5)] && ops[1..][1..][1..] == [];
    assert Printed(ops[1..][1..]) == [];
    assert Printed(ops[1..]) == [("Total: $undefined", Margin)];
  }

  /** An op of FullAnalyzer.js's proposal as Test.js writes it: an indented
      item that starts with FullAnalyzer.js's bullet gets Test.js's bullet
      instead; every other op is the same. */
  function Rebullet(op: Op): (r: Op)
    ensures !(op.Text? && op.indent == 5) ==> r == op
    ensures r.Text? <==> op.Text?
  {
    var prefix := Bullet(Full) + " ";
    if op.Text? && op.indent == 5 && op.value.JStr? && prefix <= op.value.s then
      op.(value := JStr(Bullet(Trial) + " " + op.value.s[|prefix|..]))
    else op
  }

  function Rebulleted(ops: seq<Op>): seq<Op> {
    seq(|ops|, i requires 0 <= i < |ops| => Rebullet(ops[i]))
  }

  lemma RebulletedAppend(a: seq<Op>, b: seq<Op>)
    ensures Rebulleted(a + b) == Rebulleted(a) + Rebulleted(b)
  {
    assert forall i :: 0 <= i < |a + b| ==> Rebulleted(a + b)[i] == (Rebulleted(a) + Rebulleted(b))[i];
  }

  /** Ops without indented items are written alike by both components. */
  lemma RebulletedPlain(ops: seq<Op>)
    requires NoItems(ops)
    ensures Rebulleted(ops) == ops
  {
  }

  /** The solution section differs between the components in the bullet of
      each step only. */
  lemma SolutionRebulleted(p: Json)
    requires SolutionOps(p, Full).Some?
    ensures SolutionOps(p, Trial).Some?
    ensures Rebulleted(SolutionOps(p, Full).value) == SolutionOps(p, Trial).value
  {
    var sol := Js.Get(p, "proposed_solution");
    if Js.Truthy(sol) && Js.TypeOf(sol) == "object" {
      var steps := Js.Get(sol, "steps");
      var head := [Heading("Proposed Solution"), Para(Js.Get(sol, "methodology"))];
      var tail := [TechnologyOp(sol), Gap(10)];
      SolutionObjectOps(p, Full);
      SolutionObjectOps(p, Trial);
      StepsRebulleted(steps);
      RebulletedAppend(head + StepOps(steps, Full), tail);
      RebulletedAppend(head, StepOps(steps, Full));
      RebulletedPlain(head);
      RebulletedPlain(tail);
    } else {
      RebulletedPlain(SolutionOps(p, Full).value);
    }
  }

  /** Each step's op differs between the components in its bullet only. */
  lemma StepsRebulleted(steps: Json)
    requires steps.JArr? ==> AllStrings(steps.items)
    ensures Rebulleted(StepOps(steps, Full)) == StepOps(steps, Trial)
  {
    if steps.JArr? {
      var fi, ti := StepOps(steps, Full), StepOps(steps, Trial);
      var prefix := Bullet(Full) + " ";
      forall i | 0 <= i < |fi| ensures Rebullet(fi[i]) == ti[i] {
        var x := Markdown.StripBold(steps.items[i].s);
        assert fi[i].value.s == prefix + x;
        assert prefix <= prefix + x;
        assert (prefix + x)[|prefix|..] == x;
      }
    }
  }

  predicate NoItems(ops: seq<Op>) {
    forall i :: 0 <= i < |ops| ==> !(ops[i].Text? && ops[i].indent == 5)
  }

  /** Only the solution section holds indented items. */
  lemma PlainSections(p: Json)
    ensures NoItems(AnalysisOps(p)) && NoItems(BudgetOps(p)) && NoItems(ConclusionOps(p))
  {
  }

  /** The proposal-level step of `IntroductionGap`, on the five sections. */
  lemma RebulletedSections(t: seq<Op>, a: seq<Op>, sf: seq<Op>, st: seq<Op>, b: seq<Op>, c: seq<Op>)
    requires |t| == 3 && NoItems(a) && NoItems(b) && NoItems(c)
    requires Rebulleted(sf) == st
    ensures (t + [Gap(10)]) + a + st + b + c == t + [Gap(10)] + Rebulleted((t + a + sf + b + c)[3..])
  {
    assert (t + a + sf + b + c)[3..] == a + sf + b + c;
    RebulletedAppend(a + sf + b, c);
    RebulletedAppend(a + sf, b);
    RebulletedAppend(a, sf);
    RebulletedPlain(a);
    RebulletedPlain(b);
    RebulletedPlain(c);
  }

  /** The two components write the same proposal except that Test.js leaves
      a 10 mm gap after the introduction and puts its own bullet before each
      solution step; one throws exactly when the other does. */
  lemma IntroductionGap(p: Json)
    ensures TitleOps(p, Trial) == TitleOps(p, Full) + [Gap(10)]
    ensures ProposalOps(p, Full).Some? == ProposalOps(p, Trial).Some?
    ensures ProposalOps(p, Full).Some? ==>
              ProposalOps(p, Trial).value == TitleOps(p, Full) + [Gap(10)] + Rebulleted(ProposalOps(p, Full).value[3..])
  {
    if ProposalOps(p, Full).Some? {
      SolutionRebulleted(p);
      ProposalParts(p, Full);
      ProposalParts(p, Trial);
      PlainSections(p);
      RebulletedSections(TitleOps(p, Full), AnalysisOps(p), SolutionOps(p, Full).value, SolutionOps(p, Trial).value,
                         BudgetOps(p), ConclusionOps(p));
    }
  }

  // ---------------------------------------------------------------------
  // Properties of the resume export and of the dispatch

  /** The indented blocks of a resume export are the strengths and then the
      weaknesses, one per item, in order. */
  lemma ResumeItems(r: Json)
    requires ResumeOps(r).Some?
    ensures Indented(Printed(ResumeOps(r).value))
            == ListTexts(Js.Get(r, "strengths").items) + ListTexts(Js.Get(r, "weaknesses").items)
  {
    var s := ListTexts(Js.Get(r, "strengths").items);
    var w := ListTexts(Js.Get(r, "weaknesses").items);
    var a, b, c := ResumeHead(r), ResumeMiddle(), ResumeTail(r);
    assert ResumeOps(r).value == a + Items(s) + b + Items(w) + c;
    forall i | 0 <= i < |s| ensures s[i] != "" {
      assert |Bullet(Full)| >= 1;
    }
    forall i | 0 <= i < |w| ensures w[i] != "" {
      assert |Bullet(Full)| >= 1;
    }
    FlatIndented(a);
    FlatIndented(b);
    FlatIndented(c);
    ItemsIndented(s);
    ItemsIndented(w);
    IndentedOfParts(a, Items(s), b, Items(w), c, s, w);
  }

  lemma IndentedOfParts(a: seq<Op>, x: seq<Op>, b: seq<Op>, y: seq<Op>, c: seq<Op>, ix: seq<string>, iy: seq<string>)
    requires Indented(Printed(a)) == [] && Indented(Printed(b)) == [] && Indented(Printed(c)) == []
    requires Indented(Printed(x)) == ix && Indented(Printed(y)) == iy
    ensures Indented(Printed(a + x + b + y + c)) == ix + iy
  {
    IndentedOf5(a, x, b, y, c);
    assert [] + ix + [] + iy + [] == ix + iy;
  }

  /** The last block of a resume export is the score out of 100; a score of
      72 reads "72 / 100". */
  lemma ResumeEndsWithScore(r: Json)
    requires ResumeOps(r).Some?
    ensures var ps := Printed(ResumeOps(r).value);
            |ps| >= 1 && ps[|ps| - 1] == (Js.Text(Js.Get(r, "hiring_likelihood_score")) + " / 100", Margin)
    ensures Js.Get(r, "hiring_likelihood_score") == JNum(72) ==> Printed(ResumeOps(r).value)[|Printed(ResumeOps(r).value)| - 1].0 == "72 / 100"
  {
    var ops := ResumeOps(r).value;
    var n := |ops|;
    assert ops[n - 1] == ScoreOp(r);
    assert ops == ops[..n - 1] + [ScoreOp(r)];
    PrintedAppend(ops[..n - 1], [ScoreOp(r)]);
    if Js.Get(r, "hiring_likelihood_score") == JNum(72) {
      assert NatText(72) == NatText(7) + [DigitChar(2)];
      assert Js.Text(JNum(72)) + " / 100" == "72 / 100";
    }
  }

  /** FullAnalyzer.js exports the proposal whenever `proposal` is truthy, the
      resume analysis only when it is not, and nothing without either. */
  lemma FullDispatch(analysis: Json)
    ensures var p := Js.Get(analysis, "proposal");
            var r := Js.Get(analysis, "analysis");
            && ((FullPlan(analysis).Pdf? && FullPlan(analysis).file == ProposalFile)
                <==> Js.Truthy(analysis) && Js.Truthy(p) && ProposalOps(p, Full).Some?)
            && ((FullPlan(analysis).Pdf? && FullPlan(analysis).file == ResumeFile)
                <==> Js.Truthy(analysis) && !Js.Truthy(p) && Js.Truthy(r) && ResumeOps(r).Some?)
            && (FullPlan(analysis).NoPdf? <==> !Js.Truthy(analysis) || (!Js.Truthy(p) && !Js.Truthy(r)))
  {
  }

  /** Test.js exports only proposals, and a result FullAnalyzer.js exports as
      a proposal it exports under the same name with the same headings. */
  lemma TrialDispatch(analysis: Json)
    ensures TrialPlan(analysis).Pdf? ==> TrialPlan(analysis).file == ProposalFile
    ensures TrialPlan(analysis).NoPdf? <==> !Js.Truthy(analysis) || !Js.Truthy(Js.Get(analysis, "proposal"))
    ensures Js.Truthy(analysis) && Js.Truthy(Js.Get(analysis, "proposal")) && FullPlan(analysis).Pdf? ==>
              TrialPlan(analysis).Pdf? && TrialPlan(analysis).file == FullPlan(analysis).file
              && Headings(TrialPlan(analysis).ops) == Headings(FullPlan(analysis).ops)
  {
    var p := Js.Get(analysis, "proposal");
    if Js.Truthy(analysis) && Js.Truthy(p) && FullPlan(analysis).Pdf? {
      ProposalHeadings(p, Full);
      ProposalHeadings(p, Trial);
    }
  }

  /** In a saved proposal the indented blocks on the pages are the solution
      steps, in order, and every block is well placed. */
  lemma SavedProposalBullets(analysis: Json, pageWidth: real, split: Splitter)
    requires FullPlan(analysis).Pdf? && FullPlan(analysis).file == ProposalFile
    ensures var p := Js.Get(analysis, "proposal");
            var sol := Js.Get(p, "proposed_solution");
            var steps := Js.Get(sol, "steps");
            var doc := Render(FullPlan(analysis), pageWidth, split).doc;
            && Indented(Placed(doc.blocks)) == (if sol.JObj? && steps.JArr? then StepTexts(steps.items, Full) else [])
            && WellPlaced(doc)
  {
    var p := Js.Get(analysis, "proposal");
    FullDispatch(analysis);
    var ops := ProposalOps(p, Full).value;
    LayoutPrints(Start(), ops, pageWidth, split);
    assert Placed(Start().blocks) == [];
    assert Placed(Start().blocks) + Printed(ops) == Printed(ops);
    ProposalBullets(p, Full);
    LayoutWellPlaced(Start(), ops, pageWidth, split);
  }

  // ---------------------------------------------------------------------
  // `downloadPdf`, step by step on the writer

  /** One `addText` call or cursor move, with the steps done so far. */
  method Emit(w: PdfWriter, ghost c0: Cursor, ghost done: seq<Op>, op: Op) returns (ghost after: seq<Op>)
    requires w.State() == Layout(c0, done, w.pageWidth, w.split)
    modifies w
    ensures after == done + [op] && w.State() == Layout(c0, after, w.pageWidth, w.split)
  {
    LayoutSnoc(c0, done, op, w.pageWidth, w.split);
    if op.Text? {
      w.AddText(op.value, op.size, op.style, op.indent);
    } else {
      w.Skip(op.dy);
    }
    after := done + [op];
  }

  method WriteTitle(w: PdfWriter, p: Json, v: Variant, ghost c0: Cursor, ghost done: seq<Op>) returns (ghost after: seq<Op>)
    requires w.State() == Layout(c0, done, w.pageWidth, w.split)
    modifies w
    ensures after == done + TitleOps(p, v) && w.State() == Layout(c0, after, w.pageWidth, w.split)
  {
    after := Emit(w, c0, done, Text(Js.Get(p, "title"), 18, Bold, 0));
    after := Emit(w, c0, after, Gap(5));
    after := Emit(w, c0, after, Para(Js.Get(p, "introduction")));
    if v == Trial {
      after := Emit(w, c0, after, Gap(10));
    }
  }

  method WriteAnalysis(w: PdfWriter, p: Json, ghost c0: Cursor, ghost done: seq<Op>) returns (ghost after: seq<Op>)
    requires w.State() == Layout(c0, done, w.pageWidth, w.split)
    modifies w
    ensures after == done + AnalysisOps(p) && w.State() == Layout(c0, after, w.pageWidth, w.split)
  {
    after := done;
    var a := Js.Get(p, "analysis");
    if Js.Truthy(a) {
      after := Emit(w, c0, after, Heading("Analysis"));
      if Js.TypeOf(a) == "string" {
        after := Emit(w, c0, after, Para(a));
      } else if Js.TypeOf(a) == "object" {
        after := Emit(w, c0, after, Para(JStr("Data Relevance: " + Js.Text(Js.Get(a, "data_relevance")))));
        after := Emit(w, c0, after, Para(JStr("Data Quality: " + Js.Text(Js.Get(a, "data_quality")))));
        after := Emit(w, c0, after, Para(JStr("Limitations: " + Js.Text(Js.Get(a, "limitations")))));
      }
      after := Emit(w, c0, after, Gap(10));
    }
  }

  /** `steps.forEach(step => addText(...))`: stops with `ok` false at the
      first step that is not a string. */
  method WriteSteps(w: PdfWriter, steps: seq<Json>, v: Variant, ghost c0: Cursor, ghost done: seq<Op>)
      returns (ok: bool, ghost after: seq<Op>)
    requires w.State() == Layout(c0, done, w.pageWidth, w.split)
    modifies w
    ensures ok == AllStrings(steps)
    ensures ok ==> after == done + Items(StepTexts(steps, v)) && w.State() == Layout(c0, after, w.pageWidth, w.split)
  {
    after := done;
    var i := 0;
    while i < |steps|
      invariant 0 <= i <= |steps|
      invariant AllStrings(steps[..i])
      invariant after == done + Items(StepTexts(steps[..i], v))
      invariant w.State() == Layout(c0, after, w.pageWidth, w.split)
    {
      var step := steps[i];
      if !step.JStr? {
        return false, after;
      }
      after := Emit(w, c0, after, Text(JStr(StepText(step.s, v)), 11, Normal, 5));
      assert steps[..i + 1] == steps[..i] + [step];
      assert Items(StepTexts(steps[..i + 1], v)) == Items(StepTexts(steps[..i], v)) + [Text(JStr(StepText(step.s, v)), 11, Normal, 5)];
      i := i + 1;
    }
    assert steps[..i] == steps;
    ok := true;
  }

  /** The body of the proposed-solution section. */
  method WriteSolutionBody(w: PdfWriter, sol: Json, v: Variant, ghost c0: Cursor, ghost done: seq<Op>)
      returns (ok: bool, ghost after: seq<Op>)
    requires w.State() == Layout(c0, done, w.pageWidth, w.split)
    modifies w
    ensures ok == SolutionBody(sol, v).Some?
    ensures ok ==> after == done + SolutionBody(sol, v).value && w.State() == Layout(c0, after, w.pageWidth, w.split)
  {
    after := done;
    ok := true;
    if Js.TypeOf(sol) == "string" {
      after := Emit(w, c0, after, Para(sol));
    } else if Js.TypeOf(sol) == "object" {
      after := Emit(w, c0, after, Para(Js.Get(sol, "methodology")));
      ghost var mid := after;
      var steps := Js.Get(sol, "steps");
      if steps.JArr? {
        ok, after := WriteSteps(w, steps.items, v, c0, after);
        if !ok {
          return;
        }
      }
      assert after == mid + StepOps(steps, v);
      after := Emit(w, c0, after, TechnologyOp(sol));
      Assoc3(done, [Para(Js.Get(sol, "methodology"))], StepOps(steps, v), [TechnologyOp(sol)]);
    }
  }

  method WriteSolution(w: PdfWriter, p: Json, v: Variant, ghost c0: Cursor, ghost done: seq<Op>)
      returns (ok: bool, ghost after: seq<Op>)
    requires w.State() == Layout(c0, done, w.pageWidth, w.split)
    modifies w
    ensures ok == SolutionOps(p, v).Some?
    ensures ok ==> after == done + SolutionOps(p, v).value && w.State() == Layout(c0, after, w.pageWidth, w.split)
  {
    after := done;
    ok := true;
    var sol := Js.Get(p, "proposed_solution");
    if Js.Truthy(sol) {
      after := Emit(w, c0, after, Heading("Proposed Solution"));
      ok, after := WriteSolutionBody(w, sol, v, c0, after);
      if !ok {
        return;
      }
      after := Emit(w, c0, after, Gap(10));
      Assoc3(done, [Heading("Proposed Solution")], SolutionBody(sol, v).value, [Gap(10)]);
    }
  }

  method WriteBudget(w: PdfWriter, p: Json, ghost c0: Cursor, ghost done: seq<Op>) returns (ghost after: seq<Op>)
    requires w.State() == Layout(c0, done, w.pageWidth, w.split)
    modifies w
    ensures after == done + BudgetOps(p) && w.State() == Layout(c0, after, w.pageWidth, w.split)
  {
    after := done;
    var b := Js.Get(p, "budget");
    if Js.Truthy(b) {
      after := Emit(w, c0, after, Heading("Budget"));
      var budgetText := if b.JStr? then b
                        else if Js.Truthy(Js.Get(b, "cost")) then Js.Get(b, "cost")
                        else JStr("Total: $" + Js.Text(Js.Get(b, "cost")));
      after := Emit(w, c0, after, Para(budgetText));
      after := Emit(w, c0, after, Gap(5));
    }
  }

  method WriteConclusion(w: PdfWriter, p: Json, ghost c0: Cursor, ghost done: seq<Op>) returns (ghost after: seq<Op>)
    requires w.State() == Layout(c0, done, w.pageWidth, w.split)
    modifies w
    ensures after == done + ConclusionOps(p) && w.State() == Layout(c0, after, w.pageWidth, w.split)
  {
    after := done;
    var c := Js.Get(p, "conclusion");
    if Js.Truthy(c) {
      after := Emit(w, c0, after, Heading("Conclusion"));
      after := Emit(w, c0, after, Para(c));
    }
  }

  /** The proposal branch of `downloadPdf`, up to `doc.save`. */
  method WriteProposal(w: PdfWriter, p: Json, v: Variant) returns (ok: bool)
    modifies w
    ensures ok == ProposalOps(p, v).Some?
    ensures ok ==> w.State() == Layout(old(w.State()), ProposalOps(p, v).value, w.pageWidth, w.split)
  {
    ghost var c0 := w.State();
    assert w.State() == Layout(c0, [], w.pageWidth, w.split);
    ghost var done := WriteTitle(w, p, v, c0, []);
    done := WriteAnalysis(w, p, c0, done);
    ok, done := WriteSolution(w, p, v, c0, done);
    if !ok {
      return;
    }
    done := WriteBudget(w, p, c0, done);
    done := WriteConclusion(w, p, c0, done);
    assert [] + TitleOps(p, v) == TitleOps(p, v);
    ProposalParts(p, v);
    assert done == ProposalOps(p, v).value;
  }

  /** `resumeAnalysis.strengths.forEach(...)` and the same for weaknesses:
      throws (`ok` false) when the list is not an array. */
  method WriteList(w: PdfWriter, list: Json, ghost c0: Cursor, ghost done: seq<Op>) returns (ok: bool, ghost after: seq<Op>)
    requires w.State() == Layout(c0, done, w.pageWidth, w.split)
    modifies w
    ensures ok == list.JArr?
    ensures ok ==> after == done + Items(ListTexts(list.items)) && w.State() == Layout(c0, after, w.pageWidth, w.split)
  {
    after := done;
    if !list.JArr? {
      return false, after;
    }
    var items := list.items;
    for i := 0 to |items|
      invariant after == done + Items(ListTexts(items[..i]))
      invariant w.State() == Layout(c0, after, w.pageWidth, w.split)
    {
      after := Emit(w, c0, after, Text(JStr(Bullet(Full) + " " + Js.Text(items[i])), 11, Normal, 5));
      assert items[..i + 1] == items[..i] + [items[i]];
      assert Items(ListTexts(items[..i + 1])) == Items(ListTexts(items[..i])) + [Text(JStr(Bullet(Full) + " " + Js.Text(items[i])), 11, Normal, 5)];
    }
    assert items[..|items|] == items;
    ok := true;
  }

  method WriteResumeHead(w: PdfWriter, r: Json, ghost c0: Cursor, ghost done: seq<Op>) returns (ghost after: seq<Op>)
    requires w.State() == Layout(c0, done, w.pageWidth, w.split)
    modifies w
    ensures after == done + ResumeHead(r) && w.State() == Layout(c0, after, w.pageWidth, w.split)
  {
    after := Emit(w, c0, done, Text(JStr("Resume Analysis Report"), 18, Bold, 0));
    after := Emit(w, c0, after, Gap(10));
    after := Emit(w, c0, after, Heading("Summary"));
    after := Emit(w, c0, after, Para(Js.Get(r, "summary")));
    after := Emit(w, c0, after, Gap(10));
    after := Emit(w, c0, after, Heading("Strengths"));
  }

  method WriteResumeTail(w: PdfWriter, r: Json, ghost c0: Cursor, ghost done: seq<Op>) returns (ghost after: seq<Op>)
    requires w.State() == Layout(c0, done, w.pageWidth, w.split)
    modifies w
    ensures after == done + ResumeTail(r) && w.State() == Layout(c0, after, w.pageWidth, w.split)
  {
    after := Emit(w, c0, done, Gap(10));
    after := Emit(w, c0, after, Heading("Hiring Likelihood Score"));
    after := Emit(w, c0, after, ScoreOp(r));
  }

  /** The resume branch of `downloadPdf` in FullAnalyzer.js. */
  method WriteResume(w: PdfWriter, r: Json) returns (ok: bool)
    modifies w
    ensures ok == ResumeOps(r).Some?
    ensures ok ==> w.State() == Layout(old(w.State()), ResumeOps(r).value, w.pageWidth, w.split)
  {
    ghost var c0 := w.State();
    assert w.State() == Layout(c0, [], w.pageWidth, w.split);
    ghost var done := WriteResumeHead(w, r, c0, []);
    ok, done := WriteList(w, Js.Get(r, "strengths"), c0, done);
    if !ok {
      return;
    }
    ghost var before := done;
    done := Emit(w, c0, done, Gap(10));
    done := Emit(w, c0, done, Heading("Weaknesses"));
    assert done == before + ResumeMiddle();
    ok, done := WriteList(w, Js.Get(r, "weaknesses"), c0, done);
    if !ok {
      return;
    }
    done := WriteResumeTail(w, r, c0, done);
    assert [] + ResumeHead(r) == ResumeHead(r);
  }

  /** `downloadPdf` of FullAnalyzer.js, for a page of the given width and
      jsPDF's line wrapping. */
  method DownloadFull(analysis: Json, pageWidth: real, split: Splitter) returns (out: Download)
    ensures out == Render(FullPlan(analysis), pageWidth, split)
  {
    if !Js.Truthy(analysis) {
      return NotSaved;
    }
    var w := new PdfWriter(pageWidth, split);
    var p := Js.Get(analysis, "proposal");
    if Js.Truthy(p) {
      var ok := WriteProposal(w, p, Full);
      out := if ok then Saved(ProposalFile, w.State()) else Threw;
    } else if Js.Truthy(Js.Get(analysis, "analysis")) {
      var ok := WriteResume(w, Js.Get(analysis, "analysis"));
      out := if ok then Saved(ResumeFile, w.State()) else Threw;
    } else {
      out := NotSaved;
    }
  }

  /** `downloadPdf` of Test.js. */
  method DownloadTrial(analysis: Json, pageWidth: real, split: Splitter) returns (out: Download)
    ensures out == Render(TrialPlan(analysis), pageWidth, split)
  {
    if !Js.Truthy(analysis) || !Js.Truthy(Js.Get(analysis, "proposal")) {
      return NotSaved;
    }
    var w := new PdfWriter(pageWidth, split);
    var ok := WriteProposal(w, Js.Get(analysis, "proposal"), Trial);
    out := if ok then Saved(ProposalFile, w.State()) else Threw;
  }
}
