/** The text layout of the PDF export: the `addText` helper of `downloadPdf`
    (FullAnalyzer.js and Test.js), which writes one block of wrapped text
    into a jsPDF document, starting a new page when the block would run past
    the bottom margin, and moves a vertical cursor down. Line wrapping
    (`splitTextToSize`) and the page width belong to jsPDF and are
    parameters. Lengths are in millimetres. */
module PdfLayout {
  import opened Json

  /** Where writing starts on a page, and the line the cursor must not pass. */
  const Top: real := 20.0
  const Bottom: real := 280.0
  const Margin: real := 15.0
  /** The space left after every block. */
  const Spacing: real := 4.0

  datatype Style = Bold | Normal

  /** jsPDF's `splitTextToSize`: the lines a text wraps into at a width, for
      the font size and style that are set. */
  type Splitter = (string, real, nat, Style) -> seq<string>

  /** One `doc.text` call: the page it lands on, its position, the text it was
      made from and the wrapped lines. */
  datatype Block = Block(page: nat, x: real, y: real, text: string, lines: seq<string>, size: nat, style: Style)

  /** The writer's state: `yPosition`, the current page and every block
      written so far. */
  datatype Cursor = Cursor(y: real, page: nat, blocks: seq<Block>)

  /** One step of an export: an `addText` call or a `yPosition += dy`. */
  datatype Op = Text(value: Json, size: nat, style: Style, indent: nat) | Gap(dy: nat)

  /** A new jsPDF document: one page, cursor at the top. */
  function Start(): Cursor {
    Cursor(Top, 1, [])
  }

  /** The height of a block: its line count times `size / 2.5`. */
  function Height(lineCount: nat, size: nat): (h: real)
    ensures h >= 0.0
    ensures lineCount == 0 || size == 0 <==> h == 0.0
  {
    lineCount as real * (size as real / 2.5)
  }

  function BlockHeight(b: Block): real {
    Height(|b.lines|, b.size)
  }

  /** `addText` writes only non-empty strings and silently skips anything
      else. */
  predicate Printable(v: Json) {
    v.JStr? && v.s != ""
  }

  /** The effect of one step on the writer. */
  function Place(c: Cursor, op: Op, pageWidth: real, split: Splitter): Cursor {
    match op
    case Gap(dy) => c.(y := c.y + dy as real)
    case Text(v, size, style, indent) =>
      if !Printable(v) then c
      else
        var lines := split(v.s, pageWidth - 2.0 * Margin - indent as real, size, style);
        var h := Height(|lines|, size);
        var page := if c.y + h > Bottom then c.page + 1 else c.page;
        var y := if c.y + h > Bottom then Top else c.y;
        Cursor(y + h + Spacing, page, c.blocks + [Block(page, Margin + indent as real, y, v.s, lines, size, style)])
  }

  /** A sequence of steps, in order. */
  function Layout(c: Cursor, ops: seq<Op>, pageWidth: real, split: Splitter): Cursor
    decreases |ops|
  {
    if ops == [] then c else Layout(Place(c, ops[0], pageWidth, split), ops[1..], pageWidth, split)
  }

  lemma {:induction false} LayoutAppend(c: Cursor, a: seq<Op>, b: seq<Op>, pageWidth: real, split: Splitter)
    ensures Layout(c, a + b, pageWidth, split) == Layout(Layout(c, a, pageWidth, split), b, pageWidth, split)
    decreases |a|
  {
    if a == [] {
      assert a + b == b;
    } else {
      assert (a + b)[0] == a[0] && (a + b)[1..] == a[1..] + b;
      LayoutAppend(Place(c, a[0], pageWidth, split), a[1..], b, pageWidth, split);
    }
  }

  /** Writing one more step after a prefix, the shape a loop follows. */
  lemma LayoutSnoc(c: Cursor, ops: seq<Op>, op: Op, pageWidth: real, split: Splitter)
    ensures Layout(c, ops + [op], pageWidth, split) == Place(Layout(c, ops, pageWidth, split), op, pageWidth, split)
  {
    LayoutAppend(c, ops, [op], pageWidth, split);
  }

  // ---------------------------------------------------------------------
  // What is written

  /** The texts the steps write, with the horizontal position of each, in
      order: the non-empty strings, at the margin plus their indent. */
  function Printed(ops: seq<Op>): seq<(string, real)>
    decreases |ops|
  {
    if ops == [] then []
    else
      var rest := Printed(ops[1..]);
      if ops[0].Text? && Printable(ops[0].value) then [(ops[0].value.s, Margin + ops[0].indent as real)] + rest else rest
  }

  lemma {:induction false} PrintedAppend(a: seq<Op>, b: seq<Op>)
    ensures Printed(a + b) == Printed(a) + Printed(b)
    decreases |a|
  {
    if a == [] {
      assert a + b == b;
    } else {
      assert (a + b)[0] == a[0] && (a + b)[1..] == a[1..] + b;
      PrintedAppend(a[1..], b);
    }
  }

  /** The text and position of every block, in order. */
  function Placed(blocks: seq<Block>): (r: seq<(string, real)>)
    ensures |r| == |blocks|
    ensures forall i :: 0 <= i < |blocks| ==> r[i] == (blocks[i].text, blocks[i].x)
  {
    seq(|blocks|, i requires 0 <= i < |blocks| => (blocks[i].text, blocks[i].x))
  }

  /** Layout loses no text and adds none: the blocks hold exactly the
      printable texts of the steps, in order, each at its indent. */
  lemma {:induction false} LayoutPrints(c: Cursor, ops: seq<Op>, pageWidth: real, split: Splitter)
    ensures Placed(Layout(c, ops, pageWidth, split).blocks) == Placed(c.blocks) + Printed(ops)
    decreases |ops|
  {
    if ops != [] {
      var c1 := Place(c, ops[0], pageWidth, split);
      LayoutPrints(c1, ops[1..], pageWidth, split);
      if ops[0].Text? && Printable(ops[0].value) {
        assert Placed(c1.blocks) == Placed(c.blocks) + [(ops[0].value.s, Margin + ops[0].indent as real)];
      }
    }
  }

  /** The indented entries, in order. */
  function Indented(ps: seq<(string, real)>): seq<string>
    decreases |ps|
  {
    if ps == [] then []
    else (if ps[0].1 > Margin then [ps[0].0] else []) + Indented(ps[1..])
  }

  lemma {:induction false} IndentedAppend(a: seq<(string, real)>, b: seq<(string, real)>)
    ensures Indented(a + b) == Indented(a) + Indented(b)
    decreases |a|
  {
    if a == [] {
      assert a + b == b;
    } else {
      assert (a + b)[0] == a[0] && (a + b)[1..] == a[1..] + b;
      IndentedAppend(a[1..], b);
    }
  }

  // ---------------------------------------------------------------------
  // Where it is written

  /** A block starts below the top margin and either ends above the bottom
      line or starts a page (a block taller than a page still overflows). */
  predicate Fits(b: Block) {
    b.y >= Top && (b.y + BlockHeight(b) <= Bottom || b.y == Top)
  }

  /** `b` comes after `a`: further down the same page, leaving the spacing,
      or at the top of the next page. */
  predicate Follows(a: Block, b: Block) {
    || (b.page == a.page && b.y >= a.y + BlockHeight(a) + Spacing)
    || (b.page == a.page + 1 && b.y == Top)
  }

  predicate WellPlaced(c: Cursor) {
    && c.y >= Top && c.page >= 1
    && (forall i :: 0 <= i < |c.blocks| ==> Fits(c.blocks[i]))
    && (forall i :: 0 < i < |c.blocks| ==> Follows(c.blocks[i - 1], c.blocks[i]))
    && (c.blocks == [] ==> c.page == 1)
    && (c.blocks != [] ==>
          var last := c.blocks[|c.blocks| - 1];
          c.page == last.page && c.y >= last.y + BlockHeight(last) + Spacing)
  }

  lemma PlaceWellPlaced(c: Cursor, op: Op, pageWidth: real, split: Splitter)
    requires WellPlaced(c)
    ensures WellPlaced(Place(c, op, pageWidth, split))
  {
    if op.Text? && Printable(op.value) {
      var d := Place(c, op, pageWidth, split);
      var b := d.blocks[|d.blocks| - 1];
      assert d.blocks[..|c.blocks|] == c.blocks;
      assert Fits(b);
      if c.blocks != [] {
        assert Follows(c.blocks[|c.blocks| - 1], b);
      }
    }
  }

  /** Every export lays its blocks out one after another down the pages,
      none starting above the top margin and none crossing the bottom line
      unless it starts a page. */
  lemma {:induction false} LayoutWellPlaced(c: Cursor, ops: seq<Op>, pageWidth: real, split: Splitter)
    requires WellPlaced(c)
    ensures WellPlaced(Layout(c, ops, pageWidth, split))
    decreases |ops|
  {
    if ops != [] {
      PlaceWellPlaced(c, ops[0], pageWidth, split);
      LayoutWellPlaced(Place(c, ops[0], pageWidth, split), ops[1..], pageWidth, split);
    }
  }

  /** A first block taller than the page leaves page one blank: the page
      break is taken even at the top of an empty page. */
  lemma TallFirstBlock(v: string, size: nat, style: Style, pageWidth: real, split: Splitter)
    requires v != "" && Top + Height(|split(v, pageWidth - 2.0 * Margin, size, style)|, size) > Bottom
    ensures var c := Place(Start(), Text(JStr(v), size, style, 0), pageWidth, split);
            |c.blocks| == 1 && c.blocks[0].page == 2 && c.blocks[0].y == Top
  {
  }

  /** The writer of one export: the jsPDF document and `yPosition`. */
  class PdfWriter {
    var y: real
    var page: nat
    var blocks: seq<Block>
    const pageWidth: real
    const split: Splitter

    function State(): Cursor
      reads this
    {
      Cursor(y, page, blocks)
    }

    constructor (pageWidth: real, split: Splitter)
      ensures State() == Start() && this.pageWidth == pageWidth && this.split == split
    {
      y, page, blocks := Top, 1, [];
      this.pageWidth, this.split := pageWidth, split;
    }

    /** `addText(text, size, style, indent)`. */
    method AddText(text: Json, size: nat, style: Style, indent: nat)
      modifies this
      ensures State() == Place(old(State()), Text(text, size, style, indent), pageWidth, split)
    {
      if !text.JStr? || text.s == "" {
        return;
      }
      var lines := split(text.s, pageWidth - 2.0 * Margin - indent as real, size, style);
      var h := Height(|lines|, size);
      if y + h > Bottom {
        page := page + 1;
        y := Top;
      }
      blocks := blocks + [Block(page, Margin + indent as real, y, text.s, lines, size, style)];
      y := y + h + Spacing;
    }

    /** `yPosition += dy`. */
    method Skip(dy: nat)
      modifies this
      ensures State() == Place(old(State()), Gap(dy), pageWidth, split)
    {
      y := y + dy as real;
    }
  }
}
