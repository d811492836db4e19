/** Markdown tables drawn with box characters. */
module TableRenderer {
  import opened Ansi
  import opened JsStrings
  import opened Sequences

  const GRAY := "90"
  const RESET := "0"

  datatype Text = Text(content: string)

  type Row = seq<Text>

  /** A line of the drawn table: a rule between rows, or the cells of a row. */
  datatype Line = Rule(left: char, mid: char, right: char) | Content(row: Row)

  function Max(a: nat, b: nat): nat {
    if a >= b then a else b
  }

  // ----- columns -----

  function ColumnCount(rows: seq<Row>): nat {
    if rows == [] then 0 else Max(ColumnCount(rows[..|rows| - 1]), |rows[|rows| - 1]|)
  }

  /** The trimmed text of a cell; a row may have fewer cells than the table has columns. */
  function CellText(row: Row, c: nat): string {
    Trim(if c < |row| then row[c].content else "")
  }

  function ColumnWidth(rows: seq<Row>, c: nat): nat {
    if rows == [] then 0 else Max(ColumnWidth(rows[..|rows| - 1], c), |CellText(rows[|rows| - 1], c)|)
  }

  function Widths(rows: seq<Row>): seq<nat> {
    seq(ColumnCount(rows), c requires 0 <= c => ColumnWidth(rows, c))
  }

  method CountColumns(rows: seq<Row>) returns (columns: nat)
    ensures columns == ColumnCount(rows)
  {
    columns := 0;
    for i := 0 to |rows|
      invariant columns == ColumnCount(rows[..i])
    {
      assert rows[..i + 1][..i] == rows[..i];
      columns := Max(columns, |rows[i]|);
    }
    assert rows[..|rows|] == rows;
  }

  method ColumnWidths(rows: seq<Row>) returns (widths: seq<nat>)
    ensures widths == Widths(rows)
  {
    var columns := CountColumns(rows);
    var colWidths := new nat[columns](_ => 0);
    for i := 0 to |rows|
      invariant forall c :: 0 <= c < columns ==> colWidths[c] == ColumnWidth(rows[..i], c)
    {
      NoWiderThanTheTable(rows, i);
      assert rows[..i + 1][..i] == rows[..i];
      Widen(colWidths, rows[i]);
    }
    assert rows[..|rows|] == rows;
    widths := colWidths[..];
  }

  method Widen(colWidths: array<nat>, row: Row)
    requires |row| <= colWidths.Length
    modifies colWidths
    ensures forall k :: 0 <= k < colWidths.Length ==> colWidths[k] == Max(old(colWidths[k]), |CellText(row, k)|)
  {
    for c := 0 to |row|
      invariant forall k :: 0 <= k < c ==> colWidths[k] == Max(old(colWidths[k]), |CellText(row, k)|)
      invariant forall k :: c <= k < colWidths.Length ==> colWidths[k] == old(colWidths[k])
    {
      colWidths[c] := Max(colWidths[c], |Trim(row[c].content)|);
    }
  }

  lemma {:induction false} NoWiderThanTheTable(rows: seq<Row>, i: nat)
    requires i < |rows|
    ensures |rows[i]| <= ColumnCount(rows)
    ensures forall c :: |CellText(rows[i], c)| <= ColumnWidth(rows, c)
  {
    if i < |rows| - 1 {
      NoWiderThanTheTable(rows[..|rows| - 1], i);
    }
  }

  // ----- lines -----

  function Repeat(c: char, n: nat): string {
    seq(n, _ => c)
  }

  /** The dashes of every column from `c` on, joined by `mid`. */
  function Dashes(widths: seq<nat>, mid: char, c: nat): string
    decreases |widths| - c
  {
    if c >= |widths| then ""
    else if c == |widths| - 1 then Repeat('─', widths[c] + 2)
    else Repeat('─', widths[c] + 2) + [mid] + Dashes(widths, mid, c + 1)
  }

  function HLine(widths: seq<nat>, left: char, mid: char, right: char): string {
    Sgr(GRAY) + ([left] + Dashes(widths, mid, 0) + [right]) + Sgr(RESET)
  }

  const BAR := Sgr(GRAY) + "│" + Sgr(RESET)

  function Padded(row: Row, c: nat, width: nat): string {
    var cell := CellText(row, c);
    " " + cell + Repeat(' ', if width >= |cell| then width - |cell| else 0) + " "
  }

  function JoinedCells(row: Row, widths: seq<nat>, c: nat): string
    decreases |widths| - c
  {
    if c >= |widths| then ""
    else if c == |widths| - 1 then Padded(row, c, widths[c])
    else Padded(row, c, widths[c]) + (BAR + JoinedCells(row, widths, c + 1))
  }

  function FormatRow(row: Row, widths: seq<nat>): string {
    BAR + (JoinedCells(row, widths, 0) + BAR)
  }

  /** A row of cells that hold nothing but dashes, colons and white space, and are not empty. */
  predicate IsSeparator(row: Row) {
    forall c :: 0 <= c < |row| ==>
      row[c].content != "" && forall k :: 0 <= k < |row[c].content| ==> SeparatorChar(row[c].content[k])
  }

  predicate SeparatorChar(c: char) {
    IsSpace(c) || c == '-' || c == ':'
  }

  const TOP := Rule('┌', '┬', '┐')
  const MIDDLE := Rule('├', '┼', '┤')
  const BOTTOM := Rule('└', '┴', '┘')

  function LineOf(row: Row): Line {
    if IsSeparator(row) then MIDDLE else Content(row)
  }

  function Drawn(line: Line, widths: seq<nat>): string {
    match line
    case Rule(left, mid, right) => HLine(widths, left, mid, right)
    case Content(row) => FormatRow(row, widths)
  }

  /** The lines of the table: a rule, one line for each row in order, and a rule. */
  function LineAt(rows: seq<Row>, i: nat): Line
    requires i < |rows| + 2
  {
    if i == 0 then TOP else if i == |rows| + 1 then BOTTOM else LineOf(rows[i - 1])
  }

  method RenderTable(rows: seq<Row>) returns (output: seq<Text>)
    ensures |output| == if rows == [] then 0 else |rows| + 2
    ensures forall i :: 0 <= i < |output| ==> output[i].content == Drawn(LineAt(rows, i), Widths(rows))
  {
    if rows == [] {
      return [];
    }
    var colWidths := ColumnWidths(rows);
    output := [Text(HLine(colWidths, '┌', '┬', '┐'))];
    for i := 0 to |rows|
      invariant |output| == i + 1
      invariant forall k :: 0 <= k <= i ==> output[k].content == Drawn(LineAt(rows, k), colWidths)
    {
      if IsSeparator(rows[i]) {
        output := output + [Text(HLine(colWidths, '├', '┼', '┤'))];
        continue;
      }
      output := output + [Text(FormatRow(rows[i], colWidths))];
    }
    output := output + [Text(HLine(colWidths, '└', '┴', '┘'))];
  }

  // ----- what the terminal shows -----

  /** The visible position of the border before column `c`, and after the last one. */
  function Border(widths: seq<nat>, c: nat): (p: nat)
    requires c <= |widths|
  {
    if c == 0 then 0 else Border(widths, c - 1) + widths[c - 1] + 3
  }

  predicate IsBorder(c: char) {
    c in "│┌┬┐├┼┤└┴┘"
  }

  /** Columns as the terminal shows them, each followed by its border. */
  datatype Blocks = End | Block(text: string, border: char, rest: Blocks)

  function Laid(blocks: Blocks): string {
    match blocks
    case End => ""
    case Block(text, border, rest) => text + [border] + Laid(rest)
  }

  function BlockAt(blocks: Blocks, k: nat): (r: string) {
    match blocks
    case End => ""
    case Block(text, _, rest) => if k == 0 then text else BlockAt(rest, k - 1)
  }

  /** The blocks fill the columns from `c` on. */
  predicate Fits(blocks: Blocks, widths: seq<nat>, c: nat)
    decreases blocks
  {
    match blocks
    case End => c == |widths|
    case Block(text, border, rest) =>
      c < |widths| && |text| == widths[c] + 2 && IsBorder(border) && Fits(rest, widths, c + 1)
  }

  lemma {:induction false} BordersGrow(widths: seq<nat>, c: nat, k: nat)
    requires c <= k <= |widths|
    ensures Border(widths, c) + 3 * (k - c) <= Border(widths, k)
  {
    if c < k {
      BordersGrow(widths, c, k - 1);
    }
  }

  lemma {:induction false} LaidOut(blocks: Blocks, widths: seq<nat>, c: nat)
    requires c <= |widths| && Fits(blocks, widths, c)
    ensures |Laid(blocks)| == Border(widths, |widths|) - Border(widths, c)
  {
    if blocks.Block? {
      LaidOut(blocks.rest, widths, c + 1);
    }
  }

  lemma {:induction false} LaidAt(blocks: Blocks, widths: seq<nat>, c: nat, k: nat)
    requires c <= k < |widths| && Fits(blocks, widths, c)
    ensures var start := Border(widths, k) - Border(widths, c);
            0 <= start && BlockStandsAt(Laid(blocks), start, BlockAt(blocks, k - c), widths[k] + 2)
    decreases k - c
  {
    BordersGrow(widths, c, k);
    var start := Border(widths, k) - Border(widths, c);
    if k > c {
      LaidAt(blocks.rest, widths, c + 1, k);
      BordersGrow(widths, c + 1, k);
      var skipped := blocks.text + [blocks.border];
      assert start - |skipped| == Border(widths, k) - Border(widths, c + 1);
      BlockBehind(skipped, Laid(blocks.rest), start, BlockAt(blocks, k - c), widths[k] + 2);
    } else {
      InFront(blocks.text, blocks.border, Laid(blocks.rest));
    }
  }

  /** `text`, of length `n`, stands in `s` at position `start`, with a border behind it. */
  predicate BlockStandsAt(s: string, start: nat, text: string, n: nat) {
    start + n < |s| && s[start..start + n] == text && IsBorder(s[start + n])
  }

  lemma BlockBehind(s: string, t: string, start: nat, text: string, n: nat)
    requires |s| <= start && BlockStandsAt(t, start - |s|, text, n)
    ensures BlockStandsAt(s + t, start, text, n)
  {
    Behind(s, t, start, start + n);
  }

  lemma InFront(s: string, c: char, t: string)
    ensures (s + [c] + t)[0..|s|] == s
    ensures (s + [c] + t)[|s|] == c
  {
  }

  lemma Behind(s: string, t: string, start: nat, end: nat)
    requires |s| <= start <= end < |s| + |t|
    ensures (s + t)[start..end] == t[start - |s|..end - |s|]
    ensures (s + t)[end] == t[end - |s|]
  {
  }

  // ----- erasing a rule -----

  function RuleBlocks(widths: seq<nat>, mid: char, right: char, c: nat): (blocks: Blocks)
    ensures IsBorder(mid) && IsBorder(right) && c <= |widths| ==> Fits(blocks, widths, c)
    decreases |widths| - c
  {
    if c >= |widths| then End
    else
      Block(Repeat('─', widths[c] + 2), if c == |widths| - 1 then right else mid,
            RuleBlocks(widths, mid, right, c + 1))
  }

  lemma {:induction false} DashesAreLaid(widths: seq<nat>, mid: char, right: char, c: nat)
    requires c < |widths|
    ensures Dashes(widths, mid, c) + [right] == Laid(RuleBlocks(widths, mid, right, c))
    decreases |widths| - c
  {
    var dashes := Repeat('─', widths[c] + 2);
    if c < |widths| - 1 {
      DashesAreLaid(widths, mid, right, c + 1);
      Regroup(dashes + [mid], Dashes(widths, mid, c + 1), [right]);
    } else {
      assert Laid(RuleBlocks(widths, mid, right, c)) == dashes + [right] + Laid(End);
    }
  }

  lemma {:induction false} DashesArePlain(widths: seq<nat>, mid: char, c: nat)
    requires mid != ESC
    ensures NoEscape(Dashes(widths, mid, c))
    decreases |widths| - c
  {
    if c < |widths| - 1 {
      DashesArePlain(widths, mid, c + 1);
    }
  }

  lemma ErasedRule(widths: seq<nat>, left: char, mid: char, right: char)
    requires left != ESC && mid != ESC && right != ESC
    ensures Erased(HLine(widths, left, mid, right)) == [left] + Dashes(widths, mid, 0) + [right]
  {
    var text := [left] + Dashes(widths, mid, 0) + [right];
    DashesArePlain(widths, mid, 0);
    Regroup(Sgr(GRAY), text, Sgr(RESET));
    ErasedStyle(GRAY, text + Sgr(RESET));
    ErasedPlain(text, Sgr(RESET));
    ErasedStyle(RESET, "");
    assert Sgr(RESET) + "" == Sgr(RESET) && text + "" == text;
  }

  // ----- erasing a row -----

  function Padding(width: nat, cell: string): string {
    Repeat(' ', if width >= |cell| then width - |cell| else 0)
  }

  /** What a cell shows between its borders: its text without style sequences, and the padding. */
  function ShownCell(row: Row, c: nat, width: nat): string {
    " " + Erased(CellText(row, c)) + Padding(width, CellText(row, c)) + " "
  }

  function ShownWidth(row: Row, c: nat, width: nat): nat {
    |Erased(CellText(row, c))| + |Padding(width, CellText(row, c))|
  }

  /** The widths of the columns as this line shows them. */
  function ShownWidths(line: Line, widths: seq<nat>): seq<nat> {
    match line
    case Rule(_, _, _) => widths
    case Content(row) => seq(|widths|, c requires 0 <= c < |widths| => ShownWidth(row, c, widths[c]))
  }

  /** The padding space behind a cell keeps its sequences from reaching further. */
  lemma ErasedPadded(row: Row, c: nat, width: nat, rest: string)
    ensures Erased(Padded(row, c, width) + rest) == ShownCell(row, c, width) + Erased(rest)
  {
    var cell := CellText(row, c);
    var spaces := Padding(width, cell);
    var tail := spaces + " " + rest;
    CellApart(cell, spaces, rest);
    ErasedPlain(" ", cell + tail);
    assert tail[0] == ' ';
    ErasedUpTo(cell, tail);
    ErasedPlain(spaces + " ", rest);
    CellApart(Erased(cell), spaces, Erased(rest));
  }

  lemma CellApart(cell: string, spaces: string, rest: string)
    ensures " " + cell + spaces + " " + rest == " " + (cell + (spaces + " " + rest))
  {
    Regroup(" " + cell + spaces, " ", rest);
    Regroup(" " + cell, spaces, " " + rest);
    Regroup(" ", cell, spaces + (" " + rest));
    Regroup(spaces, " ", rest);
  }

  function RowBlocks(row: Row, widths: seq<nat>, c: nat): (blocks: Blocks)
    ensures c <= |widths| ==> Fits(blocks, ShownWidths(Content(row), widths), c)
    ensures forall k :: c <= k < |widths| ==> BlockAt(blocks, k - c) == ShownCell(row, k, widths[k])
    decreases |widths| - c
  {
    if c >= |widths| then End
    else
      var rest := RowBlocks(row, widths, c + 1);
      Block(ShownCell(row, c, widths[c]), '│', rest)
  }

  lemma ErasedBar(rest: string)
    ensures Erased(BAR + rest) == "│" + Erased(rest)
  {
    assert BAR + rest == Sgr(GRAY) + ("│" + (Sgr(RESET) + rest));
    ErasedStyle(GRAY, "│" + (Sgr(RESET) + rest));
    ErasedPlain("│", Sgr(RESET) + rest);
    ErasedStyle(RESET, rest);
  }

  lemma {:induction false} ErasedCells(row: Row, widths: seq<nat>, c: nat)
    requires c < |widths|
    ensures Erased(JoinedCells(row, widths, c) + BAR) == Laid(RowBlocks(row, widths, c))
    decreases |widths| - c
  {
    var cell := Padded(row, c, widths[c]);
    var shown := ShownCell(row, c, widths[c]);
    if c < |widths| - 1 {
      var rest := JoinedCells(row, widths, c + 1);
      ErasedCells(row, widths, c + 1);
      Regroup(cell, BAR + rest, BAR);
      Regroup(BAR, rest, BAR);
      ErasedPadded(row, c, widths[c], BAR + (rest + BAR));
      ErasedBar(rest + BAR);
      Regroup(shown, "│", Erased(rest + BAR));
    } else {
      ErasedPadded(row, c, widths[c], BAR);
      ErasedBar("");
      assert BAR + "" == BAR;
      assert Laid(RowBlocks(row, widths, c)) == shown + ['│'] + Laid(End);
    }
  }

  lemma ErasedRow(row: Row, widths: seq<nat>)
    ensures Erased(FormatRow(row, widths)) == if widths == [] then "││" else "│" + Laid(RowBlocks(row, widths, 0))
  {
    ErasedBar(JoinedCells(row, widths, 0) + BAR);
    if widths == [] {
      ErasedBar("");
      assert BAR + "" == BAR && "" + BAR == BAR;
    } else {
      ErasedCells(row, widths, 0);
    }
  }

  // ----- every line -----

  predicate BoxLine(line: Line) {
    line.Rule? ==> line == TOP || line == MIDDLE || line == BOTTOM
  }

  lemma LineIsBlocks(line: Line, widths: seq<nat>) returns (first: char, blocks: Blocks)
    requires BoxLine(line) && widths != []
    ensures Erased(Drawn(line, widths)) == [first] + Laid(blocks)
    ensures IsBorder(first) && Fits(blocks, ShownWidths(line, widths), 0)
    ensures line.Content? ==> forall k :: 0 <= k < |widths| ==> BlockAt(blocks, k) == ShownCell(line.row, k, widths[k])
  {
    match line
    case Rule(left, mid, right) =>
      ErasedRule(widths, left, mid, right);
      DashesAreLaid(widths, mid, right, 0);
      Regroup([left], Dashes(widths, mid, 0), [right]);
      first, blocks := left, RuleBlocks(widths, mid, right, 0);
    case Content(row) =>
      ErasedRow(row, widths);
      first, blocks := '│', RowBlocks(row, widths, 0);
      forall k | 0 <= k < |widths| ensures BlockAt(blocks, k) == ShownCell(row, k, widths[k]) {
        assert BlockAt(blocks, k - 0) == ShownCell(row, k, widths[k]);
      }
  }

  function TableWidth(widths: seq<nat>): nat {
    if widths == [] then 2 else Border(widths, |widths|) + 1
  }

  lemma BordersOf(first: char, blocks: Blocks, widths: seq<nat>, c: nat)
    requires IsBorder(first) && Fits(blocks, widths, 0) && c <= |widths|
    ensures |Laid(blocks)| == Border(widths, |widths|)
    ensures Border(widths, c) <= |Laid(blocks)| && IsBorder(([first] + Laid(blocks))[Border(widths, c)])
  {
    LaidOut(blocks, widths, 0);
    if c > 0 {
      LaidAt(blocks, widths, 0, c - 1);
      assert ([first] + Laid(blocks))[Border(widths, c)] == Laid(blocks)[Border(widths, c) - 1];
    }
  }

  lemma ColumnOf(first: char, blocks: Blocks, widths: seq<nat>, c: nat)
    requires Fits(blocks, widths, 0) && c < |widths|
    ensures Border(widths, c) + 1 <= Border(widths, c + 1) <= |Laid(blocks)|
    ensures ([first] + Laid(blocks))[Border(widths, c) + 1..Border(widths, c + 1)] == BlockAt(blocks, c)
  {
    LaidAt(blocks, widths, 0, c);
    Behind([first], Laid(blocks), Border(widths, c) + 1, Border(widths, c + 1));
  }

  /** `shown` is as wide as columns of these widths, and has a border at each of their edges. */
  ghost predicate Framed(shown: string, widths: seq<nat>) {
    && |shown| == TableWidth(widths)
    && (widths != [] ==> forall c :: 0 <= c <= |widths| ==>
          Border(widths, c) < |shown| && IsBorder(shown[Border(widths, c)]))
  }

  /** Every line is framed by the columns as it shows them, whatever its cells contain. */
  lemma LinesAreFramed(line: Line, widths: seq<nat>)
    requires BoxLine(line)
    ensures Framed(Erased(Drawn(line, widths)), ShownWidths(line, widths))
  {
    if widths == [] {
      NoColumns(line);
    } else {
      var first, blocks := LineIsBlocks(line, widths);
      FramedOf(first, blocks, ShownWidths(line, widths));
    }
  }

  lemma FramedOf(first: char, blocks: Blocks, widths: seq<nat>)
    requires IsBorder(first) && Fits(blocks, widths, 0) && widths != []
    ensures Framed([first] + Laid(blocks), widths)
  {
    BordersOf(first, blocks, widths, 0);
    forall c | 0 <= c <= |widths|
      ensures Border(widths, c) < |[first] + Laid(blocks)| && IsBorder(([first] + Laid(blocks))[Border(widths, c)])
    {
      BordersOf(first, blocks, widths, c);
    }
  }

  lemma NoColumns(line: Line)
    requires BoxLine(line)
    ensures |Erased(Drawn(line, []))| == 2
    ensures ShownWidths(line, []) == []
  {
    match line
    case Rule(left, mid, right) => ErasedRule([], left, mid, right);
    case Content(row) => ErasedRow(row, []);
  }

  /**
   Between its borders each column of a row shows the trimmed cell without its style
   sequences, padded with spaces.
   */
  lemma CellsAreShown(row: Row, widths: seq<nat>, c: nat)
    requires c < |widths|
    ensures var shown := Erased(Drawn(Content(row), widths));
            var columns := ShownWidths(Content(row), widths);
            && Border(columns, c) + 1 <= Border(columns, c + 1) <= |shown|
            && shown[Border(columns, c) + 1..Border(columns, c + 1)]
               == " " + Erased(CellText(row, c)) + Padding(widths[c], CellText(row, c)) + " "
  {
    var first, blocks := LineIsBlocks(Content(row), widths);
    ColumnOf(first, blocks, ShownWidths(Content(row), widths), c);
    assert BlockAt(blocks, c) == ShownCell(row, c, widths[c]);
  }

  // ----- whole tables -----

  /** The lines are aligned: all as wide as the table, with borders at the same positions. */
  ghost predicate Aligned(rows: seq<Row>) {
    forall i :: 0 <= i < |rows| + 2 ==> Framed(Erased(Drawn(LineAt(rows, i), Widths(rows))), Widths(rows))
  }

  ghost predicate SameWidth(rows: seq<Row>) {
    forall i :: 0 <= i < |rows| + 2 ==> |Erased(Drawn(LineAt(rows, i), Widths(rows)))| == TableWidth(Widths(rows))
  }

  /** No cell that is shown contains a style sequence of its own. */
  ghost predicate PlainCells(row: Row) {
    forall c :: 0 <= c < |row| ==> NoStyle(CellText(row, c))
  }

  ghost predicate PlainRows(rows: seq<Row>) {
    forall r :: 0 <= r < |rows| && !IsSeparator(rows[r]) ==> PlainCells(rows[r])
  }

  lemma {:induction false} BordersCompare(shown: seq<nat>, widths: seq<nat>, n: nat)
    requires n <= |shown| == |widths| && forall c :: 0 <= c < |shown| ==> shown[c] <= widths[c]
    ensures Border(shown, n) <= Border(widths, n)
    ensures Border(shown, n) == Border(widths, n) <==> forall c :: 0 <= c < n ==> shown[c] == widths[c]
  {
    if n > 0 {
      BordersCompare(shown, widths, n - 1);
    }
  }

  /** A column is shown narrower than the table has it iff its cell contains a style sequence. */
  lemma ShownWidthIff(row: Row, c: nat, width: nat)
    requires |CellText(row, c)| <= width
    ensures ShownWidth(row, c, width) <= width
    ensures ShownWidth(row, c, width) == width <==> NoStyle(CellText(row, c))
  {
    ErasedWholeIff(CellText(row, c));
  }

  lemma BlankIsPlain(row: Row, c: nat)
    requires c >= |row|
    ensures NoStyle(CellText(row, c))
  {
    assert Trim("") == "";
  }

  lemma RowWidthIff(row: Row, widths: seq<nat>)
    requires |row| <= |widths| && forall c :: 0 <= c < |widths| ==> |CellText(row, c)| <= widths[c]
    ensures TableWidth(ShownWidths(Content(row), widths)) == TableWidth(widths) <==> PlainCells(row)
    ensures PlainCells(row) ==> ShownWidths(Content(row), widths) == widths
  {
    var shown := ShownWidths(Content(row), widths);
    forall c | 0 <= c < |widths|
      ensures shown[c] <= widths[c] && (shown[c] == widths[c] <==> NoStyle(CellText(row, c)))
      ensures c >= |row| ==> NoStyle(CellText(row, c))
    {
      ShownWidthIff(row, c, widths[c]);
      if c >= |row| {
        BlankIsPlain(row, c);
      }
    }
    BordersCompare(shown, widths, |widths|);
  }

  lemma RowFits(rows: seq<Row>, r: nat)
    requires r < |rows|
    ensures |rows[r]| <= |Widths(rows)|
    ensures forall c :: 0 <= c < |Widths(rows)| ==> |CellText(rows[r], c)| <= Widths(rows)[c]
  {
    NoWiderThanTheTable(rows, r);
  }

  lemma LineIsBox(rows: seq<Row>, i: nat)
    requires i < |rows| + 2
    ensures BoxLine(LineAt(rows, i))
  {
  }

  lemma LineAligns(rows: seq<Row>, i: nat)
    requires PlainRows(rows) && i < |rows| + 2
    ensures Framed(Erased(Drawn(LineAt(rows, i), Widths(rows))), Widths(rows))
  {
    LineIsBox(rows, i);
    LinesAreFramed(LineAt(rows, i), Widths(rows));
    if 0 < i <= |rows| && !IsSeparator(rows[i - 1]) {
      RowFits(rows, i - 1);
      RowWidthIff(rows[i - 1], Widths(rows));
    }
  }

  lemma StyledRowIsNarrow(rows: seq<Row>, r: nat)
    requires r < |rows| && !IsSeparator(rows[r]) && !PlainCells(rows[r])
    ensures |Erased(Drawn(LineAt(rows, r + 1), Widths(rows)))| != TableWidth(Widths(rows))
  {
    LinesAreFramed(Content(rows[r]), Widths(rows));
    RowFits(rows, r);
    RowWidthIff(rows[r], Widths(rows));
  }

  /**
   All lines of a table have the same visible width, and then the same columns hold
   their borders, iff no shown cell contains a style sequence of its own.
   */
  lemma TableAlignsIff(rows: seq<Row>)
    ensures SameWidth(rows) <==> PlainRows(rows)
    ensures Aligned(rows) <==> PlainRows(rows)
  {
    if PlainRows(rows) {
      forall i | 0 <= i < |rows| + 2
        ensures Framed(Erased(Drawn(LineAt(rows, i), Widths(rows))), Widths(rows))
      {
        LineAligns(rows, i);
      }
    } else {
      var r :| 0 <= r < |rows| && !IsSeparator(rows[r]) && !PlainCells(rows[r]);
      StyledRowIsNarrow(rows, r);
      assert !SameWidth(rows) by {
        assert 0 <= r + 1 < |rows| + 2;
      }
    }
  }

  /** `text` stands in `shown` from position `p` on, and does not end it. */
  predicate StandsAt(shown: string, p: nat, text: string) {
    p + |text| < |shown| && shown[p..p + |text|] == text
  }

  /** The line shows `text` at the left of column `c`, as it shows its columns. */
  ghost predicate ShowsInColumn(line: Line, widths: seq<nat>, c: nat, text: string) {
    c < |widths| && StandsAt(Erased(Drawn(line, widths)), Border(ShownWidths(line, widths), c) + 2, text)
  }

  /**
   A row that is not a separator shows each of its cells in full, without style
   sequences, in the column of the cell: no cell is dropped, cut or moved.
   */
  lemma RowsAreShown(rows: seq<Row>, i: nat, c: nat)
    requires i < |rows| && !IsSeparator(rows[i]) && c < |rows[i]|
    ensures c < |Widths(rows)|
    ensures ShowsInColumn(LineAt(rows, i + 1), Widths(rows), c, Erased(CellText(rows[i], c)))
  {
    RowFits(rows, i);
    CellIsShown(rows[i], Widths(rows), c);
    RowIsContent(rows, i);
  }

  lemma RowIsContent(rows: seq<Row>, i: nat)
    requires i < |rows| && !IsSeparator(rows[i])
    ensures LineAt(rows, i + 1) == Content(rows[i])
  {
  }

  lemma CellIsShown(row: Row, widths: seq<nat>, c: nat)
    requires c < |widths|
    ensures ShowsInColumn(Content(row), widths, c, Erased(CellText(row, c)))
  {
    CellsAreShown(row, widths, c);
    var shown, columns := Erased(Drawn(Content(row), widths)), ShownWidths(Content(row), widths);
    var start, end := Border(columns, c) + 1, Border(columns, c + 1);
    var text, padding := Erased(CellText(row, c)), Padding(widths[c], CellText(row, c));
    InTheMiddle(shown, start, end, text, padding);
    assert StandsAt(shown, Border(columns, c) + 2, text);
  }

  lemma InTheMiddle(s: string, start: nat, end: nat, text: string, padding: string)
    requires start <= end <= |s| && s[start..end] == " " + text + padding + " "
    ensures StandsAt(s, start + 1, text)
  {
    var part := s[start..end];
    assert part[1..1 + |text|] == text;
    PartOfPart(s, start, end, 1, 1 + |text|);
  }

  lemma PartOfPart(s: string, start: nat, end: nat, from: nat, to: nat)
    requires start <= end <= |s| && from <= to <= end - start
    ensures s[start..end][from..to] == s[start + from..start + to]
  {
    forall k | 0 <= k < to - from ensures s[start..end][from..to][k] == s[start + from..start + to][k] {
      assert s[start..end][from + k] == s[start + from + k];
    }
  }

  // ----- which rows are rules, and what they look like -----

  /** A row is drawn as cells iff some cell is empty or holds a character other than a dash, a colon or white space. */
  lemma ContentIff(rows: seq<Row>, i: nat)
    requires i < |rows|
    ensures LineAt(rows, i + 1) == Content(rows[i]) <==>
              exists c :: 0 <= c < |rows[i]| && HasText(rows[i][c].content)
    ensures LineAt(rows, i + 1) != Content(rows[i]) ==> LineAt(rows, i + 1) == MIDDLE
  {
    var row := rows[i];
    if !IsSeparator(row) {
      var c :| 0 <= c < |row| && !(row[c].content != ""
        && forall k :: 0 <= k < |row[c].content| ==> SeparatorChar(row[c].content[k]));
      assert HasText(row[c].content);
    }
  }

  ghost predicate HasText(s: string) {
    s == "" || exists k :: 0 <= k < |s| && !IsSpace(s[k]) && s[k] != '-' && s[k] != ':'
  }

  /** With one such cell, every cell of the row is shown in its column. */
  lemma RowWithTextIsShown(rows: seq<Row>, i: nat, text: nat, c: nat)
    requires i < |rows| && text < |rows[i]| && HasText(rows[i][text].content) && c < |rows[i]|
    ensures c < |Widths(rows)|
    ensures ShowsInColumn(LineAt(rows, i + 1), Widths(rows), c, Erased(CellText(rows[i], c)))
  {
    ContentIff(rows, i);
    RowsAreShown(rows, i, c);
  }

  /** There are as many columns as the longest row has cells, and each is as wide as its widest cell. */
  lemma {:induction false} WidthsAreAttained(rows: seq<Row>, c: nat)
    ensures rows != [] ==> exists i :: 0 <= i < |rows| && ColumnCount(rows) == |rows[i]|
    ensures ColumnWidth(rows, c) == 0
            || exists i :: 0 <= i < |rows| && ColumnWidth(rows, c) == |CellText(rows[i], c)|
  {
    if rows != [] {
      var front, last := rows[..|rows| - 1], rows[|rows| - 1];
      WidthsAreAttained(front, c);
      if front == [] || ColumnCount(rows) == |last| {
        assert ColumnCount(rows) == |rows[|rows| - 1]|;
      } else {
        var i :| 0 <= i < |front| && ColumnCount(front) == |front[i]|;
        assert rows[i] == front[i];
      }
      if ColumnWidth(rows, c) == |CellText(last, c)| {
        assert ColumnWidth(rows, c) == |CellText(rows[|rows| - 1], c)|;
      } else if ColumnWidth(front, c) != 0 {
        var i :| 0 <= i < |front| && ColumnWidth(front, c) == |CellText(front[i], c)|;
        assert rows[i] == front[i];
      }
    }
  }

  function BorderBehind(blocks: Blocks, k: nat): char {
    match blocks
    case End => '│'
    case Block(_, border, rest) => if k == 0 then border else BorderBehind(rest, k - 1)
  }

  lemma {:induction false} LaidBorder(blocks: Blocks, widths: seq<nat>, c: nat, k: nat)
    requires c <= k < |widths| && Fits(blocks, widths, c)
    ensures var p := Border(widths, k + 1) - Border(widths, c) - 1;
            0 <= p < |Laid(blocks)| && Laid(blocks)[p] == BorderBehind(blocks, k - c)
    decreases k - c
  {
    var text := blocks.text + [blocks.border];
    if k > c {
      LaidBorder(blocks.rest, widths, c + 1, k);
      BordersGrow(widths, c + 1, k);
      var p := Border(widths, k + 1) - Border(widths, c) - 1;
      assert |text| == Border(widths, c + 1) - Border(widths, c);
      assert Laid(blocks)[p] == Laid(blocks.rest)[p - |text|];
    } else {
      InFront(blocks.text, blocks.border, Laid(blocks.rest));
    }
  }

  lemma {:induction false} RuleBorders(widths: seq<nat>, mid: char, right: char, c: nat, k: nat)
    requires c <= k < |widths|
    ensures BorderBehind(RuleBlocks(widths, mid, right, c), k - c) == if k == |widths| - 1 then right else mid
    ensures BlockAt(RuleBlocks(widths, mid, right, c), k - c) == Repeat('─', widths[k] + 2)
    decreases k - c
  {
    if k > c {
      RuleBorders(widths, mid, right, c + 1, k);
    }
  }

  /** What is shown is the rule in column `c`: its first corner, dashes, and its crossing or its last corner. */
  predicate ShowsRule(shown: string, line: Line, widths: seq<nat>, c: nat)
    requires line.Rule? && c < |widths|
  {
    && Border(widths, c) + 1 <= Border(widths, c + 1) < |shown| && shown[0] == line.left
    && shown[Border(widths, c) + 1..Border(widths, c + 1)] == Repeat('─', widths[c] + 2)
    && shown[Border(widths, c + 1)] == if c == |widths| - 1 then line.right else line.mid
  }

  lemma LaidIsRule(line: Line, blocks: Blocks, widths: seq<nat>, c: nat)
    requires BoxLine(line) && line.Rule? && c < |widths| && Fits(blocks, widths, 0)
    requires BlockAt(blocks, c) == Repeat('─', widths[c] + 2)
    requires BorderBehind(blocks, c) == if c == |widths| - 1 then line.right else line.mid
    ensures ShowsRule([line.left] + Laid(blocks), line, widths, c)
  {
    LaidIsShown(line.left, blocks, widths, c);
  }

  lemma RuleFits(line: Line, widths: seq<nat>, c: nat)
    requires BoxLine(line) && line.Rule? && c < |widths|
    ensures var blocks := RuleBlocks(widths, line.mid, line.right, 0);
            && Fits(blocks, widths, 0) && BlockAt(blocks, c) == Repeat('─', widths[c] + 2)
            && BorderBehind(blocks, c) == if c == |widths| - 1 then line.right else line.mid
  {
    RuleBorders(widths, line.mid, line.right, 0, c);
    assert c - 0 == c;
  }

  /** A rule of the table shows its corners, its crossings at the borders of the columns, and dashes between them. */
  lemma RulesAreDrawn(line: Line, widths: seq<nat>, c: nat)
    requires BoxLine(line) && line.Rule? && c < |widths|
    ensures ShowsRule(Erased(Drawn(line, widths)), line, widths, c)
  {
    RuleIsLaid(line, widths);
    RuleFits(line, widths, c);
    LaidIsRule(line, RuleBlocks(widths, line.mid, line.right, 0), widths, c);
  }

  lemma LaidIsShown(first: char, blocks: Blocks, widths: seq<nat>, c: nat)
    requires Fits(blocks, widths, 0) && c < |widths|
    ensures var shown := [first] + Laid(blocks);
            && Border(widths, c) + 1 <= Border(widths, c + 1) < |shown| && shown[0] == first
            && shown[Border(widths, c) + 1..Border(widths, c + 1)] == BlockAt(blocks, c)
            && shown[Border(widths, c + 1)] == BorderBehind(blocks, c)
  {
    ColumnOf(first, blocks, widths, c);
    LaidBorder(blocks, widths, 0, c);
    BorderOfLine(first, Laid(blocks), Border(widths, c + 1));
  }

  lemma RuleIsLaid(line: Line, widths: seq<nat>)
    requires BoxLine(line) && line.Rule? && widths != []
    ensures Erased(Drawn(line, widths)) == [line.left] + Laid(RuleBlocks(widths, line.mid, line.right, 0))
  {
    ErasedRule(widths, line.left, line.mid, line.right);
    DashesAreLaid(widths, line.mid, line.right, 0);
    Regroup([line.left], Dashes(widths, line.mid, 0), [line.right]);
  }

  lemma BorderOfLine(first: char, rest: string, p: nat)
    requires 0 < p <= |rest|
    ensures ([first] + rest)[0] == first && ([first] + rest)[p] == rest[p - 1]
  {
  }

  // ----- a table that does not align -----

  const RED_X := Sgr("31") + "X"

  lemma RedIsTrimmed()
    ensures Trim(RED_X) == RED_X && |RED_X| == 6
    ensures Erased(RED_X) == "X" && !NoStyle(RED_X)
  {
    assert RED_X[0] == ESC && RED_X[5] == 'X';
    ErasedStyle("31", "X");
    ErasedPlain("X", "");
    assert "X" + "" == "X";
    ErasedWholeIff(RED_X);
  }

  /** One red letter: a row of visible width 5 between rules of width 10. */
  lemma RedCellBreaksTheTable(rows: seq<Row>)
    requires rows == [[Text(RED_X)]]
    ensures |Erased(Drawn(LineAt(rows, 0), Widths(rows)))| == 10
    ensures |Erased(Drawn(LineAt(rows, 1), Widths(rows)))| == 5
    ensures !SameWidth(rows)
  {
    var row := [Text(RED_X)];
    RedWidths(rows, row);
    LinesAreFramed(TOP, [6]);
    LinesAreFramed(Content(row), [6]);
    assert Border([6], 1) == 9 && Border([1], 1) == 4;
  }

  lemma RedWidths(rows: seq<Row>, row: Row)
    requires rows == [row] && row == [Text(RED_X)]
    ensures Widths(rows) == [6] && LineAt(rows, 1) == Content(row) && ShownWidths(Content(row), [6]) == [1]
  {
    RedIsTrimmed();
    assert rows[0] == row && rows[..0] == [] && CellText(row, 0) == RED_X;
    assert ColumnCount(rows) == 1 && ColumnWidth(rows, 0) == 6;
    assert !SeparatorChar(RED_X[5]);
  }
}
