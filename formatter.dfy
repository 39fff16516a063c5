/**
 * The terminal report: display width with East-Asian wide characters,
 * width-aware centring, and the fixed list of report lines joined by
 * newlines. Whether a character is Wide or Fullwidth is the caller's
 * `isWide` classification (the Unicode East Asian Width table).
 */
module Formatter {
  import opened Text
  import opened CostModel

  function CharWidth(isWide: char -> bool, c: char): nat
  {
    if isWide(c) then 2 else 1
  }

  /** The display width of t: 2 columns per wide character, 1 per other character. */
  function DisplayWidth(isWide: char -> bool, t: string): (w: nat)
    ensures |t| <= w <= 2 * |t|
  {
    if t == [] then 0 else DisplayWidth(isWide, t[..|t| - 1]) + CharWidth(isWide, t[|t| - 1])
  }

  /** get_display_width: accumulates the width character by character. */
  method GetDisplayWidth(isWide: char -> bool, text: string) returns (width: nat)
    ensures width == DisplayWidth(isWide, text)
  {
    width := 0;
    for i := 0 to |text|
      invariant width == DisplayWidth(isWide, text[..i])
    {
      assert text[..i + 1][..i] == text[..i];
      if isWide(text[i]) {
        width := width + 2;
      } else {
        width := width + 1;
      }
    }
    assert text[..|text|] == text;
  }

  /** Width is additive over concatenation. */
  lemma {:induction false} WidthConcat(isWide: char -> bool, a: string, b: string)
    ensures DisplayWidth(isWide, a + b) == DisplayWidth(isWide, a) + DisplayWidth(isWide, b)
    decreases |b|
  {
    if b == [] {
      assert a + b == a;
    } else {
      var n := |b| - 1;
      assert (a + b)[..|a + b| - 1] == a + b[..n];
      WidthConcat(isWide, a, b[..n]);
    }
  }

  lemma WidthExamples(isWide: char -> bool)
    requires !isWide('A') && !isWide('B') && isWide('中')
    ensures DisplayWidth(isWide, "A") == 1
    ensures DisplayWidth(isWide, "中") == 2
    ensures DisplayWidth(isWide, "A中B") == 4
  {
    assert "A"[..0] == [];
    assert "中"[..0] == [];
    assert "A中B"[..2] == "A中";
    assert "A中"[..1] == "A";
  }

  /** A run of n narrow spaces is n columns wide. */
  lemma {:induction false} SpacesWidth(isWide: char -> bool, n: int)
    requires !isWide(' ')
    ensures DisplayWidth(isWide, Repeat(' ', n)) == Max(n, 0)
    decreases Max(n, 0)
  {
    if n > 0 {
      SpacesWidth(isWide, n - 1);
      WidthConcat(isWide, [' '], Repeat(' ', n - 1));
      assert [' '][..0] == [];
    }
  }

  /**
   * center_text: (totalWidth - width) // 2 spaces on each side (Dafny's
   * division by 2 floors like Python's //); `" " * negative` is "".
   */
  function CenterText(isWide: char -> bool, text: string, totalWidth: int): (r: string)
    ensures DisplayWidth(isWide, text) >= totalWidth - 1 ==> r == text
    ensures var pad := Max((totalWidth - DisplayWidth(isWide, text)) / 2, 0);
            && |r| == pad + |text| + pad
            && r[pad..pad + |text|] == text
            && (forall k :: 0 <= k < pad ==> r[k] == ' ')
            && (forall k :: pad + |text| <= k < |r| ==> r[k] == ' ')
  {
    var padding := (totalWidth - DisplayWidth(isWide, text)) / 2;
    Repeat(' ', padding) + text + Repeat(' ', padding)
  }

  /** A narrower text is centred to exactly totalWidth, or one column less when the slack is odd. */
  lemma CenteredWidth(isWide: char -> bool, text: string, totalWidth: int)
    requires !isWide(' ') && DisplayWidth(isWide, text) <= totalWidth
    ensures var slack := totalWidth - DisplayWidth(isWide, text);
            DisplayWidth(isWide, CenterText(isWide, text, totalWidth)) == totalWidth - slack % 2
  {
    var padding := (totalWidth - DisplayWidth(isWide, text)) / 2;
    var sp := Repeat(' ', padding);
    WidthConcat(isWide, sp, text);
    WidthConcat(isWide, sp + text, sp);
    SpacesWidth(isWide, padding);
  }

  /** `"=" * n`. */
  function Border(n: int): (r: string)
    ensures |r| == Max(n, 0) && forall k :: 0 <= k < |r| ==> r[k] == '='
  {
    Repeat('=', n)
  }

  /** Two spaces, n - 4 dashes, two spaces: n characters whenever n >= 4. */
  function DashLine(n: int): (r: string)
    ensures |r| == Max(n, 4)
    ensures r[..2] == "  " && r[|r| - 2..] == "  "
    ensures forall k :: 2 <= k < |r| - 2 ==> r[k] == '-'
  {
    "  " + Repeat('-', n - 4) + "  "
  }

  const Title := " 预算计算结果 "
  const LabelWidth := 20

  /** The value column: char_count - left_width - 7. */
  function ValueWidth(charCount: int): int { charCount - LabelWidth - 7 }

  /**
   * A ledger line: the caption left-justified to LabelWidth code points
   * (not display columns), then the value right-justified to `right`.
   */
  predicate IsLedgerLine(line: string, caption: string, value: string, right: int)
  {
    var left := Max(|caption|, LabelWidth);
    && |line| == left + Max(|value|, right)
    && line[..|caption|] == caption
    && (forall k :: |caption| <= k < left ==> line[k] == ' ')
    && line[|line| - |value|..] == value
    && (forall k :: left <= k < |line| - |value| ==> line[k] == ' ')
  }

  function LedgerLine(caption: string, value: string, right: int): (line: string)
    ensures IsLedgerLine(line, caption, value, right)
  {
    var l := LJust(caption, LabelWidth);
    var r := RJust(value, right);
    assert (l + r)[..|caption|] == l[..|caption|];
    assert (l + r)[|l + r| - |value|..] == r[|r| - |value|..];
    l + r
  }

  /** '¥{:>10,.2f}'.format(x). */
  function Money(fmt: Formats, x: real): string
  {
    "¥" + fmt.money(x)
  }

  /** "  零件{n}: ", the numbered head of a part line. */
  function PartHead(number: nat): string
  {
    "  零件" + NatToString(number) + ": "
  }

  /** The line of one 零件清单 entry; a string entry is shown as it is. */
  function PartLine(number: nat, e: PartEntry, fmt: Formats): string
  {
    PartHead(number)
    + match e
      case PartRecord(p) => p.name + "（总体积：" + fmt.fixed3(PartVolume(p)) + "mm³）"
      case PartText(t) => t
  }

  /** A part line starts with its 1-based number, written in decimal. */
  lemma PartLineNumbered(number: nat, e: PartEntry, fmt: Formats)
    ensures var line := PartLine(number, e, fmt);
            var digits := NatToString(number);
            && |line| >= 4 + |digits| + 2
            && line[..4] == "  零件"
            && AllDigits(line[4..4 + |digits|])
            && DigitsValue(line[4..4 + |digits|]) == number
            && line[4 + |digits|..4 + |digits| + 2] == ": "
  {
    var digits := NatToString(number);
    var head := PartHead(number);
    var line := PartLine(number, e, fmt);
    assert line[..|head|] == head;
    assert line[..4] == head[..4] == "  零件";
    assert line[4..4 + |digits|] == head[4..4 + |digits|] == digits;
    assert line[4 + |digits|..4 + |digits| + 2] == head[4 + |digits|..] == ": ";
    NatToStringRoundTrip(number);
  }

  /** A string entry is printed verbatim; a record shows its total (solid + support) volume. */
  lemma PartLineContent(number: nat, e: PartEntry, fmt: Formats)
    ensures var line := PartLine(number, e, fmt);
            && (e.PartText? ==> line[|line| - |e.text|..] == e.text)
            && (e.PartRecord? ==> Contains(line, fmt.fixed3(e.part.volume + e.part.supportVolume)))
  {
    var head := PartHead(number);
    match e {
      case PartRecord(p) =>
        ContainsInfix(head + p.name + "（总体积：", fmt.fixed3(PartVolume(p)), "mm³）");
        assert PartLine(number, e, fmt) == head + p.name + "（总体积：" + fmt.fixed3(PartVolume(p)) + "mm³）";
      case PartText(t) =>
        assert PartLine(number, e, fmt) == head + t;
    }
  }

  function PartLines(entries: seq<PartEntry>, fmt: Formats): (lines: seq<string>)
    ensures |lines| == |entries|
    ensures forall i :: 0 <= i < |entries| ==> lines[i] == PartLine(i + 1, entries[i], fmt)
  {
    seq(|entries|, i requires 0 <= i < |entries| => PartLine(i + 1, entries[i], fmt))
  }

  /** The banner and the 打印参数 and 零件清单 sections: report lines 0 to 8. */
  function HeadLines(b: Breakdown, charCount: int, isWide: char -> bool, fmt: Formats)
    : (lines: seq<string>)
    ensures |lines| == 9
    ensures lines[0] == Border(charCount) && lines[2] == Border(charCount)
    ensures lines[1] == CenterText(isWide, Title, charCount)
    ensures lines[3] == "[打印参数]"
    ensures lines[4] == "  零件数量：" + NatToString(b.input.partCount) + "件"
    ensures lines[5] == "  打印时长：" + b.input.duration
    ensures lines[6] == "\n[零件清单]"
    ensures lines[7] == Join(PartLines(b.input.partList, fmt), "\n")
    ensures lines[8] == "\n[费用明细]"
  {
    var border := Border(charCount);
    [ border,
      CenterText(isWide, Title, charCount),
      border,
      "[打印参数]",
      "  零件数量：" + NatToString(b.input.partCount) + "件",
      "  打印时长：" + b.input.duration,
      "\n[零件清单]",
      Join(PartLines(b.input.partList, fmt), "\n"),
      "\n[费用明细]" ]
  }

  /** A row of the 费用明细 table: a caption and value, or a dashed rule. */
  datatype LedgerRow = Entry(caption: string, value: string, right: int) | Rule

  /**
   * The 费用明细 table, top to bottom. The caption column is 20 code points
   * and the value column char_count - 27; the header's value column is one
   * narrower. The discount row shows str() of the raw pricing value.
   */
  function LedgerRows(b: Breakdown, charCount: int, fmt: Formats): seq<LedgerRow>
    requires Discount in b.pricing.values
  {
    var right := ValueWidth(charCount);
    [ Entry("  项目名称", "金额", right - 1),
      Rule,
      Entry("  材料成本：", Money(fmt, b.detail.material), right),
      Entry("  机时费用：", Money(fmt, b.detail.machine), right),
      Entry("  氩气消耗：", Money(fmt, b.detail.argon), right),
      Entry("  后处理费：", Money(fmt, b.detail.post), right),
      Rule,
      Entry("  合计金额：", Money(fmt, b.detail.total), right),
      Entry("  折扣优惠：", fmt.numStr(b.pricing.values[Discount]), right),
      Entry("  实付金额：", Money(fmt, b.detail.actual), right) ]
  }

  /** Each entry becomes a ledger line, each rule a dash line of the report's width. */
  function RenderRows(rows: seq<LedgerRow>, charCount: int): (lines: seq<string>)
    ensures |lines| == |rows|
    ensures forall i :: 0 <= i < |rows| && rows[i].Rule? ==> lines[i] == DashLine(charCount)
    ensures forall i :: 0 <= i < |rows| && rows[i].Entry? ==>
              IsLedgerLine(lines[i], rows[i].caption, rows[i].value, rows[i].right)
  {
    seq(|rows|, i requires 0 <= i < |rows| =>
      match rows[i]
      case Entry(caption, value, right) => LedgerLine(caption, value, right)
      case Rule => DashLine(charCount))
  }

  /** The 20 report lines before joining: head, ledger, closing border. */
  function ReportLines(b: Breakdown, charCount: int, isWide: char -> bool, fmt: Formats)
    : (lines: seq<string>)
    requires Discount in b.pricing.values
    ensures |lines| == 20
    ensures lines[0] == Border(charCount) && lines[19] == Border(charCount)
    ensures lines[..9] == HeadLines(b, charCount, isWide, fmt)
    ensures lines[9..19] == RenderRows(LedgerRows(b, charCount, fmt), charCount)
  {
    HeadLines(b, charCount, isWide, fmt) + RenderRows(LedgerRows(b, charCount, fmt), charCount)
    + [Border(charCount)]
  }

  /** The report shows the material, total and payable amounts on lines 11, 16 and 18. */
  lemma ReportShowsAmounts(b: Breakdown, charCount: int, isWide: char -> bool, fmt: Formats)
    requires Discount in b.pricing.values
    ensures var lines := ReportLines(b, charCount, isWide, fmt);
            var right := ValueWidth(charCount);
            && IsLedgerLine(lines[11], "  材料成本：", Money(fmt, b.detail.material), right)
            && IsLedgerLine(lines[16], "  合计金额：", Money(fmt, b.detail.total), right)
            && IsLedgerLine(lines[18], "  实付金额：", Money(fmt, b.detail.actual), right)
            && lines[10] == DashLine(charCount) && lines[15] == DashLine(charCount)
  {
    var lines := ReportLines(b, charCount, isWide, fmt);
    var rows := LedgerRows(b, charCount, fmt);
    var ledger := RenderRows(rows, charCount);
    assert lines[9..19] == ledger;
    assert lines[11] == ledger[2] && lines[16] == ledger[7] && lines[18] == ledger[9];
    assert lines[10] == ledger[1] && lines[15] == ledger[6];
  }

  /** format_terminal_output: the report lines joined by newlines, framed by the border. */
  function FormatTerminalOutput(b: Breakdown, charCount: int, isWide: char -> bool, fmt: Formats)
    : (r: string)
    requires Discount in b.pricing.values
    ensures var border := Border(charCount);
            && |r| >= 2 * |border| + 2
            && r[..|border| + 1] == border + "\n"
            && r[|r| - |border| - 1..] == "\n" + border
  {
    Join(ReportLines(b, charCount, isWide, fmt), "\n")
  }
}
