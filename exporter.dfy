/**
 * The spreadsheet report. One worksheet holds a merged title row, a
 * merged timestamp row and, from row 3 on, three sections — 输入参数,
 * 定价标准 and 费用明细 — each a merged header row followed by one
 * caption/value row per entry, with a blank row after each section.
 * Cell formats are named by a style tag; colours, fonts and column
 * widths are not modelled.
 */
module Exporter {
  import opened Text
  import opened CostModel

  /** The cell formats the report uses. */
  datatype Style = TitleBanner | Header | PartName | PartDetail | Currency | Number | Normal

  /** What a cell holds: text, a number, or nothing (the second cell of a merged range). */
  datatype CellValue = Str(s: string) | Num(x: real) | Blank

  datatype Cell = Cell(value: CellValue, style: Style)

  /** One data row of a section: a caption and its value. */
  datatype Row = Row(caption: string, value: CellValue)

  datatype Outcome = Saved | FileBusy

  const ReportTitle := "金属3D打印预算报告"
  const TimestampPrefix := "生成时间："
  const InputSection := "输入参数"
  const PricingSection := "定价标准"
  const CostSection := "费用明细"

  /** The row of the first section header. */
  const FirstSectionRow := 3

  // ------------------------------------------------------------- styles

  /**
   * The style of a data row, by priority: part-name captions, then volume
   * captions, then (in 费用明细 only) money captions, then numeric values.
   */
  function StyleFor(caption: string, value: CellValue, title: string): Style
  {
    if Contains(caption, "零件") && Contains(caption, "名称") then PartName
    else if Contains(caption, "体积") then PartDetail
    else if title == CostSection then
      if Contains(caption, "费用") || Contains(caption, "金额") || Contains(caption, "后处理费")
      then Currency
      else Normal
    else if value.Num? then Number
    else Normal
  }

  // ----------------------------------------------------------- the sheet

  /** The cells one section writes: the merged title row, then one row per entry of data. */
  function SectionCells(data: seq<Row>, startRow: int, title: string): map<(int, int), Cell>
    decreases |data|
  {
    if data == [] then
      map[(startRow, 0) := Cell(Str(title), Header), (startRow, 1) := Cell(Blank, Header)]
    else
      var n := |data| - 1;
      var style := StyleFor(data[n].caption, data[n].value, title);
      SectionCells(data[..n], startRow, title)
        [(startRow + 1 + n, 0) := Cell(Str(data[n].caption), style)]
        [(startRow + 1 + n, 1) := Cell(data[n].value, style)]
  }

  /**
   * A section covers exactly columns 0 and 1 of rows startRow to
   * startRow + |data|: the title merged over startRow, then entry i in row
   * startRow + 1 + i, caption in column 0 and value in column 1, both in
   * the entry's style.
   */
  lemma {:induction false} SectionLayout(data: seq<Row>, startRow: int, title: string)
    ensures var m := SectionCells(data, startRow, title);
            && (forall r, c :: (r, c) in m <==> startRow <= r <= startRow + |data| && 0 <= c <= 1)
            && m[(startRow, 0)] == Cell(Str(title), Header)
            && m[(startRow, 1)] == Cell(Blank, Header)
            && (forall i :: 0 <= i < |data| ==>
                  var style := StyleFor(data[i].caption, data[i].value, title);
                  && m[(startRow + 1 + i, 0)] == Cell(Str(data[i].caption), style)
                  && m[(startRow + 1 + i, 1)] == Cell(data[i].value, style))
    decreases |data|
  {
    if data != [] {
      var n := |data| - 1;
      SectionLayout(data[..n], startRow, title);
      assert forall i :: 0 <= i < n ==> data[..n][i] == data[i];
    }
  }

  /** Every cell of m lies in columns 0 and 1 of rows lo to hi. */
  ghost predicate RowsWithin(m: map<(int, int), Cell>, lo: int, hi: int)
  {
    forall r, c :: (r, c) in m ==> lo <= r <= hi && 0 <= c <= 1
  }

  lemma SectionRowsWithin(data: seq<Row>, startRow: int, title: string)
    ensures RowsWithin(SectionCells(data, startRow, title), startRow, startRow + |data|)
  {
    SectionLayout(data, startRow, title);
  }

  /** Writing the next data row of a section onto a sheet extends the section's cells by that row. */
  lemma SectionCellsStep(data: seq<Row>, i: nat, startRow: int, title: string,
                         before: map<(int, int), Cell>)
    requires i < |data|
    ensures var style := StyleFor(data[i].caption, data[i].value, title);
            (before + SectionCells(data[..i], startRow, title))
              [(startRow + 1 + i, 0) := Cell(Str(data[i].caption), style)]
              [(startRow + 1 + i, 1) := Cell(data[i].value, style)]
            == before + SectionCells(data[..i + 1], startRow, title)
  {
    assert data[..i + 1][..i] == data[..i];
  }

  /** A worksheet: the cells written so far and the rows merged over columns 0 and 1. */
  class Worksheet {
    var cells: map<(int, int), Cell>
    var merged: set<int>

    constructor()
      ensures cells == map[] && merged == {}
    {
      cells := map[];
      merged := {};
    }

    /** worksheet.write: one cell, overwriting what was there. */
    method Write(row: int, col: int, value: CellValue, style: Style)
      modifies this
      ensures cells == old(cells)[(row, col) := Cell(value, style)]
      ensures merged == old(merged)
    {
      cells := cells[(row, col) := Cell(value, style)];
    }

    /** worksheet.merge_range over columns 0 and 1: the value goes in column 0, column 1 is blank. */
    method MergeRow(row: int, value: CellValue, style: Style)
      modifies this
      ensures cells == old(cells)[(row, 0) := Cell(value, style)][(row, 1) := Cell(Blank, style)]
      ensures merged == old(merged) + {row}
    {
      cells := cells[(row, 0) := Cell(value, style)][(row, 1) := Cell(Blank, style)];
      merged := merged + {row};
    }

    /** write_section: writes one section and returns the row of the next one. */
    method WriteSection(data: seq<Row>, startRow: int, title: string) returns (next: int)
      modifies this
      ensures next == startRow + |data| + 2
      ensures cells == old(cells) + SectionCells(data, startRow, title)
      ensures merged == old(merged) + {startRow}
    {
      MergeRow(startRow, Str(title), Header);
      assert data[..0] == [];
      for i := 0 to |data|
        invariant cells == old(cells) + SectionCells(data[..i], startRow, title)
        invariant merged == old(merged) + {startRow}
      {
        var Row(caption, value) := data[i];
        var style := StyleFor(caption, value, title);
        Write(startRow + 1 + i, 0, Str(caption), style);
        Write(startRow + 1 + i, 1, value, style);
        SectionCellsStep(data, i, startRow, title, old(cells));
      }
      assert data[..|data|] == data;
      next := startRow + |data| + 2;
    }
  }

  // ------------------------------------------------------------ sections

  /** The part records of a part list whose entries are all records. */
  function PartsOf(entries: seq<PartEntry>): (parts: seq<Part>)
    requires forall i :: 0 <= i < |entries| ==> entries[i].PartRecord?
    ensures |parts| == |entries|
    ensures forall i :: 0 <= i < |entries| ==> parts[i] == entries[i].part
  {
    seq(|entries|, i requires 0 <= i < |entries| => entries[i].part)
  }

  function NameCaption(number: nat): string { "零件" + NatToString(number) + "名称" }
  function VolumeCaption(number: nat): string { "零件" + NatToString(number) + "体积" }
  function SupportCaption(number: nat): string { "零件" + NatToString(number) + "支撑体积" }

  /** f"{x:.3f}mm³". */
  function VolumeText(fmt: Formats, x: real): string { fmt.fixed3(x) + "mm³" }

  /** The 输入参数 rows: duration, part count, then three rows per part numbered from 1. */
  function ParamRows(duration: string, count: nat, parts: seq<Part>, fmt: Formats): (rows: seq<Row>)
    ensures |rows| == 2 + 3 * |parts|
    ensures rows[0] == Row("总打印时长", Str(duration))
    ensures rows[1] == Row("零件数量", Str(NatToString(count) + "件"))
    ensures forall i :: 0 <= i < |parts| ==>
              && rows[2 + 3 * i] == Row(NameCaption(i + 1), Str(parts[i].name))
              && rows[3 + 3 * i] == Row(VolumeCaption(i + 1), Str(VolumeText(fmt, parts[i].volume)))
              && rows[4 + 3 * i] == Row(SupportCaption(i + 1), Str(VolumeText(fmt, parts[i].supportVolume)))
    decreases |parts|
  {
    if parts == [] then
      [Row("总打印时长", Str(duration)), Row("零件数量", Str(NatToString(count) + "件"))]
    else
      var n := |parts| - 1;
      var p := parts[n];
      var prefix := ParamRows(duration, count, parts[..n], fmt);
      assert forall i :: 0 <= i < n ==> parts[..n][i] == parts[i];
      prefix + [ Row(NameCaption(n + 1), Str(p.name)),
                 Row(VolumeCaption(n + 1), Str(VolumeText(fmt, p.volume))),
                 Row(SupportCaption(n + 1), Str(VolumeText(fmt, p.supportVolume))) ]
  }

  /** Builds the 输入参数 list, extending it by three rows per part. */
  method InputParams(input: InputSummary, fmt: Formats) returns (params: seq<Row>)
    requires forall i :: 0 <= i < |input.partList| ==> input.partList[i].PartRecord?
    ensures params == ParamRows(input.duration, input.partCount, PartsOf(input.partList), fmt)
  {
    var parts := PartsOf(input.partList);
    params := [Row("总打印时长", Str(input.duration)),
               Row("零件数量", Str(NatToString(input.partCount) + "件"))];
    assert parts[..0] == [];
    for i := 0 to |input.partList|
      invariant params == ParamRows(input.duration, input.partCount, parts[..i], fmt)
    {
      var part := input.partList[i].part;
      params := params + [ Row(NameCaption(i + 1), Str(part.name)),
                           Row(VolumeCaption(i + 1), Str(VolumeText(fmt, part.volume))),
                           Row(SupportCaption(i + 1), Str(VolumeText(fmt, part.supportVolume))) ];
      assert parts[..i + 1][..i] == parts[..i];
    }
    assert parts[..|input.partList|] == parts;
  }

  /** The unit printed after each pricing value. */
  const PricingUnits: map<string, string> :=
    map[Density := "g/cm³", Packing := "", Usage := "", MaterialPrice := "元/公斤",
        MachineRate := "元/小时", ArgonPrice := "元", ArgonRate := "升/小时",
        PostFee := "元", Discount := ""]

  /** pricing_units.get(key, ''). */
  function UnitOf(key: string): string
  {
    if key in PricingUnits then PricingUnits[key] else ""
  }

  /** f"{value} {unit}".strip(). */
  function PricingText(fmt: Formats, value: real, unit: string): string
  {
    Strip(fmt.numStr(value) + " " + unit)
  }

  /** The 定价标准 rows, in the pricing standard's own key order. */
  function PricingRows(p: Pricing, fmt: Formats): (rows: seq<Row>)
    requires forall k :: k in p.keys ==> k in p.values
    ensures |rows| == |p.keys|
    ensures forall i :: 0 <= i < |rows| ==> rows[i].caption == p.keys[i] && rows[i].value.Str?
    ensures forall i :: 0 <= i < |rows| ==>
              rows[i].value == Str(PricingText(fmt, p.values[p.keys[i]], UnitOf(p.keys[i])))
  {
    seq(|p.keys|, i requires 0 <= i < |p.keys| =>
      Row(p.keys[i], Str(PricingText(fmt, p.values[p.keys[i]], UnitOf(p.keys[i])))))
  }

  /** The 费用明细 rows: the six rounded figures, as numbers, in the cost model's order. */
  function DetailRows(d: CostDetail): (rows: seq<Row>)
    ensures |rows| == 6
    ensures forall i :: 0 <= i < |rows| ==> rows[i].value.Num?
    ensures rows[0] == Row("材料费用", Num(d.material)) && rows[1] == Row("机时费用", Num(d.machine))
    ensures rows[2] == Row("氩气费用", Num(d.argon)) && rows[3] == Row("后处理费", Num(d.post))
    ensures rows[4] == Row("总费用", Num(d.total)) && rows[5] == Row("实际费用", Num(d.actual))
  {
    [ Row("材料费用", Num(d.material)), Row("机时费用", Num(d.machine)),
      Row("氩气费用", Num(d.argon)), Row("后处理费", Num(d.post)),
      Row("总费用", Num(d.total)), Row("实际费用", Num(d.actual)) ]
  }

  // --------------------------------------------------------- the report

  /**
   * What the exporter reads from a breakdown without failing: name and
   * volumes of every 零件清单 entry, and a pricing standard that is a
   * dict (each key once, each with a value).
   */
  predicate Exportable(b: Breakdown)
  {
    && (forall i :: 0 <= i < |b.input.partList| ==> b.input.partList[i].PartRecord?)
    && WellFormed(b.pricing)
  }

  function InputRows(b: Breakdown, fmt: Formats): seq<Row>
    requires Exportable(b)
  {
    ParamRows(b.input.duration, b.input.partCount, PartsOf(b.input.partList), fmt)
  }

  /** The two merged rows above the sections: the title and the generation time. */
  function BannerCells(timestamp: string): map<(int, int), Cell>
  {
    map[(0, 0) := Cell(Str(ReportTitle), TitleBanner), (0, 1) := Cell(Blank, TitleBanner),
        (1, 0) := Cell(Str(TimestampPrefix + timestamp), Normal), (1, 1) := Cell(Blank, Normal)]
  }

  lemma BannerRows(timestamp: string)
    ensures RowsWithin(BannerCells(timestamp), 0, 1)
  {
    var m := BannerCells(timestamp);
    forall r, c | (r, c) in m ensures 0 <= r <= 1 && 0 <= c <= 1 {
      assert (r, c) in m.Keys;
      assert m.Keys == {(0, 0), (0, 1), (1, 0), (1, 1)};
    }
  }

  /** Where each later section starts: two rows past the previous section's last row. */
  function PricingStartRow(params: seq<Row>): int
  {
    FirstSectionRow + |params| + 2
  }

  function CostStartRow(params: seq<Row>, pricing: seq<Row>): int
  {
    PricingStartRow(params) + |pricing| + 2
  }

  /** Every cell of the finished worksheet: the banner, then the three sections in order. */
  function SheetCells(b: Breakdown, fmt: Formats, timestamp: string): map<(int, int), Cell>
    requires Exportable(b)
  {
    var params := InputRows(b, fmt);
    var pricing := PricingRows(b.pricing, fmt);
    BannerCells(timestamp)
    + SectionCells(params, FirstSectionRow, InputSection)
    + SectionCells(pricing, PricingStartRow(params), PricingSection)
    + SectionCells(DetailRows(b.detail), CostStartRow(params, pricing), CostSection)
  }

  /** The three write_section calls, each starting where the previous one left off. */
  method WriteSections(sheet: Worksheet, params: seq<Row>, pricing: seq<Row>, details: seq<Row>)
    returns (next: int)
    modifies sheet
    ensures next == CostStartRow(params, pricing) + |details| + 2
    ensures sheet.cells == old(sheet.cells)
                           + SectionCells(params, FirstSectionRow, InputSection)
                           + SectionCells(pricing, PricingStartRow(params), PricingSection)
                           + SectionCells(details, CostStartRow(params, pricing), CostSection)
    ensures sheet.merged == old(sheet.merged)
                            + {FirstSectionRow, PricingStartRow(params), CostStartRow(params, pricing)}
  {
    next := FirstSectionRow;
    next := sheet.WriteSection(params, next, InputSection);
    next := sheet.WriteSection(pricing, next, PricingSection);
    next := sheet.WriteSection(details, next, CostSection);
  }

  /**
   * export_to_excel: fills the sheet and saves it, or reports that the file
   * is held open by another program (`locked`).
   */
  method ExportToExcel(b: Breakdown, fmt: Formats, timestamp: string, locked: bool)
    returns (outcome: Outcome, sheet: Worksheet)
    requires Exportable(b)
    ensures fresh(sheet)
    ensures sheet.cells == SheetCells(b, fmt, timestamp)
    ensures var params := InputRows(b, fmt);
            sheet.merged == {0, 1, FirstSectionRow, PricingStartRow(params),
                             CostStartRow(params, PricingRows(b.pricing, fmt))}
    ensures outcome == if locked then FileBusy else Saved
  {
    sheet := new Worksheet();
    sheet.MergeRow(0, Str(ReportTitle), TitleBanner);
    sheet.MergeRow(1, Str(TimestampPrefix + timestamp), Normal);
    assert sheet.cells == BannerCells(timestamp);
    var params := InputParams(b.input, fmt);
    var last := WriteSections(sheet, params, PricingRows(b.pricing, fmt), DetailRows(b.detail));
    outcome := if locked then FileBusy else Saved;
  }

  // ------------------------------------------------------------- styles

  /** A caption outside both part rules that names a money word is in the currency style in 费用明细. */
  lemma MoneyCaptionIsCurrency(caption: string, word: string, value: CellValue)
    requires !(Contains(caption, "零件") && Contains(caption, "名称")) && !Contains(caption, "体积")
    requires word in {"费用", "后处理费"} && Contains(caption, word)
    ensures StyleFor(caption, value, CostSection) == Currency
  {
  }

  /** Every 费用明细 row the cost model produces is in the currency style. */
  lemma DetailRowsAreCurrency(d: CostDetail)
    ensures forall i :: 0 <= i < |DetailRows(d)| ==>
              StyleFor(DetailRows(d)[i].caption, DetailRows(d)[i].value, CostSection) == Currency
  {
    var rows := DetailRows(d);
    forall i | 0 <= i < |rows| ensures StyleFor(rows[i].caption, rows[i].value, CostSection) == Currency {
      DetailRowIsCurrency(rows[i].caption, rows[i].value);
    }
  }

  lemma DetailRowIsCurrency(caption: string, value: CellValue)
    requires caption in ["材料费用", "机时费用", "氩气费用", "后处理费", "总费用", "实际费用"]
    ensures StyleFor(caption, value, CostSection) == Currency
  {
    NotContainsWithoutFirstChar(caption, "零件");
    NotContainsWithoutFirstChar(caption, "体积");
    if caption == "后处理费" {
      ContainsInfix("", "后处理费", "");
      MoneyCaptionIsCurrency(caption, "后处理费", value);
    } else {
      var head := caption[..|caption| - 2];
      assert caption == head + "费用" + "";
      ContainsInfix(head, "费用", "");
      MoneyCaptionIsCurrency(caption, "费用", value);
    }
  }

  /**
   * Below the part rules: in 费用明细 a caption is in the currency style
   * exactly when it names 费用, 金额 or 后处理费; in the other sections a
   * value is in the number style exactly when it is a number.
   */
  lemma StyleBelowPartRules(caption: string, value: CellValue, title: string)
    requires !(Contains(caption, "零件") && Contains(caption, "名称")) && !Contains(caption, "体积")
    ensures title == CostSection ==>
              (StyleFor(caption, value, title) == Currency <==>
                 Contains(caption, "费用") || Contains(caption, "金额") || Contains(caption, "后处理费"))
    ensures title == CostSection ==> StyleFor(caption, value, title) in {Currency, Normal}
    ensures title != CostSection ==> (StyleFor(caption, value, title) == Number <==> value.Num?)
    ensures title != CostSection ==> StyleFor(caption, value, title) in {Number, Normal}
  {
  }

  /** One of the nine standard pricing keys. */
  predicate IsStandardKey(k: string)
  {
    k in {Density, Packing, Usage, MaterialPrice, MachineRate, ArgonPrice, ArgonRate, PostFee, Discount}
  }

  /** A standard pricing key with a text value is in the normal style, in the 定价标准 section. */
  lemma StandardKeyIsNormal(k: string, text: string)
    requires IsStandardKey(k)
    ensures StyleFor(k, Str(text), PricingSection) == Normal
  {
    assert '零' !in k && '体' !in k;
    NotContainsWithoutFirstChar(k, "零件");
    NotContainsWithoutFirstChar(k, "体积");
  }

  /** With the standard keys, every 定价标准 row is in the normal style: its value is always text. */
  lemma PricingRowsAreNormal(p: Pricing, fmt: Formats)
    requires forall k :: k in p.keys ==> k in p.values
    requires forall k :: k in p.keys ==> IsStandardKey(k)
    ensures forall i :: 0 <= i < |PricingRows(p, fmt)| ==>
              StyleFor(PricingRows(p, fmt)[i].caption, PricingRows(p, fmt)[i].value, PricingSection) == Normal
  {
    var rows := PricingRows(p, fmt);
    forall i | 0 <= i < |rows|
      ensures StyleFor(rows[i].caption, rows[i].value, PricingSection) == Normal
    {
      StandardKeyIsNormal(p.keys[i], rows[i].value.s);
    }
  }

  /** A character that is not a digit and is in neither part is not in head + digits + tail. */
  lemma CharOutsideCaption(c: char, head: string, digits: string, tail: string)
    requires !IsDigit(c) && AllDigits(digits) && c !in head && c !in tail
    ensures c !in head + digits + tail
  {
    var s := head + digits + tail;
    forall k | 0 <= k < |s| ensures s[k] != c {
      if k < |head| {
        assert s[k] == head[k];
      } else if k < |head| + |digits| {
        assert s[k] == digits[k - |head|];
      } else {
        assert s[k] == tail[k - |head| - |digits|];
      }
    }
  }

  /**
   * In the 输入参数 section the two fixed rows are in the normal style, each
   * part's name row in the part-name style and its two volume rows in the
   * detail style.
   */
  lemma ParamRowStyles(duration: string, count: nat, parts: seq<Part>, fmt: Formats)
    ensures var rows := ParamRows(duration, count, parts, fmt);
            && StyleFor(rows[0].caption, rows[0].value, InputSection) == Normal
            && StyleFor(rows[1].caption, rows[1].value, InputSection) == Normal
            && forall i :: 0 <= i < |parts| ==>
                 && StyleFor(rows[2 + 3 * i].caption, rows[2 + 3 * i].value, InputSection) == PartName
                 && StyleFor(rows[3 + 3 * i].caption, rows[3 + 3 * i].value, InputSection) == PartDetail
                 && StyleFor(rows[4 + 3 * i].caption, rows[4 + 3 * i].value, InputSection) == PartDetail
  {
    NotContainsWithoutFirstChar("总打印时长", "零件");
    NotContainsWithoutFirstChar("总打印时长", "体积");
    NotContainsWithoutFirstChar("零件数量", "名称");
    NotContainsWithoutFirstChar("零件数量", "体积");
    var rows := ParamRows(duration, count, parts, fmt);
    forall i | 0 <= i < |parts|
      ensures StyleFor(rows[2 + 3 * i].caption, rows[2 + 3 * i].value, InputSection) == PartName
      ensures StyleFor(rows[3 + 3 * i].caption, rows[3 + 3 * i].value, InputSection) == PartDetail
      ensures StyleFor(rows[4 + 3 * i].caption, rows[4 + 3 * i].value, InputSection) == PartDetail
    {
      assert rows[2 + 3 * i] == Row(NameCaption(i + 1), Str(parts[i].name));
      assert rows[3 + 3 * i] == Row(VolumeCaption(i + 1), Str(VolumeText(fmt, parts[i].volume)));
      assert rows[4 + 3 * i] == Row(SupportCaption(i + 1), Str(VolumeText(fmt, parts[i].supportVolume)));
      PartCaptionStyles(i + 1);
    }
  }

  /** The styles of the three rows of part n, whatever their values. */
  lemma PartCaptionStyles(n: nat)
    ensures forall v ::
              && StyleFor(NameCaption(n), v, InputSection) == PartName
              && StyleFor(VolumeCaption(n), v, InputSection) == PartDetail
              && StyleFor(SupportCaption(n), v, InputSection) == PartDetail
  {
    var d := NatToString(n);
    ContainsInfix("", "零件", d + "名称");
    ContainsInfix("零件" + d, "名称", "");
    assert NameCaption(n) == "" + "零件" + (d + "名称") == "零件" + d + "名称" + "";
    ContainsInfix("零件" + d, "体积", "");
    assert VolumeCaption(n) == "零件" + d + "体积" + "";
    ContainsInfix("零件" + d + "支撑", "体积", "");
    assert SupportCaption(n) == "零件" + d + "支撑" + "体积" + "";
    CharOutsideCaption('名', "零件", d, "体积");
    CharOutsideCaption('名', "零件", d, "支撑体积");
    NotContainsWithoutFirstChar(VolumeCaption(n), "名称");
    NotContainsWithoutFirstChar(SupportCaption(n), "名称");
  }

  // ------------------------------------------------------- pricing text

  /**
   * A pricing value reads "<str(value)> <unit>", or just str(value) for a
   * key without a unit or not in the unit table, provided str(value) has
   * no surrounding whitespace (as str() of a number never does).
   */
  lemma PricingTextShape(fmt: Formats, value: real, key: string)
    requires var t := fmt.numStr(value); t != [] && !IsSpace(t[0]) && !IsSpace(t[|t| - 1])
    ensures key !in PricingUnits ==> UnitOf(key) == ""
    ensures UnitOf(key) == "" ==> PricingText(fmt, value, UnitOf(key)) == fmt.numStr(value)
    ensures UnitOf(key) != "" ==>
              PricingText(fmt, value, UnitOf(key)) == fmt.numStr(value) + " " + UnitOf(key)
  {
    var t := fmt.numStr(value);
    var unit := UnitOf(key);
    if unit == "" {
      assert t + " " + unit == t + Repeat(' ', 1);
      StripTrailingSpace(t, 1);
    } else {
      assert unit in {"g/cm³", "元/公斤", "元/小时", "元", "升/小时"};
      assert !IsSpace(unit[|unit| - 1]);
      var u := t + " " + unit;
      assert u[0] == t[0] && u[|u| - 1] == unit[|unit| - 1];
      StripTrimmed(u);
    }
  }

  /**
   * The 定价标准 row of key i reads "<str(value)> <unit>", or str(value)
   * alone for a key without a unit, under the same assumption on str().
   */
  lemma PricingRowShape(p: Pricing, fmt: Formats, i: int)
    requires forall k :: k in p.keys ==> k in p.values
    requires 0 <= i < |p.keys|
    requires var t := fmt.numStr(p.values[p.keys[i]]); t != [] && !IsSpace(t[0]) && !IsSpace(t[|t| - 1])
    ensures var v, unit := p.values[p.keys[i]], UnitOf(p.keys[i]);
            PricingRows(p, fmt)[i] ==
              Row(p.keys[i], Str(if unit == "" then fmt.numStr(v) else fmt.numStr(v) + " " + unit))
  {
    PricingTextShape(fmt, p.values[p.keys[i]], p.keys[i]);
  }

  // ---------------------------------------------------------- the layout

  /**
   * The finished sheet uses columns 0 and 1 of rows 0 to the cost
   * section's last row, and leaves empty the row before each section:
   * row 2 and the rows just above the 定价标准 and 费用明细 headers.
   */
  lemma SheetBounds(b: Breakdown, fmt: Formats, timestamp: string)
    requires Exportable(b)
    ensures var params := InputRows(b, fmt);
            var pricing := PricingRows(b.pricing, fmt);
            var p := PricingStartRow(params);
            var q := CostStartRow(params, pricing);
            && p == FirstSectionRow + |params| + 2
            && q == p + |pricing| + 2
            && forall r, c :: (r, c) in SheetCells(b, fmt, timestamp) ==>
                 && 0 <= r <= q + |DetailRows(b.detail)| && 0 <= c <= 1
                 && r != 2 && r != p - 1 && r != q - 1
  {
    var params := InputRows(b, fmt);
    var pricing := PricingRows(b.pricing, fmt);
    var details := DetailRows(b.detail);
    var p := PricingStartRow(params);
    var q := CostStartRow(params, pricing);
    SectionRowsWithin(params, FirstSectionRow, InputSection);
    SectionRowsWithin(pricing, p, PricingSection);
    SectionRowsWithin(details, q, CostSection);
    var banner := BannerCells(timestamp);
    var s1 := SectionCells(params, FirstSectionRow, InputSection);
    var s2 := SectionCells(pricing, p, PricingSection);
    var s3 := SectionCells(details, q, CostSection);
    var m := banner + s1 + s2 + s3;
    BannerRows(timestamp);
    forall r, c | (r, c) in m
      ensures 0 <= r <= q + |details| && 0 <= c <= 1
      ensures r != 2 && r != p - 1 && r != q - 1
    {
      if (r, c) in s3 {
      } else if (r, c) in s2 {
      } else if (r, c) in s1 {
      } else {
        assert (r, c) in banner;
      }
    }
  }

  /** No section overwrites another: the sheet holds every cell each section wrote. */
  lemma SheetKeepsSections(b: Breakdown, fmt: Formats, timestamp: string)
    requires Exportable(b)
    ensures var m := SheetCells(b, fmt, timestamp);
            var params := InputRows(b, fmt);
            var pricing := PricingRows(b.pricing, fmt);
            var s1 := SectionCells(params, FirstSectionRow, InputSection);
            var s2 := SectionCells(pricing, PricingStartRow(params), PricingSection);
            var s3 := SectionCells(DetailRows(b.detail), CostStartRow(params, pricing), CostSection);
            && (forall r, c :: (r, c) in s1 ==> (r, c) in m && m[(r, c)] == s1[(r, c)])
            && (forall r, c :: (r, c) in s2 ==> (r, c) in m && m[(r, c)] == s2[(r, c)])
            && (forall r, c :: (r, c) in s3 ==> (r, c) in m && m[(r, c)] == s3[(r, c)])
  {
    var params := InputRows(b, fmt);
    var pricing := PricingRows(b.pricing, fmt);
    var p := PricingStartRow(params);
    var q := CostStartRow(params, pricing);
    var s1 := SectionCells(params, FirstSectionRow, InputSection);
    var s2 := SectionCells(pricing, p, PricingSection);
    var s3 := SectionCells(DetailRows(b.detail), q, CostSection);
    SectionRowsWithin(params, FirstSectionRow, InputSection);
    SectionRowsWithin(pricing, p, PricingSection);
    SectionRowsWithin(DetailRows(b.detail), q, CostSection);
    var m12 := BannerCells(timestamp) + s1 + s2;
    forall r, c | (r, c) in s1 ensures (r, c) !in s2 && (r, c) !in s3 {
    }
    forall r, c | (r, c) in s2 ensures (r, c) in m12 && m12[(r, c)] == s2[(r, c)] && (r, c) !in s3 {
    }
  }

  // ----------------------------------------------------------- captions

  /** In "零件" + digits + tail, position 2 + k is a digit exactly while k is inside the digits. */
  lemma DigitsThenTail(digits: string, tail: string, k: nat)
    requires AllDigits(digits) && tail != [] && !IsDigit(tail[0]) && k <= |digits|
    ensures var s := "零件" + digits + tail;
            2 + k < |s| && (IsDigit(s[2 + k]) <==> k < |digits|)
  {
    var s := "零件" + digits + tail;
    if k < |digits| {
      assert s[2 + k] == digits[k];
    } else {
      assert s[2 + k] == tail[0];
    }
  }

  /** "零件" + digits + tail determines the digits and the tail, when tail starts with a non-digit. */
  lemma NumberedCaptionInjective(d1: string, t1: string, d2: string, t2: string)
    requires AllDigits(d1) && AllDigits(d2)
    requires t1 != [] && !IsDigit(t1[0]) && t2 != [] && !IsDigit(t2[0])
    requires "零件" + d1 + t1 == "零件" + d2 + t2
    ensures d1 == d2 && t1 == t2
  {
    var a := "零件" + d1 + t1;
    var k := if |d1| < |d2| then |d1| else |d2|;
    DigitsThenTail(d1, t1, k);
    DigitsThenTail(d2, t2, k);
    assert |d1| == |d2|;
    assert d1 == a[2..2 + |d1|] == d2;
    assert t1 == a[2 + |d1|..] == t2;
  }

  /** The caption suffix of row t (0, 1 or 2) of a part. */
  function PartSuffix(t: nat): string
  {
    if t == 0 then "名称" else if t == 1 then "体积" else "支撑体积"
  }

  /** Row k of 输入参数, k >= 2, is row (k - 2) % 3 of part (k - 2) / 3 + 1. */
  lemma ParamRowIndex(duration: string, count: nat, parts: seq<Part>, fmt: Formats, k: nat)
    returns (i: nat, t: nat)
    requires 2 <= k < 2 + 3 * |parts|
    ensures i < |parts| && t < 3 && k == 2 + 3 * i + t
    ensures ParamRows(duration, count, parts, fmt)[k].caption
            == "零件" + NatToString(i + 1) + PartSuffix(t)
  {
    var rows := ParamRows(duration, count, parts, fmt);
    i, t := (k - 2) / 3, (k - 2) % 3;
    assert rows[2 + 3 * i] == Row(NameCaption(i + 1), Str(parts[i].name));
  }

  /** Numbered captions differ unless both the part and the row within it agree. */
  lemma PartCaptionsDiffer(m: nat, t: nat, n: nat, u: nat)
    requires t < 3 && u < 3 && (m != n || t != u)
    ensures "零件" + NatToString(m) + PartSuffix(t) != "零件" + NatToString(n) + PartSuffix(u)
  {
    if "零件" + NatToString(m) + PartSuffix(t) == "零件" + NatToString(n) + PartSuffix(u) {
      NumberedCaptionInjective(NatToString(m), PartSuffix(t), NatToString(n), PartSuffix(u));
      NatToStringInjective(m, n);
    }
  }

  /** A numbered caption is neither of the two fixed captions. */
  lemma PartCaptionNotFixed(n: nat, t: nat)
    ensures var caption := "零件" + NatToString(n) + PartSuffix(t);
            caption != "总打印时长" && caption != "零件数量"
  {
    var d := NatToString(n);
    var caption := "零件" + d + PartSuffix(t);
    assert caption[0] == '零' && caption[2] == d[0];
  }

  /** No two rows of 输入参数 share a caption. */
  lemma ParamCaptionsDistinct(duration: string, count: nat, parts: seq<Part>, fmt: Formats)
    ensures var rows := ParamRows(duration, count, parts, fmt);
            forall i, j :: 0 <= i < j < |rows| ==> rows[i].caption != rows[j].caption
  {
    var rows := ParamRows(duration, count, parts, fmt);
    forall k, l | 0 <= k < l < |rows| ensures rows[k].caption != rows[l].caption {
      if l >= 2 {
        var j, u := ParamRowIndex(duration, count, parts, fmt, l);
        PartCaptionNotFixed(j + 1, u);
        if k >= 2 {
          var i, t := ParamRowIndex(duration, count, parts, fmt, k);
          PartCaptionsDiffer(i + 1, t, j + 1, u);
        }
      }
    }
  }

  // ------------------------------------------------------- the part list

  /**
   * The cost model fills 零件清单 with summary strings, while the exporter
   * reads name and volumes from part records: a breakdown built by the
   * cost model from at least one part is not exportable.
   */
  lemma CostModelOutputNotExportable(parts: seq<Part>, duration: string, p: Pricing, fmt: Formats)
    requires HasRequiredKeys(p) && |parts| > 0
    ensures !Exportable(CalculateMultipartCost(parts, duration, p, fmt))
  {
    var b := CalculateMultipartCost(parts, duration, p, fmt);
    assert b.input.partList[0].PartText?;
  }
}
