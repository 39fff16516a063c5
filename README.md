# PrintCostPro budget engine — a Dafny model

PrintCostPro prices metal 3D-print jobs. Its core does three things:

- It turns a free-text print duration such as `2天3小时` into hours (`app/logic.py`).
- It computes the cost breakdown of a multi-part job from a pricing standard. The breakdown has three groups: the input summary, the echoed pricing standard and the six rounded cost figures (`app/logic.py`).
- It renders that breakdown in two ways. One is a fixed-width terminal report with East-Asian-aware centring (`app/formatter.py`). The other is a spreadsheet with three styled sections (`app/exporter.py`).

The model has five modules:

| module | file | models |
|---|---|---|
| `Text` | `text.dfy` | the Python string primitives the core relies on: `int()`/`str()` on decimal digits, `t in s`, `c * n`, `ljust`, `rjust`, `strip`, `sep.join` |
| `Duration` | `duration.dfy` | `convert_duration_to_hours`, including `re.search(r'(\d+)tok')`: a leftmost start with a greedy digit run |
| `CostModel` | `cost_model.dfy` | `calculate_multipart_cost` and its result |
| `Formatter` | `formatter.dfy` | `get_display_width`, `center_text` and the line layout of `format_terminal_output` |
| `Exporter` | `exporter.dfy` | the spreadsheet: the `params` list, the pricing-unit suffixing, `write_section` as a method of a `Worksheet` class, and the sequence of sections |

Some primitives depend on binary floating point or on the Unicode tables:

- `round(x, 2)`, `:.3f`, `{:>10,.2f}` and `str()` of a float are passed in as the `Text.Formats` record of functions.
- `unicodedata.east_asian_width` is passed in as an `isWide` predicate.

Every property proved therefore holds whatever those primitives return, except where a lemma's requires states an assumption about them (those lemmas are listed under "## Left out"). Python floats are modelled as exact reals.

Two notes on what the code computes:

- For the reference job (one part of 1000 + 200 mm³, `2天3小时`, argon at 1800 per canister and 27.5 L/h), argon is (1800/165)·(27.5·51) = 15300 and the total is 29564.57271 (`CostModel.ReferenceJob`).
- A comment in `convert_duration_to_hours` promises rounding to two decimals. The function returns the unrounded sum, and so does the model.

## Model

| member | source | states |
|---|---|---|
| Text.NatToString | app/formatter.py:46 | `str(n)` of a count is a non-empty run of decimal digits with no leading zero |
| Text.NatToStringRoundTrip | app/logic.py:28 | `int(str(n)) == n` for every natural n |
| Text.NatToStringInjective | app/exporter.py:58-60 | different part numbers print differently |
| Text.Contains | app/exporter.py:86-91 | `t in s` holds exactly when t occurs at some position of s |
| Text.Repeat | app/formatter.py:17 | `c * n` has max(n, 0) copies of c, and is empty for a negative n |
| Text.LJust | app/formatter.py:51 | `ljust(w)` keeps s as a prefix and pads with spaces to max(len, w) code points |
| Text.RJust | app/formatter.py:53 | `rjust(w)` keeps s as a suffix and pads in front with spaces to max(len, w) code points |
| Text.StripTrimmed | app/exporter.py:78 | `strip()` leaves a string without surrounding whitespace unchanged |
| Text.StripTrailingSpace | app/exporter.py:78 | `strip()` removes exactly the trailing spaces appended to such a string |
| Text.Join | app/formatter.py:63 | a join of at least two lines starts with the first line and the separator, and ends with the separator and the last line |
| Duration.RunEnd | app/logic.py:19-22 | greedy `\d+` from i ends at the first non-digit after i, or at the end of the text |
| Duration.SearchFrom | app/logic.py:26 | the search result is a real match of `(\d+)tok`, and no match starts further left |
| Duration.SearchFindsFirstAnchor | app/logic.py:26-28 | there is no match exactly when no token follows a digit; otherwise the group is the whole digit run before the first token that follows a digit |
| Duration.LaterOccurrenceIgnored | app/logic.py:25-36 | text appended after a unit's first match changes neither the match nor that unit's count |
| Duration.DurationHours | app/logic.py:39-47 | the hours are never negative |
| Duration.ConvertDurationToHours | app/logic.py:13-47 | the loop over the four patterns returns d·24 + h + m/60 + s/3600 of the first matches, 0 for a missing unit |
| Duration.NoUnitCountIsZero | app/logic.py:14-27 | a text in which no unit token follows a digit is 0 hours |
| Duration.UnitlessTextsAreZero | app/logic.py:14-27 | `""`, `"abc"`, `"123"` and `"3 天"` are 0 hours |
| Duration.TwoDaysThreeHours | app/logic.py:39-44 | `2天3小时` is 51 hours |
| Duration.RepeatedDayCountIgnored | app/logic.py:26-30 | only the first day count of `1天2天` counts: 24 hours |
| CostModel.TotalVolume | app/logic.py:51 | the summed volume is non-negative when every part's volume is |
| CostModel.TotalVolumeAppend | app/logic.py:51 | the total volume of two part lists joined is the sum of their totals |
| CostModel.TotalVolumePermutation | app/logic.py:51 | the total volume does not depend on the order of the parts |
| CostModel.CostFigures | app/logic.py:52-66 | total = material + machine + argon + post, actual = total · discount, post = the fee |
| CostModel.Rounded | app/logic.py:75-82 | total and actual are rounded from their own unrounded values |
| CostModel.CalculateMultipartCost | app/logic.py:49-83 | the pricing is echoed; duration and part count are recorded; one summary string per part, in order; the figures are the rounded cost figures of the total volume and the parsed hours |
| CostModel.MaterialCostProportional | app/logic.py:52-54 | the material cost is the volume times a constant per-mm³ price |
| CostModel.PartOrderIrrelevant | app/logic.py:51-66 | reordering the parts changes none of the figures |
| CostModel.EmptyJobCostsPostFee | app/logic.py:51-66 | no parts and no time cost exactly the post-processing fee |
| CostModel.ReferenceJob | app/logic.py:49-66 | the reference job: material 14.57271, machine 12750, argon 15300, total 29564.57271, actual = total |
| Formatter.DisplayWidth | app/formatter.py:3-11 | len(t) ≤ width ≤ 2·len(t) |
| Formatter.GetDisplayWidth | app/formatter.py:3-11 | the character loop returns the display width |
| Formatter.WidthConcat | app/formatter.py:3-11 | display width is additive over concatenation |
| Formatter.WidthExamples | app/formatter.py:7-10 | `A` is 1 column, `中` is 2, `A中B` is 4 |
| Formatter.SpacesWidth | app/formatter.py:17 | n narrow spaces are n columns wide |
| Formatter.CenterText | app/formatter.py:13-17 | equal padding of (total − width)//2 spaces on each side; the text comes back unchanged when it is at least total − 1 wide |
| Formatter.CenteredWidth | app/formatter.py:15-17 | a narrower text centres to total width, or one less when the slack is odd |
| Formatter.Border | app/formatter.py:23 | the border is exactly char_count `=` characters |
| Formatter.DashLine | app/formatter.py:39 | the dash line is two spaces, dashes, two spaces, and exactly char_count long when char_count ≥ 4 |
| Formatter.LedgerLine | app/formatter.py:37-38 | caption left-justified to 20 code points, value right-justified to the value column, spaces between |
| Formatter.PartLineNumbered | app/formatter.py:27-29 | a part line starts with `  零件`, its 1-based number in decimal, then `: ` |
| Formatter.PartLineContent | app/formatter.py:26-29 | a string entry is printed verbatim; a record shows its volume plus support volume |
| Formatter.PartLines | app/formatter.py:26-30 | one line per entry, numbered 1..n in input order |
| Formatter.HeadLines | app/formatter.py:41-50 | lines 0–8: border, centred title, border, the 打印参数 lines, the part list, the section captions |
| Formatter.RenderRows | app/formatter.py:51-60 | every ledger entry is a ledger line of its caption and value, and every rule is the dash line |
| Formatter.ReportLines | app/formatter.py:41-62 | 20 lines: first and last are the border, lines 0–8 are the head and lines 9–18 the ledger |
| Formatter.ReportShowsAmounts | app/formatter.py:52-60 | lines 11, 16 and 18 show material, total and payable amounts; lines 10 and 15 are dash lines |
| Formatter.FormatTerminalOutput | app/formatter.py:19-63 | the report starts with border + newline and ends with newline + border |
| Exporter.SectionLayout | app/exporter.py:83-99 | a section covers exactly columns 0–1 of rows start..start+len; merged title header at start; entry i at row start+1+i, caption and value sharing the entry's style |
| Exporter.SectionRowsWithin | app/exporter.py:84-99 | nothing outside rows start..start+len and columns 0–1 is written |
| Exporter.SectionCellsStep | app/exporter.py:85-99 | writing entry i extends the cells of entries 0..i−1 by that row |
| Exporter.Worksheet.constructor | app/exporter.py:12 | a new worksheet is empty |
| Exporter.Worksheet.Write | app/exporter.py:98-99 | one cell is (over)written and nothing else changes |
| Exporter.Worksheet.MergeRow | app/exporter.py:84 | the value goes in column 0, column 1 is blank, and the row is recorded as merged |
| Exporter.Worksheet.WriteSection | app/exporter.py:83-100 | the sheet gains exactly the section's cells; returns start + len + 2 |
| Exporter.PartsOf | app/exporter.py:56 | the part records of the list, in order |
| Exporter.ParamRows | app/exporter.py:50-61 | 2 + 3n rows: duration, part count with 件, then `零件{i}名称`, `零件{i}体积`, `零件{i}支撑体积` for i from 1, volumes as `:.3f` + mm³ |
| Exporter.InputParams | app/exporter.py:50-61 | the loop that extends the list yields exactly those rows |
| Exporter.PricingRows | app/exporter.py:77-80 | one text row per pricing key, in the pricing standard's order, captioned by the key and holding the stripped text of its value and its unit |
| Exporter.PricingRowShape | app/exporter.py:64-80 | the 定价标准 row of each key is captioned by the key and reads `str(v) unit`, or `str(v)` for a unit-less or unknown key |
| Exporter.PricingTextShape | app/exporter.py:64-80 | a pricing value reads `str(v) unit`; for a unit-less or unknown key it is just `str(v)` |
| Exporter.DetailRows | app/exporter.py:105-107 | six numeric rows: 材料费用, 机时费用, 氩气费用, 后处理费, 总费用 and 实际费用, each holding the matching rounded figure |
| Exporter.BannerRows | app/exporter.py:41-47 | the title and timestamp occupy columns 0–1 of rows 0 and 1 |
| Exporter.WriteSections | app/exporter.py:102-108 | the three sections start at row 3 and each two rows after the previous section's last row, in the order 输入参数, 定价标准, 费用明细 |
| Exporter.ExportToExcel | app/exporter.py:9-118 | the sheet built is the banner plus the three sections; the merged rows are 0, 1 and the three headers; the outcome is the busy outcome exactly when the file is locked |
| Exporter.MoneyCaptionIsCurrency | app/exporter.py:86-92 | in 费用明细 a caption with 费用 or 后处理费 that lacks 体积 and does not hold both 零件 and 名称 is in the currency style |
| Exporter.DetailRowsAreCurrency | app/exporter.py:90-92 | every cost-detail row produced by the cost model is in the currency style |
| Exporter.DetailRowIsCurrency | app/exporter.py:90-92 | each of the six cost captions is in the currency style |
| Exporter.StyleBelowPartRules | app/exporter.py:86-96 | for a caption that lacks 体积 and does not hold both 零件 and 名称: in 费用明细, currency exactly for 费用/金额/后处理费 and otherwise normal; elsewhere, number exactly for numeric values and otherwise normal |
| Exporter.StandardKeyIsNormal | app/exporter.py:86-96 | a standard pricing key with a text value is in the normal style |
| Exporter.PricingRowsAreNormal | app/exporter.py:77-96 | every 定价标准 row is in the normal style |
| Exporter.ParamRowStyles | app/exporter.py:86-96 | the two fixed 输入参数 rows are normal, each name row is in the part-name style, each volume row in the detail style |
| Exporter.PartCaptionStyles | app/exporter.py:86-89 | `零件{n}名称` is in the part-name style; `零件{n}体积` and `零件{n}支撑体积` are in the detail style, whatever the value |
| Exporter.SheetBounds | app/exporter.py:100-108 | the sheet uses columns 0–1 up to the last cost row, and the row before each section is empty |
| Exporter.SheetKeepsSections | app/exporter.py:83-108 | no section overwrites another: the sheet holds every cell each section wrote |
| Exporter.NumberedCaptionInjective | app/exporter.py:58-60 | `零件` + digits + suffix determines both the digits and the suffix |
| Exporter.ParamRowIndex | app/exporter.py:56-61 | row k ≥ 2 is row (k−2)%3 of part (k−2)/3 + 1 |
| Exporter.PartCaptionsDiffer | app/exporter.py:58-60 | numbered captions of different parts or rows differ |
| Exporter.PartCaptionNotFixed | app/exporter.py:50-60 | a numbered caption is neither 总打印时长 nor 零件数量 |
| Exporter.ParamCaptionsDistinct | app/exporter.py:50-61 | no two 输入参数 rows share a caption |
| Exporter.CostModelOutputNotExportable | app/exporter.py:56-58 | a breakdown the cost model builds from at least one part has string entries where the exporter reads part records |

## Left out

- `app/main.py` and `app/gui.py` are not part of this model. They are the Qt start-up and the window widgets.
- The dialogs (`QMessageBox`), the `explorer` call and the interactive retry after a `PermissionError` are not modelled (`app/exporter.py:114-128`). A locked file is a `locked` parameter, and the result is a `Saved | FileBusy` outcome.
- The `xlsxwriter` format dictionaries, colours, fonts and column widths are not modelled (`app/exporter.py:15-45, 111-112`). Cells carry a style tag instead.
- `datetime.now()` is a `timestamp` parameter.
- The creation and saving of the `.xlsx` file by `pd.ExcelWriter` are not modelled. The model ends with the worksheet's cells.
- Floating point is not modelled: Python floats are exact reals.
- `round(x, 2)`, `:.3f`, `{:>10,.2f}` and `str()` of a float are abstract functions. So are the East Asian Width classes.
- A missing pricing key raises `KeyError` in the source. The model makes the nine keys a precondition (`CostModel.HasRequiredKeys`).
- A record without the part fields raises in the source. The model takes `Part` records.
- The exporter reads `part['name']` from 零件清单, while the cost model fills it with strings. Modelled on the exporter's side as a precondition (`Exporter.Exportable`, which also asks that the pricing standard be a dict: each key once, each with a value), and stated by `Exporter.CostModelOutputNotExportable`. The two are not reconciled.
- Duration.ConvertDurationToHours: `\d` is taken to match ASCII digits only. Python's `re` also accepts other Unicode decimal digits. Two error paths are also dropped, since counts are unbounded and hours are exact reals: `int()` of a digit group longer than 4300 digits raises `ValueError` in Python 3.11 and later (`app/logic.py:28`), and a count too large for a float makes `minutes / 60`, `seconds / 3600` or the final sum raise `OverflowError` (`app/logic.py:42`). The model returns a value for every text.
- Exporter.PricingRowsAreNormal: stated only for pricing standards whose keys are among the nine standard keys. A key containing 体积, or both 零件 and 名称, would take a part style.
- Exporter.PricingRowShape: assumes `str(value)` has no leading or trailing whitespace, as Exporter.PricingTextShape does.
- Exporter.PricingTextShape: assumes `str(value)` has no leading or trailing whitespace. Python's `str()` of a number never has any.
- Formatter.CenteredWidth: assumes the space character is narrow, as East Asian Width classifies it.
- Formatter.SpacesWidth: assumes the space character is narrow, as East Asian Width classifies it.
- Formatter.WidthExamples: assumes `A` and `B` are narrow and `中` is wide, as East Asian Width classifies them.
- Formatter.ReportLines: the ledger facts are stated by `Formatter.RenderRows` over the row list `Formatter.LedgerRows`, and restated per line only for the amounts in `Formatter.ReportShowsAmounts`.
