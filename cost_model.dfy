/**
 * The multi-part cost model: from the part list, the duration text and a
 * pricing standard it builds the cost breakdown with its three groups,
 * 输入参数 (input summary), 定价标准 (the pricing standard, echoed) and
 * 计算明细 (the cost figures, each rounded on its own).
 */
module CostModel {
  import opened Text
  import Duration

  /** One part record: name and volumes in mm³. */
  datatype Part = Part(name: string, volume: real, supportVolume: real)

  /** An entry of the 零件清单 list: a dict-like part record or a plain string. */
  datatype PartEntry = PartRecord(part: Part) | PartText(text: string)

  /** A pricing standard: a dict whose `keys` give its insertion order. */
  datatype Pricing = Pricing(keys: seq<string>, values: map<string, real>)

  const Density := "钛粉密度"         // g/cm³
  const Packing := "致密系数"         // dimensionless
  const Usage := "用量比例"           // dimensionless
  const MaterialPrice := "材料单价"   // yuan per kg
  const MachineRate := "机时费率"     // yuan per hour
  const ArgonPrice := "氩气单价"      // yuan per canister
  const ArgonRate := "氩气耗率"       // litres per hour
  const PostFee := "后处理费"         // yuan
  const Discount := "折扣优惠"        // multiplier

  /** Litres in one argon canister. */
  const CanisterLitres: real := 165.0

  /** The nine keys the cost model reads; a missing one raises KeyError. */
  predicate HasRequiredKeys(p: Pricing)
  {
    && Density in p.values && Packing in p.values && Usage in p.values
    && MaterialPrice in p.values && MachineRate in p.values && ArgonPrice in p.values
    && ArgonRate in p.values && PostFee in p.values && Discount in p.values
  }

  /** A Python dict: its keys in order, each once, each with a value. */
  predicate WellFormed(p: Pricing)
  {
    && (forall i, j :: 0 <= i < j < |p.keys| ==> p.keys[i] != p.keys[j])
    && (forall k :: k in p.keys ==> k in p.values)
    && (forall k :: k in p.values ==> k in p.keys)
  }

  datatype InputSummary = InputSummary(partList: seq<PartEntry>, duration: string, partCount: nat)

  /** The six figures of 计算明细, in dict order. */
  datatype CostDetail = CostDetail(material: real, machine: real, argon: real,
                                   post: real, total: real, actual: real)

  datatype Breakdown = Breakdown(input: InputSummary, pricing: Pricing, detail: CostDetail)

  function PartVolume(p: Part): real { p.volume + p.supportVolume }

  /** sum(p['volume'] + p['support_volume'] for p in parts), a left fold from 0. */
  function TotalVolume(parts: seq<Part>): (v: real)
    ensures (forall i :: 0 <= i < |parts| ==> PartVolume(parts[i]) >= 0.0) ==> v >= 0.0
  {
    if parts == [] then 0.0
    else TotalVolume(parts[..|parts| - 1]) + PartVolume(parts[|parts| - 1])
  }

  lemma {:induction false} TotalVolumeAppend(a: seq<Part>, b: seq<Part>)
    ensures TotalVolume(a + b) == TotalVolume(a) + TotalVolume(b)
    decreases |b|
  {
    if b != [] {
      var n := |b| - 1;
      assert (a + b)[..|a + b| - 1] == a + b[..n];
      TotalVolumeAppend(a, b[..n]);
    } else {
      assert a + b == a;
    }
  }

  /** The total volume does not depend on the order of the parts. */
  lemma {:induction false} TotalVolumePermutation(a: seq<Part>, b: seq<Part>)
    requires multiset(a) == multiset(b)
    ensures TotalVolume(a) == TotalVolume(b)
    decreases |a|
  {
    if a != [] {
      var n := |a| - 1;
      var x := a[n];
      assert x in multiset(b);
      var k :| 0 <= k < |b| && b[k] == x;
      var rest := b[..k] + b[k + 1..];
      assert b == b[..k] + [x] + b[k + 1..];
      assert a == a[..n] + [x];
      assert multiset(a) == multiset(a[..n]) + multiset{x};
      assert multiset(b) == multiset(b[..k]) + multiset{x} + multiset(b[k + 1..]);
      assert multiset(rest) == multiset(b[..k]) + multiset(b[k + 1..]);
      assert multiset(a[..n]) == multiset(a) - multiset{x};
      assert multiset(rest) == multiset(b) - multiset{x};
      TotalVolumePermutation(a[..n], rest);
      TotalVolumeAppend(b[..k] + [x], b[k + 1..]);
      TotalVolumeAppend(b[..k], [x]);
      TotalVolumeAppend(b[..k], b[k + 1..]);
      assert TotalVolume([x]) == PartVolume(x) by {
        assert [x][..0] == [];
      }
    } else {
      assert b == [];
    }
  }

  /**
   * The unrounded figures for a job of `volume` mm³ running `hours` hours:
   * mm³ to cm³, grams from density and the two ratios, grams to kg,
   * the machine-hour rate, and argon priced per litre of a 165 L canister.
   */
  function CostFigures(volume: real, hours: real, p: Pricing): (c: CostDetail)
    requires HasRequiredKeys(p)
    ensures c.total == c.material + c.machine + c.argon + c.post
    ensures c.actual == c.total * p.values[Discount]
    ensures c.post == p.values[PostFee]
  {
    var v := p.values;
    var weightGrams := volume * 0.001 * v[Density] * v[Usage] * v[Packing];
    var material := weightGrams * v[MaterialPrice] * 0.001;
    var machine := hours * v[MachineRate];
    var argon := (v[ArgonPrice] / CanisterLitres) * (v[ArgonRate] * hours);
    var post := v[PostFee];
    var total := material + machine + argon + post;
    CostDetail(material, machine, argon, post, total, total * v[Discount])
  }

  /** The rounded 计算明细: each figure rounded from its own unrounded value. */
  function Rounded(c: CostDetail, round2: real -> real): (r: CostDetail)
    ensures r.total == round2(c.total) && r.actual == round2(c.actual)
  {
    CostDetail(round2(c.material), round2(c.machine), round2(c.argon),
               round2(c.post), round2(c.total), round2(c.actual))
  }

  /** The 零件清单 string of one part. */
  function PartSummary(p: Part, fmt: Formats): string
  {
    p.name + " (零件体积：" + fmt.fixed3(p.volume) + "mm³，支撑体积："
    + fmt.fixed3(p.supportVolume) + "mm³)"
  }

  /** calculate_multipart_cost. */
  function CalculateMultipartCost(parts: seq<Part>, duration: string, p: Pricing, fmt: Formats)
    : (b: Breakdown)
    requires HasRequiredKeys(p)
    ensures b.pricing == p
    ensures b.input.duration == duration && b.input.partCount == |parts|
    ensures |b.input.partList| == |parts|
    ensures forall i :: 0 <= i < |parts| ==> b.input.partList[i] == PartText(PartSummary(parts[i], fmt))
    ensures b.detail == Rounded(CostFigures(TotalVolume(parts), Duration.DurationHours(duration), p),
                                fmt.round2)
  {
    var hours := Duration.DurationHours(duration);
    var figures := CostFigures(TotalVolume(parts), hours, p);
    Breakdown(
      InputSummary(seq(|parts|, i requires 0 <= i < |parts| => PartText(PartSummary(parts[i], fmt))),
                   duration, |parts|),
      p,
      Rounded(figures, fmt.round2))
  }

  /** The material cost is the total volume times a per-mm³ price. */
  lemma MaterialCostProportional(volume: real, hours: real, p: Pricing)
    requires HasRequiredKeys(p)
    ensures var v := p.values;
            CostFigures(volume, hours, p).material
              == volume * (0.001 * v[Density] * v[Usage] * v[Packing] * v[MaterialPrice] * 0.001)
  {
  }

  /** Reordering the parts changes none of the cost figures. */
  lemma PartOrderIrrelevant(a: seq<Part>, b: seq<Part>, duration: string, p: Pricing, fmt: Formats)
    requires HasRequiredKeys(p) && multiset(a) == multiset(b)
    ensures CalculateMultipartCost(a, duration, p, fmt).detail
            == CalculateMultipartCost(b, duration, p, fmt).detail
  {
    TotalVolumePermutation(a, b);
  }

  /** With no parts and no machine time, the job costs just the post-processing fee. */
  lemma EmptyJobCostsPostFee(duration: string, p: Pricing, fmt: Formats)
    requires HasRequiredKeys(p) && Duration.DurationHours(duration) == 0.0
    ensures var c := CostFigures(TotalVolume([]), 0.0, p);
            c.material == 0.0 && c.machine == 0.0 && c.argon == 0.0 && c.total == p.values[PostFee]
    ensures CalculateMultipartCost([], duration, p, fmt).detail.total == fmt.round2(p.values[PostFee])
  {
  }

  /**
   * One part of 1000 mm³ with 200 mm³ of support, printed for "2天3小时",
   * at a density of 4.5, usage 1.5, packing 0.9995, 1800 yuan/kg, 250 yuan/h,
   * 1800 yuan per argon canister, 27.5 L/h of argon, a 1500 yuan fee and no
   * discount.
   */
  lemma ReferenceJob()
    ensures var p := Pricing([Density, Packing, Usage, MaterialPrice, MachineRate,
                              ArgonPrice, ArgonRate, PostFee, Discount],
                             map[Density := 4.5, Packing := 0.9995, Usage := 1.5,
                                 MaterialPrice := 1800.0, MachineRate := 250.0,
                                 ArgonPrice := 1800.0, ArgonRate := 27.5,
                                 PostFee := 1500.0, Discount := 1.0]);
            var c := CostFigures(TotalVolume([Part("P1", 1000.0, 200.0)]),
                                 Duration.DurationHours("2天3小时"), p);
            && c.material == 14.57271 && c.machine == 12750.0 && c.argon == 15300.0
            && c.total == 29564.57271 && c.actual == c.total
  {
    Duration.TwoDaysThreeHours();
    assert TotalVolume([Part("P1", 1000.0, 200.0)]) == 1200.0 by {
      assert [Part("P1", 1000.0, 200.0)][..0] == [];
    }
  }
}
