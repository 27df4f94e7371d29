/**
 * `_build_agent_economics` (`pipeline/export.py`): per-model token and cost statistics over the
 * unified records, with cost scenarios from a static price table and input/output split presets.
 */
module Export {
  import opened Wrappers
  import opened Sorting
  import opened Grouping
  import opened Filtering
  import Strings
  import Transform

  // ---------------------------------------------------------------------------
  // Static tables

  /** List prices in dollars per million input and output tokens. */
  datatype Price = Price(input: real, output: real)

  const PricingPer1M: map<string, Price> := map[
    "Claude 3 Opus (Inspect)" := Price(15.0, 75.0),
    "Claude 3.5 Sonnet (New) (Inspect)" := Price(3.0, 15.0),
    "Claude 3.5 Sonnet (Old) (Inspect)" := Price(3.0, 15.0),
    "Claude 3.7 Sonnet (Inspect)" := Price(3.0, 15.0),
    "Claude 4 Opus (Inspect)" := Price(15.0, 75.0),
    "Claude 4.1 Opus (Inspect)" := Price(15.0, 75.0),
    "Claude Opus 4.5 (Inspect)" := Price(5.0, 25.0),
    "GPT-4 0314" := Price(30.0, 60.0),
    "GPT-4 1106 (Inspect)" := Price(10.0, 30.0),
    "GPT-4 Turbo (Inspect)" := Price(10.0, 30.0),
    "GPT-4o (Inspect)" := Price(2.5, 10.0),
    "GPT-5 (Inspect)" := Price(1.25, 10.0),
    "GPT-5.1-Codex-Max (Inspect)" := Price(1.25, 10.0),
    "GPT-5.2" := Price(1.75, 10.0),
    "Gemini 3 Pro" := Price(2.0, 12.0),
    "o1 (Inspect)" := Price(15.0, 60.0),
    "o1-preview" := Price(15.0, 60.0),
    "o3 (Inspect)" := Price(2.0, 8.0)
  ]

  /** `MODEL_PRICING_PER_1M.get(model)` */
  function PricingOf(model: string): Option<Price>
  {
    if model in PricingPer1M then Some(PricingPer1M[model]) else None
  }

  /** An assumed split of a run's tokens between input and output. */
  datatype Preset = Preset(key: string, inputShare: real, outputShare: real, displayLabel: string)

  const SplitPresets: seq<Preset> := [
    Preset("input_50_output_50", 0.5, 0.5, "Balanced 50/50"),
    Preset("input_70_output_30", 0.7, 0.3, "Input-heavy 70/30"),
    Preset("input_90_output_10", 0.9, 0.1, "Context-heavy 90/10")
  ]

  /** Every price is positive, and every preset splits all tokens between input and output. */
  lemma TablesWellFormed()
    ensures forall m :: m in PricingPer1M ==> PricingPer1M[m].input > 0.0 && PricingPer1M[m].output > 0.0
    ensures forall i :: 0 <= i < |SplitPresets| ==>
      && 0.0 < SplitPresets[i].inputShare < 1.0
      && SplitPresets[i].inputShare + SplitPresets[i].outputShare == 1.0
  {
  }

  // ---------------------------------------------------------------------------
  // Which rows count, and how

  /** A row is counted unless its model is empty or is "human" in any letter case. */
  predicate Counted(row: Transform.Record)
  {
    row.model != "" && Strings.Lower(row.model) != "human"
  }

  /** A run with a positive token count and a positive human duration. */
  predicate HasTokens(row: Transform.Record)
  {
    row.tokensCount.Some? && row.tokensCount.value > 0.0 && row.humanMinutes > 0.0
  }

  predicate Succeeded(row: Transform.Record)
  {
    row.scoreBinarized == 1
  }

  predicate HasCost(row: Transform.Record)
  {
    row.generationCost.Some? && row.generationCost.value > 0.0
  }

  /** `str(row.get("domain") or "unknown")` */
  function DomainLabel(row: Transform.Record): string
  {
    if row.domain != "" then row.domain else "unknown"
  }

  function ModelOf(row: Transform.Record): string
  {
    row.model
  }

  /** The rows that reach the counters, in order. */
  function CountedRows(rows: seq<Transform.Record>): (counted: seq<Transform.Record>)
    ensures forall i :: 0 <= i < |counted| ==> Counted(counted[i])
  {
    if rows == [] then []
    else CountedRows(rows[..|rows| - 1]) + (if Counted(rows[|rows| - 1]) then [rows[|rows| - 1]] else [])
  }

  // ---------------------------------------------------------------------------
  // The per-model counters

  /** One value of `by_model`. */
  datatype Tally = Tally(
    model: string,
    domains: set<string>,
    runsTotal: nat,
    runsWithTokens: nat,
    runsSuccess: nat,
    tokensTotal: real,
    minutesTotal: real,
    tokensSuccess: real,
    minutesSuccess: real,
    empiricalRates: seq<real>)

  function NewTally(model: string): Tally
  {
    Tally(model, {}, 0, 0, 0, 0.0, 0.0, 0.0, 0.0, [])
  }

  /** The dollars per million tokens a run actually cost. */
  function EmpiricalRate(row: Transform.Record): real
    requires HasTokens(row) && HasCost(row)
  {
    row.generationCost.value / row.tokensCount.value * 1000000.0
  }

  /** What one row adds to its model's counters. */
  function Add(t: Tally, row: Transform.Record): Tally
  {
    var counted := t.(runsTotal := t.runsTotal + 1, domains := t.domains + {DomainLabel(row)});
    if !HasTokens(row) then counted
    else
      var tokens := row.tokensCount.value;
      var withTokens := counted.(
        runsWithTokens := counted.runsWithTokens + 1,
        tokensTotal := counted.tokensTotal + tokens,
        minutesTotal := counted.minutesTotal + row.humanMinutes);
      var succeeded :=
        if Succeeded(row) then
          withTokens.(
            runsSuccess := withTokens.runsSuccess + 1,
            tokensSuccess := withTokens.tokensSuccess + tokens,
            minutesSuccess := withTokens.minutesSuccess + row.humanMinutes)
        else withTokens;
      if HasCost(row) then succeeded.(empiricalRates := succeeded.empiricalRates + [EmpiricalRate(row)])
      else succeeded
  }

  /** The counters of `model` after all of `rows`, which are that model's rows. */
  function TallyOf(model: string, rows: seq<Transform.Record>): Tally
  {
    if rows == [] then NewTally(model)
    else Add(TallyOf(model, rows[..|rows| - 1]), rows[|rows| - 1])
  }

  /** The number of rows satisfying `p`. */
  function Count(rows: seq<Transform.Record>, p: Transform.Record -> bool): (n: nat)
    ensures n <= |rows|
  {
    if rows == [] then 0
    else Count(rows[..|rows| - 1], p) + (if p(rows[|rows| - 1]) then 1 else 0)
  }

  predicate SucceededWithTokens(row: Transform.Record)
  {
    HasTokens(row) && Succeeded(row)
  }

  predicate CostedWithTokens(row: Transform.Record)
  {
    HasTokens(row) && HasCost(row)
  }

  /**
   * The counters count what they say: every row is a run, the runs with tokens are those with
   * positive tokens and minutes, and the successes those of them scored 1; the minute totals are
   * positive exactly when they sum over at least one run.
   */
  lemma {:induction false} TallyCounts(model: string, rows: seq<Transform.Record>)
    ensures TallyOf(model, rows).model == model
    ensures TallyOf(model, rows).runsTotal == |rows|
    ensures TallyOf(model, rows).runsWithTokens == Count(rows, HasTokens)
    ensures TallyOf(model, rows).runsSuccess == Count(rows, SucceededWithTokens)
    ensures |TallyOf(model, rows).empiricalRates| == Count(rows, CostedWithTokens)
    ensures TallyOf(model, rows).runsSuccess <= TallyOf(model, rows).runsWithTokens <= TallyOf(model, rows).runsTotal
    ensures TallyOf(model, rows).minutesTotal >= 0.0 && TallyOf(model, rows).tokensTotal >= 0.0
    ensures TallyOf(model, rows).minutesSuccess >= 0.0 && TallyOf(model, rows).tokensSuccess >= 0.0
    ensures TallyOf(model, rows).minutesTotal > 0.0 <==> TallyOf(model, rows).runsWithTokens > 0
    ensures TallyOf(model, rows).minutesSuccess > 0.0 <==> TallyOf(model, rows).runsSuccess > 0
  {
    if rows != [] {
      TallyCounts(model, rows[..|rows| - 1]);
    }
  }

  /** The domains of a model's counters are the labels of its rows. */
  lemma {:induction false} TallyDomains(model: string, rows: seq<Transform.Record>)
    ensures forall d :: d in TallyOf(model, rows).domains <==> exists i :: 0 <= i < |rows| && DomainLabel(rows[i]) == d
  {
    if rows != [] {
      var prefix := rows[..|rows| - 1];
      TallyDomains(model, prefix);
      forall d
        ensures d in TallyOf(model, rows).domains <==> exists i :: 0 <= i < |rows| && DomainLabel(rows[i]) == d
      {
        if exists i :: 0 <= i < |rows| && DomainLabel(rows[i]) == d {
          var i :| 0 <= i < |rows| && DomainLabel(rows[i]) == d;
          if i < |prefix| {
            assert DomainLabel(prefix[i]) == d;
          }
        }
        if d in TallyOf(model, prefix).domains {
          var i :| 0 <= i < |prefix| && DomainLabel(prefix[i]) == d;
          assert DomainLabel(rows[i]) == d;
        }
      }
    }
  }

  /** The token count of a run, 0 when it has none. */
  function TokensOf(row: Transform.Record): real
  {
    if row.tokensCount.Some? then row.tokensCount.value else 0.0
  }

  function MinutesOf(row: Transform.Record): real
  {
    row.humanMinutes
  }

  /**
   * The totals sum what they say: the tokens and minutes of the runs with tokens, and of those
   * of them that succeeded; the empirical rates are those of the runs with tokens and a cost,
   * in row order.
   */
  lemma {:induction false} TallyTotals(model: string, rows: seq<Transform.Record>)
    ensures TallyOf(model, rows).tokensTotal == SumWhere(rows, HasTokens, TokensOf)
    ensures TallyOf(model, rows).minutesTotal == SumWhere(rows, HasTokens, MinutesOf)
    ensures TallyOf(model, rows).tokensSuccess == SumWhere(rows, SucceededWithTokens, TokensOf)
    ensures TallyOf(model, rows).minutesSuccess == SumWhere(rows, SucceededWithTokens, MinutesOf)
    ensures |TallyOf(model, rows).empiricalRates| == |Kept(rows, CostedWithTokens)|
    ensures forall k :: 0 <= k < |TallyOf(model, rows).empiricalRates| ==>
      TallyOf(model, rows).empiricalRates[k] == EmpiricalRate(rows[Kept(rows, CostedWithTokens)[k]])
  {
    if rows != [] {
      TallyTotals(model, rows[..|rows| - 1]);
    }
  }

  // ---------------------------------------------------------------------------
  // The per-model report

  /** One estimated cost scenario of `estimated_cost_scenarios`, keyed by its preset. */
  datatype CostScenario = CostScenario(preset: string, blendedUsdPer1M: real, usdPerAutonomousHour: real)

  /** One entry of `models`. */
  datatype ModelEconomics = ModelEconomics(
    model: string,
    domains: seq<string>,
    runsTotal: nat,
    runsWithTokens: nat,
    runsSuccess: nat,
    tokensPerMinute: Option<real>,
    tokensPerHour: Option<real>,
    tokensPerSuccessMinute: Option<real>,
    tokensPerSuccessHour: Option<real>,
    assumedPriceUsdPer1M: Option<Price>,
    empiricalBlendedUsdPer1M: Option<real>,
    costScenarios: seq<CostScenario>)

  /** `num / den if den > 0 else None` */
  function Ratio(num: real, den: real): Option<real>
  {
    if den > 0.0 then Some(num / den) else None
  }

  /** `x * 60.0 if x is not None else None` */
  function PerHour(perMinute: Option<real>): Option<real>
  {
    if perMinute.Some? then Some(perMinute.value * 60.0) else None
  }

  function SumOf(xs: seq<real>): real
  {
    if xs == [] then 0.0 else SumOf(xs[..|xs| - 1]) + xs[|xs| - 1]
  }

  /** `sum(rates) / len(rates) if rates else None` */
  function MeanRate(rates: seq<real>): Option<real>
  {
    if rates == [] then None else Some(SumOf(rates) / |rates| as real)
  }

  /** The blended price of a preset: its shares of the input and output prices. */
  function Blended(preset: Preset, price: Price): real
  {
    preset.inputShare * price.input + preset.outputShare * price.output
  }

  /** The dollars an hour of autonomous work costs at `tokensPerHour` tokens and `blended` per million. */
  function HourlyCost(tokensPerHour: real, blended: real): real
  {
    tokensPerHour * blended / 1000000.0
  }

  function Scenario(preset: Preset, price: Price, tokensPerSuccessMinute: real): CostScenario
  {
    var blended := Blended(preset, price);
    CostScenario(preset.key, blended, HourlyCost(tokensPerSuccessMinute * 60.0, blended))
  }

  /** One scenario per preset, in preset order, each priced by the preset's blend. */
  predicate PricedAt(scenarios: seq<CostScenario>, price: Price, tokensPerSuccessHour: real)
  {
    && |scenarios| == |SplitPresets|
    && forall i :: 0 <= i < |scenarios| ==>
         && scenarios[i].preset == SplitPresets[i].key
         && scenarios[i].blendedUsdPer1M == Blended(SplitPresets[i], price)
         && scenarios[i].usdPerAutonomousHour == HourlyCost(tokensPerSuccessHour, scenarios[i].blendedUsdPer1M)
  }

  /** One scenario per preset when the model is priced and its success rate is defined. */
  function CostScenarios(pricing: Option<Price>, tokensPerSuccessMinute: Option<real>): seq<CostScenario>
  {
    if pricing.Some? && tokensPerSuccessMinute.Some? then
      seq(|SplitPresets|, i requires 0 <= i < |SplitPresets| =>
        Scenario(SplitPresets[i], pricing.value, tokensPerSuccessMinute.value))
    else []
  }

  /** `sorted(domains)` */
  ghost function SortedDomains(domains: set<string>): seq<string>
  {
    StrLeTotalOrder();
    SortedSet(domains, StrLe)
  }

  /** The report of one model's counters. */
  ghost function Report(t: Tally): ModelEconomics
  {
    var perMinute := Ratio(t.tokensTotal, t.minutesTotal);
    var perSuccessMinute := Ratio(t.tokensSuccess, t.minutesSuccess);
    var pricing := PricingOf(t.model);
    ModelEconomics(
      t.model, SortedDomains(t.domains), t.runsTotal, t.runsWithTokens, t.runsSuccess,
      perMinute, PerHour(perMinute), perSuccessMinute, PerHour(perSuccessMinute),
      pricing, MeanRate(t.empiricalRates), CostScenarios(pricing, perSuccessMinute))
  }

  /** The report of a model from its rows. */
  ghost function ReportOf(model: string, rows: seq<Transform.Record>): ModelEconomics
  {
    Report(TallyOf(model, rows))
  }

  /** Orders by `tokens_per_success_hour`, with `None` compared as infinity. */
  predicate BySuccessHour(a: ModelEconomics, b: ModelEconomics)
  {
    match (a.tokensPerSuccessHour, b.tokensPerSuccessHour)
    case (_, None) => true
    case (None, Some(_)) => false
    case (Some(x), Some(y)) => x <= y
  }

  lemma BySuccessHourPreorder()
    ensures TotalPreorder(BySuccessHour)
  {
  }

  /** The sorted reports of the counted rows. */
  ghost function ModelsReport(counted: seq<Transform.Record>): seq<ModelEconomics>
  {
    SortBy(MapGroups(GroupBy(counted, ModelOf), ReportOf), BySuccessHour)
  }

  /** The `models` list `_build_agent_economics` returns for `rows`. */
  ghost function AgentEconomics(rows: seq<Transform.Record>): seq<ModelEconomics>
  {
    ModelsReport(CountedRows(rows))
  }

  // ---------------------------------------------------------------------------
  // The method

  /** The dictionary `by_model` after the rows seen so far. */
  ghost predicate Tallied(seen: seq<Transform.Record>, order: seq<string>, byModel: map<string, Tally>)
  {
    var g := GroupBy(CountedRows(seen), ModelOf);
    && order == g.order
    && (forall m :: m in byModel <==> m in g.lists)
    && (forall m :: m in g.lists ==> byModel[m] == TallyOf(m, g.lists[m]))
  }

  /** The counters after one more row of their model. */
  lemma TallyAppend(model: string, rows: seq<Transform.Record>, row: Transform.Record)
    ensures TallyOf(model, rows + [row]) == Add(TallyOf(model, rows), row)
  {
    assert (rows + [row])[..|rows|] == rows;
  }

  /** One row's update of its model's counters, field by field as the loop body does it. */
  method AddRow(item: Tally, row: Transform.Record) returns (updated: Tally)
    ensures updated == Add(item, row)
  {
    updated := item.(runsTotal := item.runsTotal + 1);
    updated := updated.(domains := updated.domains + {DomainLabel(row)});
    var tokens := row.tokensCount;
    var minutes := row.humanMinutes;
    if tokens.Some? && tokens.value > 0.0 && minutes > 0.0 {
      updated := updated.(runsWithTokens := updated.runsWithTokens + 1);
      updated := updated.(tokensTotal := updated.tokensTotal + tokens.value);
      updated := updated.(minutesTotal := updated.minutesTotal + minutes);
      if row.scoreBinarized == 1 {
        updated := updated.(runsSuccess := updated.runsSuccess + 1);
        updated := updated.(tokensSuccess := updated.tokensSuccess + tokens.value);
        updated := updated.(minutesSuccess := updated.minutesSuccess + minutes);
      }
      var cost := row.generationCost;
      if cost.Some? && cost.value > 0.0 {
        updated := updated.(empiricalRates := updated.empiricalRates + [cost.value / tokens.value * 1000000.0]);
      }
    }
  }

  /** A row whose model is empty or "human" leaves the counters as they are. */
  lemma TalliedSkip(seen: seq<Transform.Record>, row: Transform.Record, order: seq<string>, byModel: map<string, Tally>)
    requires Tallied(seen, order, byModel) && !Counted(row)
    ensures Tallied(seen + [row], order, byModel)
  {
    assert (seen + [row])[..|seen|] == seen;
    assert CountedRows(seen + [row]) == CountedRows(seen);
  }

  /** A counted row of a model seen before updates that model's counters. */
  lemma TalliedExisting(seen: seq<Transform.Record>, row: Transform.Record, order: seq<string>, byModel: map<string, Tally>)
    requires Tallied(seen, order, byModel) && Counted(row) && row.model in byModel
    ensures Tallied(seen + [row], order, byModel[row.model := Add(byModel[row.model], row)])
  {
    assert (seen + [row])[..|seen|] == seen;
    var before := CountedRows(seen);
    assert CountedRows(seen + [row]) == before + [row];
    assert (before + [row])[..|before|] == before;
    var g := GroupBy(before, ModelOf);
    assert GroupBy(before + [row], ModelOf) == Groups(g.order, g.lists[row.model := g.lists[row.model] + [row]]);
    TallyAppend(row.model, g.lists[row.model], row);
  }

  /** A counted row of a new model opens its counters after the models seen before. */
  lemma TalliedNew(seen: seq<Transform.Record>, row: Transform.Record, order: seq<string>, byModel: map<string, Tally>)
    requires Tallied(seen, order, byModel) && Counted(row) && row.model !in byModel
    ensures Tallied(seen + [row], order + [row.model], byModel[row.model := Add(NewTally(row.model), row)])
  {
    assert (seen + [row])[..|seen|] == seen;
    var before := CountedRows(seen);
    assert CountedRows(seen + [row]) == before + [row];
    assert (before + [row])[..|before|] == before;
    var g := GroupBy(before, ModelOf);
    assert row.model !in g.lists;
    assert GroupBy(before + [row], ModelOf) == Groups(g.order + [row.model], g.lists[row.model := [row]]);
    TallyAppend(row.model, [], row);
    assert TallyOf(row.model, [row]) == Add(NewTally(row.model), row) by {
      assert [] + [row] == [row];
    }
  }

  /** The accumulation loop of export.py:73-110. */
  method TallyRows(rows: seq<Transform.Record>) returns (order: seq<string>, byModel: map<string, Tally>)
    ensures Tallied(rows, order, byModel)
  {
    order := [];
    byModel := map[];
    for i := 0 to |rows|
      invariant Tallied(rows[..i], order, byModel)
    {
      var row := rows[i];
      assert rows[..i + 1] == rows[..i] + [row];
      var model := row.model;
      if model == "" || Strings.Lower(model) == "human" {
        TalliedSkip(rows[..i], row, order, byModel);
        continue;
      }
      if model !in byModel {
        TalliedNew(rows[..i], row, order, byModel);
        order := order + [model];
        byModel := byModel[model := NewTally(model)];
      } else {
        TalliedExisting(rows[..i], row, order, byModel);
      }
      var item := AddRow(byModel[model], row);
      byModel := byModel[model := item];
    }
    assert rows[..|rows|] == rows;
  }

  /** The loop over presets of export.py:126-134. */
  method EstimateScenarios(pricing: Option<Price>, perSuccessMinute: Option<real>) returns (scenarios: seq<CostScenario>)
    ensures scenarios == CostScenarios(pricing, perSuccessMinute)
  {
    scenarios := [];
    if pricing.Some? && perSuccessMinute.Some? {
      for k := 0 to |SplitPresets|
        invariant |scenarios| == k
        invariant forall j :: 0 <= j < k ==>
          scenarios[j] == Scenario(SplitPresets[j], pricing.value, perSuccessMinute.value)
      {
        var preset := SplitPresets[k];
        var blended := preset.inputShare * pricing.value.input + preset.outputShare * pricing.value.output;
        var usdPerSuccessHour := perSuccessMinute.value * 60.0 * blended / 1000000.0;
        assert usdPerSuccessHour == HourlyCost(perSuccessMinute.value * 60.0, blended);
        scenarios := scenarios + [CostScenario(preset.key, blended, usdPerSuccessHour)];
      }
    }
  }

  /** The report of one model's counters, with its domains sorted. */
  method ReportTally(t: Tally) returns (entry: ModelEconomics)
    ensures entry == Report(t)
  {
    StrLeTotalOrder();
    var domains := SortSet(t.domains, StrLe);
    var perMinute := Ratio(t.tokensTotal, t.minutesTotal);
    var perSuccessMinute := Ratio(t.tokensSuccess, t.minutesSuccess);
    var pricing := PricingOf(t.model);
    var scenarios := EstimateScenarios(pricing, perSuccessMinute);
    entry := ModelEconomics(
      t.model, domains, t.runsTotal, t.runsWithTokens, t.runsSuccess,
      perMinute, PerHour(perMinute), perSuccessMinute, PerHour(perSuccessMinute),
      pricing, MeanRate(t.empiricalRates), scenarios);
  }

  /** `_build_agent_economics(rows)["models"]`. */
  method BuildAgentEconomics(rows: seq<Transform.Record>) returns (models: seq<ModelEconomics>)
    ensures models == AgentEconomics(rows)
  {
    var order, byModel := TallyRows(rows);
    ghost var g := GroupBy(CountedRows(rows), ModelOf);
    var reports: seq<ModelEconomics> := [];
    for j := 0 to |order|
      invariant reports == MapGroups(g, ReportOf)[..j]
    {
      var entry := ReportTally(byModel[order[j]]);
      assert entry == ReportOf(order[j], g.lists[order[j]]);
      PrefixExtend(MapGroups(g, ReportOf), reports, j, entry);
      reports := reports + [entry];
    }
    assert MapGroups(g, ReportOf)[..|order|] == MapGroups(g, ReportOf);
    models := SortBy(reports, BySuccessHour);
  }

  // ---------------------------------------------------------------------------
  // What the report says about the rows

  /**
   * The counted rows are the filtering comprehension on `Counted`: one entry per counted row, at
   * its position's turn in row order, repeats kept, and nothing else.
   */
  lemma {:induction false} CountedRowsFilter(rows: seq<Transform.Record>)
    ensures CountedRows(rows) == Filter(rows, Counted)
    ensures |CountedRows(rows)| == |Kept(rows, Counted)|
    ensures forall k :: 0 <= k < |CountedRows(rows)| ==> CountedRows(rows)[k] == rows[Kept(rows, Counted)[k]]
  {
    if rows != [] {
      CountedRowsFilter(rows[..|rows| - 1]);
    }
  }

  /** Filtering distributes over concatenation. */
  lemma {:induction false} CountedRowsConcat(a: seq<Transform.Record>, b: seq<Transform.Record>)
    ensures CountedRows(a + b) == CountedRows(a) + CountedRows(b)
  {
    if b != [] {
      var b' := b[..|b| - 1];
      CountedRowsConcat(a, b');
      var last := b[|b| - 1];
      assert (a + b)[..|a + b| - 1] == a + b';
      assert (a + b)[|a + b| - 1] == last;
      var tail := if Counted(last) then [last] else [];
      assert CountedRows(a + b) == CountedRows(a + b') + tail;
      assert CountedRows(b) == CountedRows(b') + tail;
      assert CountedRows(a) + CountedRows(b') + tail == CountedRows(a) + (CountedRows(b') + tail);
    } else {
      assert a + b == a;
    }
  }

  /** A row whose model is empty or "human" in any letter case changes nothing, wherever it is. */
  lemma UncountedRowIgnored(before: seq<Transform.Record>, row: Transform.Record, after: seq<Transform.Record>)
    requires row.model == "" || Strings.Lower(row.model) == "human"
    ensures AgentEconomics(before + [row] + after) == AgentEconomics(before + after)
  {
    UncountedRowDropped(before, row, after);
  }

  lemma UncountedRowDropped(before: seq<Transform.Record>, row: Transform.Record, after: seq<Transform.Record>)
    requires !Counted(row)
    ensures CountedRows(before + [row] + after) == CountedRows(before + after)
  {
    CountedRowsConcat(before + [row], after);
    CountedRowsConcat(before, [row]);
    CountedRowsConcat(before, after);
    assert CountedRows([row]) == [] by {
      assert [row][..0] == [];
    }
  }

  /** A counted model's rows are the same whether or not the uncounted rows are dropped first. */
  lemma {:induction false} MembersOfCounted(rows: seq<Transform.Record>, model: string)
    requires model != "" && Strings.Lower(model) != "human"
    ensures Members(CountedRows(rows), ModelOf, model) == Members(rows, ModelOf, model)
  {
    if rows != [] {
      var prefix := rows[..|rows| - 1];
      var last := rows[|rows| - 1];
      MembersOfCounted(prefix, model);
      var counted := CountedRows(prefix);
      if Counted(last) {
        assert CountedRows(rows) == counted + [last];
        assert (counted + [last])[..|counted|] == counted;
        assert (counted + [last])[|counted|] == last;
      } else {
        assert CountedRows(rows) == counted;
        assert ModelOf(last) != model;
        assert Members(rows, ModelOf, model) == Members(prefix, ModelOf, model) + [];
      }
    }
  }

  /** A model with a counted row is a non-empty, non-"human" model of some row. */
  lemma CountedModelOccurs(rows: seq<Transform.Record>, model: string)
    requires model in KeySet(CountedRows(rows), ModelOf)
    ensures model != "" && Strings.Lower(model) != "human"
    ensures HasKey(rows, ModelOf, model)
  {
    var counted := CountedRows(rows);
    var i :| 0 <= i < |counted| && ModelOf(counted[i]) == model;
    assert Counted(counted[i]);
    assert HasKey(counted, ModelOf, model);
    MembersOfCounted(rows, model);
    GroupByMembers(counted, ModelOf, model);
    GroupByMembers(rows, ModelOf, model);
  }

  /** Every non-empty, non-"human" model of some row has a counted row. */
  lemma OccurringModelCounted(rows: seq<Transform.Record>, model: string)
    requires model != "" && Strings.Lower(model) != "human"
    requires HasKey(rows, ModelOf, model)
    ensures model in KeySet(CountedRows(rows), ModelOf)
  {
    var counted := CountedRows(rows);
    MembersOfCounted(rows, model);
    GroupByMembers(counted, ModelOf, model);
    GroupByMembers(rows, ModelOf, model);
    assert HasKey(counted, ModelOf, model);
    var j :| 0 <= j < |counted| && ModelOf(counted[j]) == model;
  }

  /** The counted models are the non-empty, non-"human" models of the rows. */
  lemma CountedModels(rows: seq<Transform.Record>, model: string)
    ensures model in KeySet(CountedRows(rows), ModelOf) <==>
      model != "" && Strings.Lower(model) != "human" && exists i :: 0 <= i < |rows| && rows[i].model == model
  {
    if model in KeySet(CountedRows(rows), ModelOf) {
      CountedModelOccurs(rows, model);
    }
    if model != "" && Strings.Lower(model) != "human" && exists i :: 0 <= i < |rows| && rows[i].model == model {
      assert HasKey(rows, ModelOf, model);
      OccurringModelCounted(rows, model);
    }
  }

  function EntryModel(entry: ModelEconomics): string
  {
    entry.model
  }

  /**
   * There is exactly one entry per distinct counted model: an entry for `model` exists exactly
   * when some row has that model and it is neither empty nor "human", and that entry reports all
   * of the model's rows, so its `runs_total` is their number.
   */
  lemma EntryPerModel(rows: seq<Transform.Record>, model: string)
    ensures |AgentEconomics(rows)| == |KeySet(CountedRows(rows), ModelOf)|
    ensures (exists e :: e in AgentEconomics(rows) && EntryModel(e) == model) <==>
      model != "" && Strings.Lower(model) != "human" && exists i :: 0 <= i < |rows| && rows[i].model == model
    ensures forall e :: e in AgentEconomics(rows) && EntryModel(e) == model ==>
      && e == ReportOf(model, Members(rows, ModelOf, model))
      && e.runsTotal == |Members(rows, ModelOf, model)|
  {
    var counted := CountedRows(rows);
    var reports := MapGroups(GroupBy(counted, ModelOf), ReportOf);
    forall k, vs ensures EntryModel(ReportOf(k, vs)) == k {
      TallyCounts(k, vs);
    }
    GroupResults(counted, ModelOf, ReportOf, EntryModel, model);
    GroupOrderCount(counted, ModelOf);
    BySuccessHourPreorder();
    forall e ensures e in AgentEconomics(rows) <==> e in reports {
      SortByMembership(reports, BySuccessHour, e);
    }
    CountedModels(rows, model);
    if model != "" && Strings.Lower(model) != "human" {
      MembersOfCounted(rows, model);
    }
    TallyCounts(model, Members(rows, ModelOf, model));
  }

  /**
   * The counters of a report: successes never exceed runs with tokens, which never exceed runs;
   * each rate is absent exactly when no run fed its denominator.
   */
  lemma ReportCounters(model: string, rows: seq<Transform.Record>)
    ensures var e := ReportOf(model, rows);
      && e.model == model
      && e.runsSuccess <= e.runsWithTokens <= e.runsTotal == |rows|
      && e.runsWithTokens == Count(rows, HasTokens)
      && e.runsSuccess == Count(rows, SucceededWithTokens)
      && (e.tokensPerMinute == None <==> e.runsWithTokens == 0)
      && (e.tokensPerSuccessMinute == None <==> e.runsSuccess == 0)
      && (e.empiricalBlendedUsdPer1M == None <==> Count(rows, CostedWithTokens) == 0)
  {
    TallyCounts(model, rows);
  }

  /**
   * The rates of a report are non-negative: tokens per minute is the tokens of the runs with
   * tokens over their minutes, and likewise over the successful ones; the hourly rates are the
   * per-minute ones scaled to an hour; a price is assumed exactly for the models in the table.
   */
  lemma ReportRates(model: string, rows: seq<Transform.Record>)
    ensures var e := ReportOf(model, rows);
      && (e.tokensPerMinute.Some? ==> e.tokensPerMinute.value >= 0.0)
      && (e.tokensPerSuccessMinute.Some? ==> e.tokensPerSuccessMinute.value >= 0.0)
      && e.tokensPerMinute == Ratio(SumWhere(rows, HasTokens, TokensOf), SumWhere(rows, HasTokens, MinutesOf))
      && e.tokensPerSuccessMinute ==
           Ratio(SumWhere(rows, SucceededWithTokens, TokensOf), SumWhere(rows, SucceededWithTokens, MinutesOf))
      && e.tokensPerHour == PerHour(e.tokensPerMinute)
      && e.tokensPerSuccessHour == PerHour(e.tokensPerSuccessMinute)
      && (e.assumedPriceUsdPer1M.Some? <==> model in PricingPer1M)
  {
    TallyCounts(model, rows);
    TallyTotals(model, rows);
    var t := TallyOf(model, rows);
    if t.minutesTotal > 0.0 {
      NonNegativeRatio(t.tokensTotal, t.minutesTotal);
    }
    if t.minutesSuccess > 0.0 {
      NonNegativeRatio(t.tokensSuccess, t.minutesSuccess);
    }
  }

  lemma NonNegativeRatio(num: real, den: real)
    requires num >= 0.0 && den > 0.0
    ensures num / den >= 0.0
  {
    assert (num / den) * den == num;
  }

  /** The scenarios of a priced model with a defined success rate are priced at the hourly rate. */
  lemma ScenariosPriced(price: Price, perSuccessMinute: real)
    ensures PricedAt(CostScenarios(Some(price), Some(perSuccessMinute)), price, perSuccessMinute * 60.0)
  {
  }

  /**
   * Cost scenarios exist only for a priced model with at least one successful run with tokens;
   * then there is one per preset, in preset order, pricing a token at the preset's blend of the
   * input and output prices and an autonomous hour at the hourly success token rate.
   */
  lemma ReportScenarios(model: string, rows: seq<Transform.Record>)
    ensures var e := ReportOf(model, rows);
      && (e.costScenarios == [] <==> model !in PricingPer1M || e.runsSuccess == 0)
      && (e.costScenarios != [] ==>
            && e.assumedPriceUsdPer1M == Some(PricingPer1M[model])
            && e.tokensPerSuccessHour.Some?
            && PricedAt(e.costScenarios, PricingPer1M[model], e.tokensPerSuccessHour.value))
  {
    TallyCounts(model, rows);
    TallyScenarios(TallyOf(model, rows));
  }

  lemma TallyScenarios(t: Tally)
    ensures var e := Report(t);
      && (e.costScenarios == [] <==> t.model !in PricingPer1M || t.minutesSuccess <= 0.0)
      && (e.costScenarios != [] ==>
            && e.assumedPriceUsdPer1M == Some(PricingPer1M[t.model])
            && e.tokensPerSuccessHour.Some?
            && PricedAt(e.costScenarios, PricingPer1M[t.model], e.tokensPerSuccessHour.value))
  {
    var pricing := PricingOf(t.model);
    var perSuccessMinute := Ratio(t.tokensSuccess, t.minutesSuccess);
    if pricing.Some? && perSuccessMinute.Some? {
      var x := perSuccessMinute.value;
      ScenariosPriced(pricing.value, x);
      assert PerHour(perSuccessMinute) == Some(x * 60.0);
    }
  }

  /** A report's domains are sorted, free of duplicates, and exactly the labels of its rows. */
  lemma ReportDomains(model: string, rows: seq<Transform.Record>)
    ensures SortedBy(ReportOf(model, rows).domains, StrLe)
    ensures NoDuplicates(ReportOf(model, rows).domains)
    ensures forall d :: d in ReportOf(model, rows).domains <==> exists i :: 0 <= i < |rows| && DomainLabel(rows[i]) == d
  {
    StrLeTotalOrder();
    TallyDomains(model, rows);
  }

  /**
   * `models` is the per-model reports reordered by `tokens_per_success_hour`, ascending, with every
   * entry that has no such rate after every entry that has one.
   */
  lemma ModelsSorted(rows: seq<Transform.Record>)
    ensures multiset(AgentEconomics(rows)) == multiset(MapGroups(GroupBy(CountedRows(rows), ModelOf), ReportOf))
    ensures forall i, j :: 0 <= i < j < |AgentEconomics(rows)| && AgentEconomics(rows)[i].tokensPerSuccessHour == None ==>
      AgentEconomics(rows)[j].tokensPerSuccessHour == None
    ensures forall i, j ::
      (0 <= i < j < |AgentEconomics(rows)| &&
       AgentEconomics(rows)[i].tokensPerSuccessHour.Some? && AgentEconomics(rows)[j].tokensPerSuccessHour.Some?) ==>
      AgentEconomics(rows)[i].tokensPerSuccessHour.value <= AgentEconomics(rows)[j].tokensPerSuccessHour.value
  {
    var reports := MapGroups(GroupBy(CountedRows(rows), ModelOf), ReportOf);
    BySuccessHourPreorder();
    SortBySorted(reports, BySuccessHour);
    var sorted := AgentEconomics(rows);
    forall i, j | 0 <= i < j < |sorted|
      ensures BySuccessHour(sorted[i], sorted[j])
    {
    }
  }

  predicate Unrated(e: ModelEconomics)
  {
    e.tokensPerSuccessHour.None?
  }

  /**
   * The sort is stable: entries whose `tokens_per_success_hour` compares equal to that of `e` stay
   * in the order in which their models were first seen.
   */
  lemma ModelsStable(rows: seq<Transform.Record>, e: ModelEconomics)
    ensures Filter(AgentEconomics(rows), Tied(BySuccessHour, e)) ==
      Filter(MapGroups(GroupBy(CountedRows(rows), ModelOf), ReportOf), Tied(BySuccessHour, e))
  {
    BySuccessHourPreorder();
    SortByStable(MapGroups(GroupBy(CountedRows(rows), ModelOf), ReportOf), BySuccessHour, e);
  }

  /** An entry without a success rate ties exactly with the other entries without one. */
  lemma TiedWithUnrated(none: ModelEconomics, xs: seq<ModelEconomics>)
    requires Unrated(none)
    ensures forall i :: 0 <= i < |xs| ==> Tied(BySuccessHour, none)(xs[i]) == Unrated(xs[i])
  {
    forall i | 0 <= i < |xs|
      ensures Tied(BySuccessHour, none)(xs[i]) == Unrated(xs[i])
    {
      assert Tied(BySuccessHour, none)(xs[i]) == (BySuccessHour(none, xs[i]) && BySuccessHour(xs[i], none));
    }
  }

  /** The entries without `tokens_per_success_hour` keep their models' first-seen order, last. */
  lemma UnratedInOrder(rows: seq<Transform.Record>)
    ensures Filter(AgentEconomics(rows), Unrated) ==
      Filter(MapGroups(GroupBy(CountedRows(rows), ModelOf), ReportOf), Unrated)
  {
    var reports := MapGroups(GroupBy(CountedRows(rows), ModelOf), ReportOf);
    var sorted := AgentEconomics(rows);
    var none := ModelEconomics("", [], 0, 0, 0, None, None, None, None, None, None, []);
    ModelsStable(rows, none);
    TiedWithUnrated(none, sorted);
    TiedWithUnrated(none, reports);
    FilterCongruent(sorted, Tied(BySuccessHour, none), Unrated);
    FilterCongruent(reports, Tied(BySuccessHour, none), Unrated);
  }
}
