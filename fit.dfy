/**
 * The aggregation of `main` in `pipeline/fit.py`: groups the unified records by domain and by
 * (model, domain), fits a horizon per group, and assembles the sorted `fits.json` payload.
 */
module Fit {
  import opened Wrappers
  import opened Sorting
  import opened Numerics
  import opened Grouping
  import opened Horizon
  import opened Doubling
  import opened Filtering
  import Transform

  // ---------------------------------------------------------------------------
  // Rounding at serialisation (`round(x, 4)`, `round(x, 6)`)

  /** `round(y)` to an integer: the nearest one, and the even one on a tie. */
  function RoundHalfEven(y: real): (n: int)
    ensures y - 0.5 <= n as real <= y + 0.5
  {
    var f := y.Floor;
    var d := y - f as real;
    if d < 0.5 then f
    else if d > 0.5 then f + 1
    else if f % 2 == 0 then f
    else f + 1
  }

  /** `round(x, digits)` with `scale == 10 ** digits`: the nearest multiple of `1 / scale`. */
  function Round(x: real, scale: real): real
    requires scale > 0.0
  {
    RoundHalfEven(x * scale) as real / scale
  }

  const Scale4: real := 10000.0
  const Scale6: real := 1000000.0

  /** A rounded value is within half a unit of the last kept digit, and positive only if `x` is. */
  lemma RoundProperties(x: real, scale: real)
    requires scale > 0.0
    ensures x - 0.5 / scale <= Round(x, scale) <= x + 0.5 / scale
    ensures Round(x, scale) > 0.0 ==> x > 0.0
    ensures x == 0.0 ==> Round(x, scale) == 0.0
  {
    var y := x * scale;
    var n := RoundHalfEven(y) as real;
    var r := n / scale;
    assert r == Round(x, scale);
    assert r * scale == n;
    var lo, hi := x - 0.5 / scale, x + 0.5 / scale;
    assert lo * scale == y - 0.5;
    assert hi * scale == y + 0.5;
    assert y - 0.5 <= n <= y + 0.5;
    calc {
      lo * scale;
    ==
      y - 0.5;
    <=
      n;
    ==
      r * scale;
    }
    calc {
      r * scale;
    ==
      n;
    <=
      y + 0.5;
    ==
      hi * scale;
    }
    ScaleMonotone(lo, r, scale);
    ScaleMonotone(r, hi, scale);
    if r > 0.0 {
      assert n >= 1.0;
    }
  }

  /** Multiplying both sides by a positive factor keeps an inequality. */
  lemma ScaleMonotone(a: real, b: real, scale: real)
    requires scale > 0.0 && a * scale <= b * scale
    ensures a <= b
  {
  }

  // ---------------------------------------------------------------------------
  // The per-group values

  function DomainOf(r: Transform.Record): string
  {
    r.domain
  }

  function PairOf(r: Transform.Record): (string, string)
  {
    (r.model, r.domain)
  }

  /** `{p.get("release_date", "") for p in points if p.get("release_date")}` */
  function DateSet(points: seq<Transform.Record>): (dates: set<string>)
    ensures forall d :: d in dates <==> exists i :: 0 <= i < |points| && points[i].releaseDate == d && d != ""
  {
    set i | 0 <= i < |points| && points[i].releaseDate != "" :: points[i].releaseDate
  }

  /** `release_dates[-1] if release_dates else ""` for `release_dates = sorted(DateSet(points))`. */
  ghost function LatestDate(points: seq<Transform.Record>): string
  {
    StrLeTotalOrder();
    var sorted := SortedSet(DateSet(points), StrLe);
    if sorted == [] then "" else sorted[|sorted| - 1]
  }

  /**
   * The latest release date is "" exactly when no point has a date; otherwise it is one of the
   * points' dates and no date compares greater as a string.
   */
  lemma LatestDateIsMax(points: seq<Transform.Record>)
    ensures LatestDate(points) == "" <==> forall i :: 0 <= i < |points| ==> points[i].releaseDate == ""
    ensures LatestDate(points) != "" ==> exists i :: 0 <= i < |points| && points[i].releaseDate == LatestDate(points)
    ensures forall i :: 0 <= i < |points| ==> StrLe(points[i].releaseDate, LatestDate(points))
  {
    StrLeTotalOrder();
    var dates := DateSet(points);
    var sorted := SortedSet(dates, StrLe);
    forall i | 0 <= i < |points| && points[i].releaseDate != ""
      ensures points[i].releaseDate in dates
    {
    }
    if sorted != [] {
      var last := sorted[|sorted| - 1];
      assert last in dates;
      forall i | 0 <= i < |points|
        ensures StrLe(points[i].releaseDate, last)
      {
        if points[i].releaseDate != "" {
          var k :| 0 <= k < |sorted| && sorted[k] == points[i].releaseDate;
          if k < |sorted| - 1 {
            assert StrLe(sorted[k], sorted[|sorted| - 1]);
          }
        }
      }
    }
  }

  /** The `model_domain` row of one (model, domain) group. */
  ghost function ModelDomainRowOf(pair: (string, string), points: seq<Transform.Record>, lib: Routines): ModelDomainRow
  {
    var curve := CurveOf(points, lib.binOf);
    ModelDomainRow(
      pair.0, pair.1, LatestDate(points),
      Round(HorizonOf(curve, lib.exp2), Scale4), Round(SlopeOf(curve, lib.polyfitSlope), Scale6), |points|)
  }

  /** One entry of `curves`. */
  datatype CurveEntry = CurveEntry(model: string, domain: string, points: seq<CurvePoint>)

  ghost function CurveEntryOf(pair: (string, string), points: seq<Transform.Record>, lib: Routines): CurveEntry
  {
    CurveEntry(pair.0, pair.1, CurveOf(points, lib.binOf))
  }

  /** One entry of `domain_horizons`. */
  datatype DomainSummary = DomainSummary(
    domain: string,
    horizonP50Minutes: real,
    horizonCiLowMinutes: real,
    horizonCiHighMinutes: real,
    doublingTimeMonths: Option<real>,
    models: nat,
    points: nat,
    medianRecordMinutes: real)

  /** The condition of the comprehension at fit.py:141. */
  function InDomain(domain: string): ModelDomainRow -> bool
  {
    (row: ModelDomainRow) => row.domain == domain
  }

  /**
   * `[row for row in model_domain if row["domain"] == domain]`: one entry per row of the domain,
   * in row order, repeats kept.
   */
  function RowsOfDomain(rows: seq<ModelDomainRow>, domain: string): (r: seq<ModelDomainRow>)
    ensures |r| == |Kept(rows, InDomain(domain))|
    ensures forall k :: 0 <= k < |r| ==> r[k] == rows[Kept(rows, InDomain(domain))[k]]
    ensures forall i :: 0 <= i < |r| ==> r[i] in rows && r[i].domain == domain
    ensures forall i :: 0 <= i < |rows| && rows[i].domain == domain ==> rows[i] in r
  {
    var r := Filter(rows, InDomain(domain));
    assert forall i :: 0 <= i < |rows| && rows[i].domain == domain ==> rows[i] in r by {
      forall i | 0 <= i < |rows| && rows[i].domain == domain
        ensures rows[i] in r
      {
        assert InDomain(domain)(rows[i]);
        var k :| 0 <= k < |Kept(rows, InDomain(domain))| && Kept(rows, InDomain(domain))[k] == i;
        assert r[k] == rows[i];
      }
    }
    r
  }

  /** A row that passes the bounds' `m["horizon_minutes"] > 0` filter. */
  predicate PositiveRow(row: ModelDomainRow)
  {
    row.horizonMinutes > 0.0
  }

  /**
   * The inputs of the bounds, `[m["horizon_minutes"] for m in rows if m["horizon_minutes"] > 0]`:
   * one entry per row with a positive horizon, in row order, so repeated horizons are all kept.
   */
  function PositiveHorizons(rows: seq<ModelDomainRow>): (hs: seq<real>)
    ensures |hs| == |Kept(rows, PositiveRow)|
    ensures forall k :: 0 <= k < |hs| ==> hs[k] == rows[Kept(rows, PositiveRow)[k]].horizonMinutes
    ensures forall i :: 0 <= i < |hs| ==> hs[i] > 0.0
    ensures forall i :: 0 <= i < |rows| && rows[i].horizonMinutes > 0.0 ==> rows[i].horizonMinutes in hs
  {
    var kept := Filter(rows, PositiveRow);
    var hs := seq(|kept|, k requires 0 <= k < |kept| => kept[k].horizonMinutes);
    assert forall i :: 0 <= i < |rows| && rows[i].horizonMinutes > 0.0 ==> rows[i].horizonMinutes in hs by {
      forall i | 0 <= i < |rows| && rows[i].horizonMinutes > 0.0
        ensures rows[i].horizonMinutes in hs
      {
        assert PositiveRow(rows[i]);
        var k :| 0 <= k < |Kept(rows, PositiveRow)| && Kept(rows, PositiveRow)[k] == i;
        assert hs[k] == rows[i].horizonMinutes;
      }
    }
    hs
  }

  /** `np.quantile(horizons, q) if horizons else 0.0` */
  function Bound(horizons: seq<real>, q: real, lib: Routines): real
  {
    if horizons != [] then lib.quantile(horizons, q) else 0.0
  }

  function ModelNames(rows: seq<ModelDomainRow>): set<string>
  {
    set i | 0 <= i < |rows| :: rows[i].model
  }

  function Minutes(points: seq<Transform.Record>): seq<real>
  {
    seq(|points|, i requires 0 <= i < |points| => points[i].humanMinutes)
  }

  /** `round(doubling, 4) if doubling else None`: `None` and 0.0 are falsy. */
  function RoundedDoubling(doubling: Option<real>): Option<real>
  {
    if doubling.Some? && doubling.value != 0.0 then Some(Round(doubling.value, Scale4)) else None
  }

  /** The `domain_horizons` entry of one domain, given all `model_domain` rows. */
  ghost function DomainSummaryOf(domain: string, points: seq<Transform.Record>, modelDomain: seq<ModelDomainRow>,
                                 lib: Routines): DomainSummary
  {
    var domainModels := RowsOfDomain(modelDomain, domain);
    var horizons := PositiveHorizons(domainModels);
    DomainSummary(
      domain,
      Round(HorizonOf(CurveOf(points, lib.binOf), lib.exp2), Scale4),
      Round(Bound(horizons, 0.1, lib), Scale4),
      Round(Bound(horizons, 0.9, lib), Scale4),
      RoundedDoubling(DoublingMonths(domainModels, lib)),
      |ModelNames(domainModels)|,
      |points|,
      Round(lib.median(Minutes(points)), Scale4))
  }

  // ---------------------------------------------------------------------------
  // The payload

  /** `fits.json` without its timestamp. */
  datatype Payload = Payload(domainHorizons: seq<DomainSummary>, modelDomain: seq<ModelDomainRow>, curves: seq<CurveEntry>)

  /** `sorted(domain_horizons, key=lambda x: x["domain"])` compares by domain. */
  predicate ByDomain(a: DomainSummary, b: DomainSummary)
  {
    StrLe(a.domain, b.domain)
  }

  /** `sorted(model_domain, key=lambda x: (x["domain"], x["model"]))` compares the pair in order. */
  predicate ByDomainThenModel(a: ModelDomainRow, b: ModelDomainRow)
  {
    if a.domain != b.domain then StrLe(a.domain, b.domain) else StrLe(a.model, b.model)
  }

  lemma SortKeysArePreorders()
    ensures TotalPreorder(ByDomain) && TotalPreorder(ByDomainThenModel)
  {
    StrLeTotalOrder();
  }

  /** The fit of each (model, domain) group, and how a row gives back its pair. */
  ghost function RowFitter(lib: Routines): ((string, string), seq<Transform.Record>) -> ModelDomainRow
  {
    (pair, points) => ModelDomainRowOf(pair, points, lib)
  }

  function RowPair(row: ModelDomainRow): (string, string)
  {
    (row.model, row.domain)
  }

  ghost function CurveFitter(lib: Routines): ((string, string), seq<Transform.Record>) -> CurveEntry
  {
    (pair, points) => CurveEntryOf(pair, points, lib)
  }

  function CurvePair(entry: CurveEntry): (string, string)
  {
    (entry.model, entry.domain)
  }

  /** The summary of each domain group, and how a summary gives back its domain. */
  ghost function SummaryFitter(modelDomain: seq<ModelDomainRow>, lib: Routines): (string, seq<Transform.Record>) -> DomainSummary
  {
    (domain, points) => DomainSummaryOf(domain, points, modelDomain, lib)
  }

  function SummaryDomain(summary: DomainSummary): string
  {
    summary.domain
  }

  /** The model-domain rows, in the first-seen order of their (model, domain) pair. */
  ghost function ModelDomainRows(pairs: Groups<(string, string), Transform.Record>, lib: Routines): seq<ModelDomainRow>
    requires forall p :: p in pairs.order ==> p in pairs.lists
  {
    MapGroups(pairs, RowFitter(lib))
  }

  ghost function CurveEntries(pairs: Groups<(string, string), Transform.Record>, lib: Routines): seq<CurveEntry>
    requires forall p :: p in pairs.order ==> p in pairs.lists
  {
    MapGroups(pairs, CurveFitter(lib))
  }

  /** The domain summaries, in the first-seen order of their domain. */
  ghost function DomainSummaries(domains: Groups<string, Transform.Record>, modelDomain: seq<ModelDomainRow>,
                                 lib: Routines): seq<DomainSummary>
    requires forall d :: d in domains.order ==> d in domains.lists
  {
    MapGroups(domains, SummaryFitter(modelDomain, lib))
  }

  /** `model_domain`: one row per (model, domain) pair, sorted by domain, then model. */
  ghost function ModelDomainOutput(records: seq<Transform.Record>, lib: Routines): seq<ModelDomainRow>
  {
    SortBy(ModelDomainRows(GroupBy(records, PairOf), lib), ByDomainThenModel)
  }

  /** `domain_horizons`: one summary per domain, sorted by domain. */
  ghost function DomainHorizonsOutput(records: seq<Transform.Record>, lib: Routines): seq<DomainSummary>
  {
    var modelDomain := ModelDomainRows(GroupBy(records, PairOf), lib);
    SortBy(DomainSummaries(GroupBy(records, DomainOf), modelDomain, lib), ByDomain)
  }

  /** The payload `main` writes for `records`. */
  ghost function FitPayload(records: seq<Transform.Record>, lib: Routines): Payload
  {
    Payload(DomainHorizonsOutput(records, lib), ModelDomainOutput(records, lib),
            CurveEntries(GroupBy(records, PairOf), lib))
  }

  // ---------------------------------------------------------------------------
  // The fitting run

  /** The grouping loop of fit.py:114-119. */
  method GroupRecords(records: seq<Transform.Record>)
    returns (domains: Groups<string, Transform.Record>, pairs: Groups<(string, string), Transform.Record>)
    ensures domains == GroupBy(records, DomainOf)
    ensures pairs == GroupBy(records, PairOf)
  {
    var domainOrder: seq<string> := [];
    var domainLists: map<string, seq<Transform.Record>> := map[];
    var pairOrder: seq<(string, string)> := [];
    var pairLists: map<(string, string), seq<Transform.Record>> := map[];
    for i := 0 to |records|
      invariant Groups(domainOrder, domainLists) == GroupBy(records[..i], DomainOf)
      invariant Groups(pairOrder, pairLists) == GroupBy(records[..i], PairOf)
    {
      assert records[..i + 1][..i] == records[..i];
      var row := records[i];
      if row.domain in domainLists {
        domainLists := domainLists[row.domain := domainLists[row.domain] + [row]];
      } else {
        domainOrder := domainOrder + [row.domain];
        domainLists := domainLists[row.domain := [row]];
      }
      var pair := (row.model, row.domain);
      if pair in pairLists {
        pairLists := pairLists[pair := pairLists[pair] + [row]];
      } else {
        pairOrder := pairOrder + [pair];
        pairLists := pairLists[pair := [row]];
      }
    }
    assert records[..|records|] == records;
    domains := Groups(domainOrder, domainLists);
    pairs := Groups(pairOrder, pairLists);
  }

  /** The release date of a group: the greatest of its non-empty dates as strings, or "". */
  method LatestReleaseDate(points: seq<Transform.Record>) returns (latest: string)
    ensures latest == LatestDate(points)
  {
    StrLeTotalOrder();
    var releaseDates := SortSet(DateSet(points), StrLe);
    latest := if releaseDates == [] then "" else releaseDates[|releaseDates| - 1];
  }

  /** The `model_domain` row and the curve of one (model, domain) group. */
  method FitPair(pair: (string, string), points: seq<Transform.Record>, lib: Routines)
    returns (row: ModelDomainRow, entry: CurveEntry)
    ensures row == ModelDomainRowOf(pair, points, lib)
    ensures entry == CurveEntryOf(pair, points, lib)
  {
    var (model, domain) := pair;
    var horizon, beta, curve := EstimateHorizon(points, lib);
    var latest := LatestReleaseDate(points);
    row := ModelDomainRow(model, domain, latest, Round(horizon, Scale4), Round(beta, Scale6), |points|);
    entry := CurveEntry(model, domain, curve);
  }

  /** The loop over (model, domain) groups of fit.py:121-136, in first-seen order. */
  method FitModelDomains(pairs: Groups<(string, string), Transform.Record>, lib: Routines)
    returns (modelDomain: seq<ModelDomainRow>, curves: seq<CurveEntry>)
    requires forall p :: p in pairs.order ==> p in pairs.lists
    ensures modelDomain == ModelDomainRows(pairs, lib)
    ensures curves == CurveEntries(pairs, lib)
  {
    modelDomain := [];
    curves := [];
    for j := 0 to |pairs.order|
      invariant modelDomain == ModelDomainRows(pairs, lib)[..j]
      invariant curves == CurveEntries(pairs, lib)[..j]
    {
      var row, entry := FitPair(pairs.order[j], pairs.lists[pairs.order[j]], lib);
      assert row == RowFitter(lib)(pairs.order[j], pairs.lists[pairs.order[j]]);
      assert entry == CurveFitter(lib)(pairs.order[j], pairs.lists[pairs.order[j]]);
      assert ModelDomainRows(pairs, lib)[j] == row;
      assert CurveEntries(pairs, lib)[j] == entry;
      PrefixExtend(ModelDomainRows(pairs, lib), modelDomain, j, row);
      PrefixExtend(CurveEntries(pairs, lib), curves, j, entry);
      modelDomain := modelDomain + [row];
      curves := curves + [entry];
    }
    assert ModelDomainRows(pairs, lib)[..|pairs.order|] == ModelDomainRows(pairs, lib);
    assert CurveEntries(pairs, lib)[..|pairs.order|] == CurveEntries(pairs, lib);
  }

  /** The `domain_horizons` entry of one domain. */
  method SummarizeDomain(domain: string, points: seq<Transform.Record>, modelDomain: seq<ModelDomainRow>, lib: Routines)
    returns (summary: DomainSummary)
    ensures summary == DomainSummaryOf(domain, points, modelDomain, lib)
  {
    var h, _, _ := EstimateHorizon(points, lib);
    var domainModels := RowsOfDomain(modelDomain, domain);
    var horizons := PositiveHorizons(domainModels);
    var low := if horizons != [] then lib.quantile(horizons, 0.1) else 0.0;
    var high := if horizons != [] then lib.quantile(horizons, 0.9) else 0.0;
    var doubling := ComputeDoublingMonths(domainModels, lib);
    summary := DomainSummary(
      domain,
      Round(h, Scale4),
      Round(low, Scale4),
      Round(high, Scale4),
      if doubling.Some? && doubling.value != 0.0 then Some(Round(doubling.value, Scale4)) else None,
      |ModelNames(domainModels)|,
      |points|,
      Round(lib.median(Minutes(points)), Scale4));
  }

  /** The loop over domains of fit.py:138-157, in first-seen order. */
  method SummarizeDomains(domains: Groups<string, Transform.Record>, modelDomain: seq<ModelDomainRow>, lib: Routines)
    returns (summaries: seq<DomainSummary>)
    requires forall d :: d in domains.order ==> d in domains.lists
    ensures summaries == DomainSummaries(domains, modelDomain, lib)
  {
    summaries := [];
    for j := 0 to |domains.order|
      invariant summaries == DomainSummaries(domains, modelDomain, lib)[..j]
    {
      var summary := SummarizeDomain(domains.order[j], domains.lists[domains.order[j]], modelDomain, lib);
      assert summary == SummaryFitter(modelDomain, lib)(domains.order[j], domains.lists[domains.order[j]]);
      assert DomainSummaries(domains, modelDomain, lib)[j] == summary;
      PrefixExtend(DomainSummaries(domains, modelDomain, lib), summaries, j, summary);
      summaries := summaries + [summary];
    }
    assert DomainSummaries(domains, modelDomain, lib)[..|domains.order|] == DomainSummaries(domains, modelDomain, lib);
  }

  /** `main` without its file I/O: the payload of `fits.json` for the unified records. */
  method FitAll(records: seq<Transform.Record>, lib: Routines) returns (payload: Payload)
    ensures payload == FitPayload(records, lib)
  {
    var domains, pairs := GroupRecords(records);
    var modelDomain, curves := FitModelDomains(pairs, lib);
    var summaries := SummarizeDomains(domains, modelDomain, lib);
    payload := Payload(SortBy(summaries, ByDomain), SortBy(modelDomain, ByDomainThenModel), curves);
    assert payload.domainHorizons == DomainHorizonsOutput(records, lib);
    assert payload.modelDomain == ModelDomainOutput(records, lib);
  }

  // ---------------------------------------------------------------------------
  // What the payload says about the records

  /** `domain_horizons` is sorted by domain and `model_domain` by (domain, model); both have one
   * entry per distinct domain or (model, domain) pair, and `curves` one per pair. */
  lemma PayloadShape(records: seq<Transform.Record>, lib: Routines)
    ensures SortedBy(DomainHorizonsOutput(records, lib), ByDomain)
    ensures SortedBy(ModelDomainOutput(records, lib), ByDomainThenModel)
    ensures |DomainHorizonsOutput(records, lib)| == |KeySet(records, DomainOf)|
    ensures |ModelDomainOutput(records, lib)| == |KeySet(records, PairOf)|
    ensures |CurveEntries(GroupBy(records, PairOf), lib)| == |KeySet(records, PairOf)|
  {
    var domains := GroupBy(records, DomainOf);
    var pairs := GroupBy(records, PairOf);
    var modelDomain := ModelDomainRows(pairs, lib);
    SortKeysArePreorders();
    SortBySorted(DomainSummaries(domains, modelDomain, lib), ByDomain);
    SortBySorted(modelDomain, ByDomainThenModel);
    GroupOrderCount(records, DomainOf);
    GroupOrderCount(records, PairOf);
  }

  /**
   * A (model, domain) pair has a `model_domain` row exactly when some record has that model and
   * domain, and the row is the fit of exactly those records, in their original order.
   */
  lemma ModelDomainRowPerPair(records: seq<Transform.Record>, lib: Routines, pair: (string, string))
    ensures pair in KeySet(records, PairOf) <==>
      exists row :: row in ModelDomainOutput(records, lib) && RowPair(row) == pair
    ensures forall row :: row in ModelDomainOutput(records, lib) && RowPair(row) == pair ==>
      row == ModelDomainRowOf(pair, Members(records, PairOf, pair), lib)
  {
    var rows := ModelDomainRows(GroupBy(records, PairOf), lib);
    SortKeysArePreorders();
    forall row ensures row in ModelDomainOutput(records, lib) <==> row in rows {
      SortByMembership(rows, ByDomainThenModel, row);
    }
    GroupResults(records, PairOf, RowFitter(lib), RowPair, pair);
  }

  /** A pair has a curve exactly when some record has that model and domain; it is their curve. */
  lemma CurvePerPair(records: seq<Transform.Record>, lib: Routines, pair: (string, string))
    ensures pair in KeySet(records, PairOf) <==>
      exists entry :: entry in CurveEntries(GroupBy(records, PairOf), lib) && CurvePair(entry) == pair
    ensures forall entry :: entry in CurveEntries(GroupBy(records, PairOf), lib) && CurvePair(entry) == pair ==>
      entry.points == CurveOf(Members(records, PairOf, pair), lib.binOf)
  {
    GroupResults(records, PairOf, CurveFitter(lib), CurvePair, pair);
  }

  /** The models seen in a domain: `{r["model"] for r in records if r["domain"] == domain}`. */
  function DomainModels(records: seq<Transform.Record>, domain: string): set<string>
  {
    set i | 0 <= i < |records| && records[i].domain == domain :: records[i].model
  }

  /** A model counted for a domain has a row with that model and domain. */
  lemma CountedDomainModelHasRow(rows: seq<ModelDomainRow>, domain: string, model: string)
    requires model in ModelNames(RowsOfDomain(rows, domain))
    ensures exists row :: row in rows && RowPair(row) == (model, domain)
  {
    var domainRows := RowsOfDomain(rows, domain);
    var k :| 0 <= k < |domainRows| && domainRows[k].model == model;
    assert domainRows[k] in rows && domainRows[k].domain == domain;
    assert RowPair(domainRows[k]) == (model, domain);
  }

  /** A row's model is counted for the row's domain. */
  lemma RowModelCounted(rows: seq<ModelDomainRow>, row: ModelDomainRow)
    requires row in rows
    ensures row.model in ModelNames(RowsOfDomain(rows, row.domain))
  {
    var domainRows := RowsOfDomain(rows, row.domain);
    var i :| 0 <= i < |rows| && rows[i] == row;
    assert row in domainRows;
    var k :| 0 <= k < |domainRows| && domainRows[k] == row;
    assert domainRows[k].model == row.model;
  }

  /** A model is counted for a domain exactly when one of the rows has that model and domain. */
  lemma DomainRowModels(rows: seq<ModelDomainRow>, domain: string, model: string)
    ensures model in ModelNames(RowsOfDomain(rows, domain)) <==>
      exists row :: row in rows && RowPair(row) == (model, domain)
  {
    if model in ModelNames(RowsOfDomain(rows, domain)) {
      CountedDomainModelHasRow(rows, domain, model);
    }
    if exists row :: row in rows && RowPair(row) == (model, domain) {
      var row :| row in rows && RowPair(row) == (model, domain);
      RowModelCounted(rows, row);
    }
  }

  /** A model has a record in a domain exactly when the (model, domain) pair occurs. */
  lemma DomainModelsPairs(records: seq<Transform.Record>, domain: string, model: string)
    ensures model in DomainModels(records, domain) <==> (model, domain) in KeySet(records, PairOf)
  {
    if model in DomainModels(records, domain) {
      var j :| 0 <= j < |records| && records[j].domain == domain && records[j].model == model;
      assert PairOf(records[j]) == (model, domain);
    }
    if (model, domain) in KeySet(records, PairOf) {
      var j :| 0 <= j < |records| && PairOf(records[j]) == (model, domain);
      assert records[j].domain == domain && records[j].model == model;
    }
  }

  /** The models counted for a domain are the models that have a record in it. */
  lemma ModelsOfDomain(records: seq<Transform.Record>, lib: Routines, domain: string)
    ensures ModelNames(RowsOfDomain(ModelDomainRows(GroupBy(records, PairOf), lib), domain))
         == DomainModels(records, domain)
  {
    var rows := ModelDomainRows(GroupBy(records, PairOf), lib);
    forall model
      ensures model in ModelNames(RowsOfDomain(rows, domain)) <==> model in DomainModels(records, domain)
    {
      DomainRowModels(rows, domain, model);
      DomainModelsPairs(records, domain, model);
      GroupResults(records, PairOf, RowFitter(lib), RowPair, (model, domain));
    }
  }

  /**
   * A domain has a `domain_horizons` entry exactly when some record is in it; the entry is the fit
   * of exactly those records, counts their distinct models and takes its bounds from the
   * positive horizons of that domain's `model_domain` rows.
   */
  lemma DomainSummaryPerDomain(records: seq<Transform.Record>, lib: Routines, domain: string)
    ensures domain in KeySet(records, DomainOf) <==>
      exists s :: s in DomainHorizonsOutput(records, lib) && SummaryDomain(s) == domain
    ensures forall s :: s in DomainHorizonsOutput(records, lib) && SummaryDomain(s) == domain ==>
      && s == DomainSummaryOf(domain, Members(records, DomainOf, domain),
                              ModelDomainRows(GroupBy(records, PairOf), lib), lib)
      && s.points == |Members(records, DomainOf, domain)|
      && s.models == |DomainModels(records, domain)|
  {
    var modelDomain := ModelDomainRows(GroupBy(records, PairOf), lib);
    var summaries := DomainSummaries(GroupBy(records, DomainOf), modelDomain, lib);
    SortKeysArePreorders();
    forall s ensures s in DomainHorizonsOutput(records, lib) <==> s in summaries {
      SortByMembership(summaries, ByDomain, s);
    }
    GroupResults(records, DomainOf, SummaryFitter(modelDomain, lib), SummaryDomain, domain);
    ModelsOfDomain(records, lib, domain);
  }

  /**
   * A `model_domain` row's horizon is rounded to four decimals before the bounds filter it, so
   * a row passes the `> 0` filter only if its fitted horizon was positive, and a fitted horizon
   * below 0.00005 minutes is rounded to 0 and left out of the bounds.
   */
  lemma RoundedHorizonFilter(pair: (string, string), points: seq<Transform.Record>, lib: Routines)
    ensures var row := ModelDomainRowOf(pair, points, lib);
      var fitted := HorizonOf(CurveOf(points, lib.binOf), lib.exp2);
      && (row.horizonMinutes > 0.0 ==> fitted > 0.0)
      && (0.0 <= fitted < 0.00005 ==> row.horizonMinutes <= 0.0)
      && fitted - 0.00005 <= row.horizonMinutes <= fitted + 0.00005
  {
    var fitted := HorizonOf(CurveOf(points, lib.binOf), lib.exp2);
    RoundProperties(fitted, Scale4);
    RoundsToZero(fitted);
  }

  /** Four-decimal rounding sends every value in [0, 0.00005) to 0. */
  lemma RoundsToZero(x: real)
    ensures 0.0 <= x < 0.00005 ==> Round(x, Scale4) == 0.0
  {
    if 0.0 <= x < 0.00005 {
      assert x * Scale4 < 0.5;
      assert RoundHalfEven(x * Scale4) == 0;
    }
  }
}
