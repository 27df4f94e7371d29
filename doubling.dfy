/**
 * `compute_doubling_months` (`pipeline/fit.py`): the doubling time of a domain's horizons,
 * from a least-squares fit of log2(horizon) against release date in months.
 */
module Doubling {
  import opened Wrappers
  import opened Sorting
  import opened Numerics
  import opened Filtering

  /** One row of `model_domain`: a model's fitted horizon in one domain. */
  datatype ModelDomainRow = ModelDomainRow(
    model: string,
    domain: string,
    releaseDate: string,
    horizonMinutes: real,
    betaProxy: real,
    nPoints: nat)

  /** The floor applied to horizons before taking their logarithm. */
  const HorizonFloor: real := 0.000001

  /** The average length of a month in days. */
  const DaysPerMonth: real := 30.4375

  /** A row whose release date is non-empty, which Python's `r.get("release_date")` finds truthy. */
  predicate HasReleaseDate(row: ModelDomainRow)
  {
    row.releaseDate != ""
  }

  /**
   * `[r for r in rows if r.get("release_date")]`: exactly the rows with a release date, each
   * as often as it occurs and in their original order.
   */
  function DatedRows(rows: seq<ModelDomainRow>): (dated: seq<ModelDomainRow>)
    ensures |dated| == |Kept(rows, HasReleaseDate)| <= |rows|
    ensures forall k :: 0 <= k < |dated| ==> dated[k] == rows[Kept(rows, HasReleaseDate)[k]]
    ensures forall i :: 0 <= i < |dated| ==> dated[i] in rows && dated[i].releaseDate != ""
    ensures forall i :: 0 <= i < |rows| && rows[i].releaseDate != "" ==> rows[i] in dated
  {
    var dated := Filter(rows, HasReleaseDate);
    KeptCount(rows, HasReleaseDate);
    assert forall i :: 0 <= i < |rows| && HasReleaseDate(rows[i]) ==> rows[i] in dated by {
      forall i | 0 <= i < |rows| && HasReleaseDate(rows[i])
        ensures rows[i] in dated
      {
        var k :| 0 <= k < |Kept(rows, HasReleaseDate)| && Kept(rows, HasReleaseDate)[k] == i;
        assert dated[k] == rows[i];
      }
    }
    dated
  }

  /** A parsed row: the day number of its release date and its floored horizon. */
  type Dated = (int, real)

  /** Whether the date of a row parses. */
  function ParsesWith(parseDate: string -> Option<int>): ModelDomainRow -> bool
  {
    (row: ModelDomainRow) => parseDate(row.releaseDate).Some?
  }

  /**
   * The `parsed` list: one entry for each row whose date parses, in order, holding the day of
   * that date and the row's horizon floored at 1e-6; rows whose date does not parse are skipped.
   */
  function ParsedRows(rows: seq<ModelDomainRow>, parseDate: string -> Option<int>): (parsed: seq<Dated>)
    ensures |parsed| == |Kept(rows, ParsesWith(parseDate))| <= |rows|
    ensures forall k :: 0 <= k < |parsed| ==>
      var row := rows[Kept(rows, ParsesWith(parseDate))[k]];
      && parseDate(row.releaseDate).Some?
      && parsed[k] == (parseDate(row.releaseDate).value, Max(row.horizonMinutes, HorizonFloor))
    ensures forall i :: 0 <= i < |parsed| ==> parsed[i].1 >= HorizonFloor
  {
    KeptCount(rows, ParsesWith(parseDate));
    if rows == [] then []
    else
      var row := rows[|rows| - 1];
      var prefix := ParsedRows(rows[..|rows| - 1], parseDate);
      match parseDate(row.releaseDate)
      case None => prefix
      case Some(day) => prefix + [(day, Max(row.horizonMinutes, HorizonFloor))]
  }

  /** The parsing loop of fit.py:86-95: a row whose date neither parser accepts is skipped. */
  method ParseDates(rows: seq<ModelDomainRow>, parseDate: string -> Option<int>) returns (parsed: seq<Dated>)
    ensures parsed == ParsedRows(rows, parseDate)
  {
    parsed := [];
    for i := 0 to |rows|
      invariant parsed == ParsedRows(rows[..i], parseDate)
    {
      assert rows[..i + 1][..i] == rows[..i];
      var day := parseDate(rows[i].releaseDate);
      if day.None? {
        continue;
      }
      parsed := parsed + [(day.value, Max(rows[i].horizonMinutes, HorizonFloor))];
    }
    assert rows[..|rows|] == rows;
  }

  /** Orders parsed rows by date only, as `parsed.sort(key=lambda p: p[0])` does. */
  predicate DayLe(a: Dated, b: Dated)
  {
    a.0 <= b.0
  }

  lemma DayLeTotalPreorder()
    ensures TotalPreorder(DayLe)
  {
  }

  /** Months since the earliest release: `(p[0] - t0).days / 30.4375`. */
  function MonthOffsets(sorted: seq<Dated>): (xs: seq<real>)
    requires sorted != []
    ensures |xs| == |sorted|
  {
    seq(|sorted|, i requires 0 <= i < |sorted| => (sorted[i].0 - sorted[0].0) as real / DaysPerMonth)
  }

  /** `[math.log2(p[1]) for p in parsed]` */
  function Log2Horizons(sorted: seq<Dated>, log2: real -> real): (ys: seq<real>)
    ensures |ys| == |sorted|
  {
    seq(|sorted|, i requires 0 <= i < |sorted| => log2(sorted[i].1))
  }

  /** The regression slope of log2(horizon) on months, 0.0 below two points. */
  function TrendSlope(parsed: seq<Dated>, lib: Routines): real
    requires parsed != []
  {
    var sorted := SortBy(parsed, DayLe);
    var xs := MonthOffsets(sorted);
    if |xs| >= 2 then lib.polyfitSlope(xs, Log2Horizons(sorted, lib.log2)) else 0.0
  }

  /**
   * The doubling time in months: `None` with fewer than two dated rows, fewer than two
   * parseable dates or a slope that is not positive; otherwise `1 / slope`, which is positive.
   */
  function DoublingMonths(rows: seq<ModelDomainRow>, lib: Routines): (r: Option<real>)
    ensures |DatedRows(rows)| < 2 ==> r == None
    ensures |ParsedRows(DatedRows(rows), lib.parseDate)| < 2 ==> r == None
    ensures r.Some? <==>
      && |DatedRows(rows)| >= 2
      && |ParsedRows(DatedRows(rows), lib.parseDate)| >= 2
      && TrendSlope(ParsedRows(DatedRows(rows), lib.parseDate), lib) > 0.0
    ensures r.Some? ==>
      r.value > 0.0 && r.value == 1.0 / TrendSlope(ParsedRows(DatedRows(rows), lib.parseDate), lib)
  {
    var dated := DatedRows(rows);
    if |dated| < 2 then None
    else
      var parsed := ParsedRows(dated, lib.parseDate);
      if |parsed| < 2 then None
      else
        var slope := TrendSlope(parsed, lib);
        if slope <= 0.0 then None
        else
          ReciprocalPositive(slope);
          Some(1.0 / slope)
  }

  /** `compute_doubling_months(model_points)` */
  method ComputeDoublingMonths(rows: seq<ModelDomainRow>, lib: Routines) returns (r: Option<real>)
    ensures r == DoublingMonths(rows, lib)
  {
    var dated := DatedRows(rows);
    if |dated| < 2 {
      return None;
    }
    var parsed := ParseDates(dated, lib.parseDate);
    if |parsed| < 2 {
      return None;
    }
    var sorted := SortBy(parsed, DayLe);
    var xs := MonthOffsets(sorted);
    var ys := Log2Horizons(sorted, lib.log2);
    var slope := if |xs| >= 2 then lib.polyfitSlope(xs, ys) else 0.0;
    if slope <= 0.0 {
      return None;
    }
    return Some(1.0 / slope);
  }

  /**
   * Sorting by date makes the month offsets start at 0 and never decrease, so every offset is
   * non-negative; the sort keeps every parsed row.
   */
  lemma MonthOffsetsAscend(parsed: seq<Dated>)
    requires parsed != []
    ensures var sorted := SortBy(parsed, DayLe);
      && multiset(sorted) == multiset(parsed)
      && MonthOffsets(sorted)[0] == 0.0
      && (forall i, j :: 0 <= i < j < |sorted| ==> MonthOffsets(sorted)[i] <= MonthOffsets(sorted)[j])
      && (forall i :: 0 <= i < |sorted| ==> MonthOffsets(sorted)[i] >= 0.0)
  {
    DayLeTotalPreorder();
    SortBySorted(parsed, DayLe);
    var sorted := SortBy(parsed, DayLe);
    var xs := MonthOffsets(sorted);
    forall i, j | 0 <= i < j < |sorted|
      ensures xs[i] <= xs[j]
    {
      assert DayLe(sorted[i], sorted[j]);
      assert (sorted[i].0 - sorted[0].0) as real <= (sorted[j].0 - sorted[0].0) as real;
    }
  }

  /** When every date parses, no row is dropped. */
  lemma {:induction false} ParsedCount(rows: seq<ModelDomainRow>, parseDate: string -> Option<int>)
    requires forall i :: 0 <= i < |rows| ==> parseDate(rows[i].releaseDate).Some?
    ensures |ParsedRows(rows, parseDate)| == |rows|
  {
    if rows != [] {
      ParsedCount(rows[..|rows| - 1], parseDate);
    }
  }
}
