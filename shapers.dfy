/** Result functions: each reshapes the rows the database returns into what
    the endpoint hands back, one output element per row, in row order. */
module Shapers {
  import opened Records

  /** The city lookup's result: the `city` value of every row, pushed into a
      fresh list while walking the rows in order. Nothing is dropped or merged. */
  method Cities(results: seq<Row>) returns (citiesArray: seq<Option<string>>)
    ensures |citiesArray| == |results|
    ensures forall i :: 0 <= i < |results| ==> citiesArray[i] == results[i].city
  {
    citiesArray := [];
    for i := 0 to |results|
      invariant |citiesArray| == i
      invariant forall k :: 0 <= k < i ==> citiesArray[k] == results[k].city
    {
      citiesArray := citiesArray + [results[i].city];
    }
  }

  /** The country lookup's result: the `country` value of every row, in order. */
  method Countries(results: seq<Row>) returns (countriesArray: seq<Option<string>>)
    ensures |countriesArray| == |results|
    ensures forall i :: 0 <= i < |results| ==> countriesArray[i] == results[i].country
  {
    countriesArray := [];
    for i := 0 to |results|
      invariant |countriesArray| == i
      invariant forall k :: 0 <= k < i ==> countriesArray[k] == results[k].country
    {
      countriesArray := countriesArray + [results[i].country];
    }
  }

  /** Weekly growth records: element i carries the week, group and member count of row i. */
  function WeeklyGrowthStatistics(results: seq<Row>): (analytics: seq<WeeklyStat>)
    ensures |analytics| == |results|
    ensures forall i :: 0 <= i < |results| ==>
      && analytics[i].week == results[i].week
      && analytics[i].group == results[i].group
      && analytics[i].members == results[i].members
  {
    if results == [] then []
    else
      var row := results[0];
      [WeeklyStat(row.week, row.group, row.members)] + WeeklyGrowthStatistics(results[1..])
  }

  /** Monthly growth records: element i carries the month, group and member count of row i. */
  function MonthlyGrowthStatistics(results: seq<Row>): (analytics: seq<MonthlyStat>)
    ensures |analytics| == |results|
    ensures forall i :: 0 <= i < |results| ==>
      && analytics[i].month == results[i].month
      && analytics[i].group == results[i].group
      && analytics[i].members == results[i].members
  {
    if results == [] then []
    else
      var row := results[0];
      [MonthlyStat(row.month, row.group, row.members)] + MonthlyGrowthStatistics(results[1..])
  }

  /** Shaping a batch of rows split in two gives the two shaped halves, joined:
      no output element depends on a neighbouring row. */
  lemma WeeklyGrowthStatisticsAppend(a: seq<Row>, b: seq<Row>)
    ensures WeeklyGrowthStatistics(a + b) == WeeklyGrowthStatistics(a) + WeeklyGrowthStatistics(b)
  {
  }

  lemma MonthlyGrowthStatisticsAppend(a: seq<Row>, b: seq<Row>)
    ensures MonthlyGrowthStatistics(a + b) == MonthlyGrowthStatistics(a) + MonthlyGrowthStatistics(b)
  {
  }

  /** Only the week, group and members columns reach the weekly output:
      rows that agree on those give the same records. */
  lemma WeeklyGrowthStatisticsReadsOnlyItsColumns(a: seq<Row>, b: seq<Row>)
    requires |a| == |b|
    requires forall i :: 0 <= i < |a| ==>
      a[i].week == b[i].week && a[i].group == b[i].group && a[i].members == b[i].members
    ensures WeeklyGrowthStatistics(a) == WeeklyGrowthStatistics(b)
  {
  }

  /** Only the month, group and members columns reach the monthly output. */
  lemma MonthlyGrowthStatisticsReadsOnlyItsColumns(a: seq<Row>, b: seq<Row>)
    requires |a| == |b|
    requires forall i :: 0 <= i < |a| ==>
      a[i].month == b[i].month && a[i].group == b[i].group && a[i].members == b[i].members
    ensures MonthlyGrowthStatistics(a) == MonthlyGrowthStatistics(b)
  {
  }
}
