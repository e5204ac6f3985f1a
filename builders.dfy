/** Query functions: each turns the caller's `params` into the lines of a Cypher
    query and the parameter map the query's `{ name }` placeholders are bound from.
    The query lines are opaque text; only their composition is modelled. */
module Builders {
  import opened Records
  import Ticks

  /** JavaScript truthiness of an optional string: defined and not empty. */
  predicate Truthy(o: Option<string>)
  {
    o.Some? && o.value != ""
  }

  /** String concatenation of fragments, left to right. */
  function Concat(parts: seq<string>): (s: string)
    ensures parts != [] ==> parts[0] <= s
  {
    if parts == [] then "" else parts[0] + Concat(parts[1..])
  }

  // Clause fragments of the growth queries.
  const TopicsFilter := "WHERE tag.tag in { topics }"
  const CityFilter := " AND location.city = { city }"
  const CountryFilter := " AND location.country = { country }"
  const WeeklyGroupsFilter := " AND group.name in { groups }"
  const MonthlyGroupsFilter := " WHERE group.name in { groups }"

  /** Lines of the weekly query before its WHERE line. */
  const WeeklyHead: seq<string> := [
    "MATCH (dayStart:Day { day: { startDate }.day, month: { startDate }.month, year: { startDate }.year }),",
    "(dayEnd:Day { day: { endDate }.day, month: { endDate }.month, year: { endDate }.year })",
    "MATCH (dayStart)-[:NEXT*0..]->(day:Day)-[:NEXT*0..]->(dayEnd),",
    "      (day)<-[:HAS_DAY]-(week:Week)",
    "WITH DISTINCT week",
    "MATCH (week)-[:HAS_DAY]->(day)<-[:ON_DAY]-(stats:Stats)<-[:HAS_MEMBERS]-(group:Group)-[:LOCATED_IN]->(location:Location),",
    "      (group)-[:HAS_TAG]->(tag:Tag)"
  ]

  /** Lines of the weekly query after its WHERE line. */
  const WeeklyTail: seq<string> := [
    "WITH day, week, group, stats",
    "ORDER BY day.timestamp",
    "WITH week, head(collect(day)) as day, group, last(collect(stats)) as members",
    "WITH DISTINCT (day.month + \"/\" + day.day) as week, group.name as group, members.count as members, day",
    "ORDER BY day.timestamp",
    "RETURN week, group, members"
  ]

  /** Lines of the monthly query before its WHERE line. */
  const MonthlyHead: seq<string> := [
    "MATCH (d:Day)<-[:HAS_DAY]-(month:Month)",
    "WHERE d.timestamp > { startDate } AND d.timestamp < { endDate }",
    "WITH DISTINCT month",
    "MATCH (month:Month)-[:HAS_DAY]->(day:Day { day: 1 })",
    "MATCH (tag:Tag), (location:Location)"
  ]

  /** Lines of the monthly query between its WHERE line and its stats pattern line. */
  const MonthlyMiddle: seq<string> := [
    "WITH tag, location, day",
    "MATCH (tag)-[:HAS_TAG]-(group:Group),",
    "      (group)-[:LOCATED_IN]->(location),"
  ]

  /** The monthly stats pattern line, before any group filter. */
  const MonthlyStatsPattern := "      (group)-[:HAS_MEMBERS]->(stats:Stats)-[:ON_DAY]->(day)"

  /** Lines of the monthly query after its stats pattern line. */
  const MonthlyTail: seq<string> := [
    "WITH DISTINCT (day.month + \"/\" + day.day + \"/\" + day.year) as month, group.name as group, stats.count as members, day",
    "ORDER BY day.timestamp",
    "RETURN month, group, members"
  ]

  const CitiesQuery: seq<string> := ["MATCH (location:Location)", "RETURN DISTINCT location.city as city"]
  const CountriesQuery: seq<string> := ["MATCH (location:Location)", "RETURN DISTINCT location.country as country"]

  lemma FiltersDistinct()
    ensures TopicsFilter != CityFilter && TopicsFilter != CountryFilter && TopicsFilter != WeeklyGroupsFilter
    ensures CityFilter != CountryFilter && CityFilter != WeeklyGroupsFilter
  {
  }

  /** The fragments of the weekly WHERE line, in the order they are concatenated:
      the topic filter always, then the city filter when a city is given, then the
      group filter when the group list is not empty. */
  function WeeklyWhereParts<D>(params: Criteria<D>): (parts: seq<string>)
    ensures |parts| == 1 + (if Truthy(params.city) then 1 else 0) + (if |params.groups| > 0 then 1 else 0)
    ensures parts[0] == TopicsFilter
    ensures CityFilter in parts <==> Truthy(params.city)
    ensures WeeklyGroupsFilter in parts <==> |params.groups| > 0
    ensures CountryFilter !in parts
    ensures forall i, j :: 0 <= i < |parts| && 0 <= j < |parts| && parts[i] == CityFilter && parts[j] == WeeklyGroupsFilter ==> i < j
    ensures forall i, j :: 0 <= i < j < |parts| ==> parts[i] != parts[j]
  {
    FiltersDistinct();
    [TopicsFilter]
      + (if Truthy(params.city) then [CityFilter] else [])
      + (if |params.groups| > 0 then [WeeklyGroupsFilter] else [])
  }

  /** The fragments of the monthly WHERE line: the topic filter always, then the city
      filter when a city is given, then the country filter when a country is given. */
  function MonthlyWhereParts<D>(params: Criteria<D>): (parts: seq<string>)
    ensures |parts| == 1 + (if Truthy(params.city) then 1 else 0) + (if Truthy(params.country) then 1 else 0)
    ensures parts[0] == TopicsFilter
    ensures CityFilter in parts <==> Truthy(params.city)
    ensures CountryFilter in parts <==> Truthy(params.country)
    ensures WeeklyGroupsFilter !in parts
    ensures forall i, j :: 0 <= i < |parts| && 0 <= j < |parts| && parts[i] == CityFilter && parts[j] == CountryFilter ==> i < j
    ensures forall i, j :: 0 <= i < j < |parts| ==> parts[i] != parts[j]
  {
    FiltersDistinct();
    [TopicsFilter]
      + (if Truthy(params.city) then [CityFilter] else [])
      + (if Truthy(params.country) then [CountryFilter] else [])
  }

  /** The weekly growth query. Its dates travel unchanged, whatever their type. */
  function GetWeeklyGrowthPercent<D>(params: Criteria<D>): (query: Built<ParamMap<D>>)
    ensures query.params.Keys == {"startDate", "endDate", "city", "topics", "groups"}
    ensures query.params["startDate"] == DateParam(params.startDate)
    ensures query.params["endDate"] == DateParam(params.endDate)
    ensures query.params["city"] == TextParam(params.city)
    ensures query.params["topics"] == ListParam(params.topics)
    ensures query.params["groups"] == TextList(params.groups)
    ensures |query.lines| == |WeeklyHead| + 1 + |WeeklyTail|
    ensures query.lines[..|WeeklyHead|] == WeeklyHead
    ensures query.lines[|WeeklyHead|] == Concat(WeeklyWhereParts(params))
    ensures query.lines[|WeeklyHead| + 1..] == WeeklyTail
  {
    var cypherParams := map[
      "startDate" := DateParam(params.startDate),
      "endDate" := DateParam(params.endDate),
      "city" := TextParam(params.city),
      "topics" := ListParam(params.topics),
      "groups" := TextList(params.groups)];
    Built(WeeklyHead + [Concat(WeeklyWhereParts(params))] + WeeklyTail, cypherParams)
  }

  /** The monthly growth query. The date bounds travel as tick counts. */
  function GetMonthlyGrowthPercent(params: Criteria<DateTime>): (query: Built<ParamMap<DateTime>>)
    ensures query.params.Keys == {"startDate", "endDate", "city", "country", "topics", "groups"}
    ensures query.params["startDate"] == TickCount(Ticks.GetTicks(params.startDate))
    ensures query.params["endDate"] == TickCount(Ticks.GetTicks(params.endDate))
    ensures query.params["city"] == TextParam(params.city)
    ensures query.params["country"] == TextParam(params.country)
    ensures query.params["topics"] == ListParam(params.topics)
    ensures query.params["groups"] == TextList(params.groups)
    ensures |query.lines| == |MonthlyHead| + 1 + |MonthlyMiddle| + 1 + |MonthlyTail|
    ensures query.lines[..|MonthlyHead|] == MonthlyHead
    ensures query.lines[|MonthlyHead|] == Concat(MonthlyWhereParts(params))
    ensures query.lines[|MonthlyHead| + 1..|MonthlyHead| + 1 + |MonthlyMiddle|] == MonthlyMiddle
    ensures query.lines[|MonthlyHead| + 1 + |MonthlyMiddle|]
      == MonthlyStatsPattern + (if |params.groups| > 0 then MonthlyGroupsFilter else "")
    ensures query.lines[|MonthlyHead| + 2 + |MonthlyMiddle|..] == MonthlyTail
  {
    var cypherParams := map[
      "startDate" := TickCount(Ticks.GetTicks(params.startDate)),
      "endDate" := TickCount(Ticks.GetTicks(params.endDate)),
      "city" := TextParam(params.city),
      "country" := TextParam(params.country),
      "topics" := ListParam(params.topics),
      "groups" := TextList(params.groups)];
    var statsLine := MonthlyStatsPattern + (if |params.groups| > 0 then MonthlyGroupsFilter else "");
    Built(MonthlyHead + [Concat(MonthlyWhereParts(params))] + MonthlyMiddle + [statsLine] + MonthlyTail, cypherParams)
  }

  /** The weekly WHERE line is the topic filter followed by the city filter when a
      city is given and by the group filter when the group list is not empty. */
  lemma WeeklyWhereLine<D>(params: Criteria<D>)
    ensures GetWeeklyGrowthPercent(params).lines[|WeeklyHead|]
      == TopicsFilter
         + (if Truthy(params.city) then CityFilter else "")
         + (if |params.groups| > 0 then WeeklyGroupsFilter else "")
    ensures TopicsFilter <= GetWeeklyGrowthPercent(params).lines[|WeeklyHead|]
  {
    var parts := WeeklyWhereParts(params);
    ConcatOfThree(parts);
  }

  /** The monthly WHERE line is the topic filter followed by the city filter when a
      city is given and by the country filter when a country is given. */
  lemma MonthlyWhereLine(params: Criteria<DateTime>)
    ensures GetMonthlyGrowthPercent(params).lines[|MonthlyHead|]
      == TopicsFilter
         + (if Truthy(params.city) then CityFilter else "")
         + (if Truthy(params.country) then CountryFilter else "")
    ensures TopicsFilter <= GetMonthlyGrowthPercent(params).lines[|MonthlyHead|]
  {
    var parts := MonthlyWhereParts(params);
    ConcatOfThree(parts);
  }

  /** Concatenating one, two or three fragments. */
  lemma ConcatOfThree(parts: seq<string>)
    requires 1 <= |parts| <= 3
    ensures Concat(parts) == parts[0] + (if |parts| > 1 then parts[1] else "") + (if |parts| > 2 then parts[2] else "")
  {
  }

  /** The monthly stats pattern line carries the group filter exactly when the
      group list is not empty. */
  lemma MonthlyGroupsFilterIff(params: Criteria<DateTime>)
    ensures var line := GetMonthlyGrowthPercent(params).lines[|MonthlyHead| + 1 + |MonthlyMiddle|];
      && MonthlyStatsPattern <= line
      && (line == MonthlyStatsPattern + MonthlyGroupsFilter <==> |params.groups| > 0)
      && (line == MonthlyStatsPattern <==> |params.groups| == 0)
  {
  }

  /** Filter values never reach the weekly query text: two requests whose city is
      equally truthy and whose group lists are equally empty get the same text,
      whatever their dates, topics, city and group names. */
  lemma WeeklyTextIndependentOfValues<D>(a: Criteria<D>, b: Criteria<D>)
    requires Truthy(a.city) == Truthy(b.city)
    requires (|a.groups| > 0) == (|b.groups| > 0)
    ensures GetWeeklyGrowthPercent(a).lines == GetWeeklyGrowthPercent(b).lines
  {
  }

  /** Filter values never reach the monthly query text either. */
  lemma MonthlyTextIndependentOfValues(a: Criteria<DateTime>, b: Criteria<DateTime>)
    requires Truthy(a.city) == Truthy(b.city)
    requires Truthy(a.country) == Truthy(b.country)
    requires (|a.groups| > 0) == (|b.groups| > 0)
    ensures GetMonthlyGrowthPercent(a).lines == GetMonthlyGrowthPercent(b).lines
  {
  }

  /** The monthly tick bounds keep the order of the dates they come from. */
  lemma MonthlyBoundsKeepOrder(params: Criteria<DateTime>)
    ensures var q := GetMonthlyGrowthPercent(params);
      params.startDate.epochMs < params.endDate.epochMs
      <==> q.params["startDate"].ticks < q.params["endDate"].ticks
  {
    Ticks.GetTicksStrictlyIncreasing(params.startDate, params.endDate);
  }

  /** The city lookup: a fixed query; the caller's params pass through as they are. */
  function GetCities<P>(params: P): (query: Built<P>)
    ensures query.params == params
    ensures query.lines == CitiesQuery
  {
    Built(CitiesQuery, params)
  }

  /** The country lookup: a fixed query; the caller's params pass through as they are. */
  function GetCountries<P>(params: P): (query: Built<P>)
    ensures query.params == params
    ensures query.lines == CountriesQuery
  {
    Built(CountriesQuery, params)
  }
}
