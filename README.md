# Analytics data-access model

This project models the analytics module of a meetup-reporting API. The module
turns analytics requests into parameterised Cypher queries for a Neo4j graph
database and reshapes the rows the database returns. It serves four endpoints:
weekly group growth, monthly group growth, the list of cities and the list of
countries. Each endpoint pairs a *query function* (builder) with a *result
function* (shaper).

- `records.dfy` (module `Records`): the values involved. These are:
  - result rows and output records;
  - a JavaScript `Date`, known by its `getTime()` milliseconds;
  - the request criteria, generic in the type of their dates;
  - the parameter-map values and the built query.
- `shapers.dfy` (module `Shapers`): the four result functions.
  - `Cities` and `Countries` are methods with a loop. They push the `city`
    (`country`) value of each row into a list, as the source does.
  - `WeeklyGrowthStatistics` and `MonthlyGrowthStatistics` are positional maps.
- `builders.dfy` (module `Builders`): the four query functions.
  - A query is the list of its lines, before they are joined with line feeds.
  - The variable WHERE line of each growth query is the concatenation of a list
    of clause fragments. Each optional fragment is present exactly when its
    filter is present.
- `ticks.dfy` (module `Ticks`): `getTicks`, the conversion of a date to .NET
  ticks (100-ns units since 0001-01-01). It includes a proof that the offset
  621355968000000000 is the tick count of 1970-01-01 in the proleptic
  Gregorian calendar.

The filter criteria follow JavaScript semantics:

- `city` and `country` count as given when they are defined and not empty
  (JavaScript truthiness of a string).
- `groups` is always a list, because both growth builders read its length
  unconditionally.
- `topics` may be absent. It is only copied into the parameter map.

The growth builders treat their dates differently:

- The weekly builder copies `startDate` and `endDate` into the parameter map
  unchanged. The query text then reads their `day`, `month` and `year`. The
  criteria therefore take a type parameter for the dates, and the weekly
  builder accepts dates of any type.
- The monthly builder calls `getTime()` on its dates to turn them into tick
  counts, so its dates are JavaScript `Date`s (`DateTime`).

`_cities` builds a `{city}` record for each row inside the map callback and
then discards it. What it hands on is the flat list of values, `citiesArray`.
`_countries` does the same with `countriesArray`.

## Model

| member | source | states |
|---|---|---|
| `Shapers.Cities` | API/models/analytics.js:19-30 | the result has one element per row, and element i is row i's `city`; nothing is dropped, merged or reordered |
| `Shapers.Countries` | API/models/analytics.js:32-43 | the result has one element per row, and element i is row i's `country`, in row order |
| `Shapers.WeeklyGrowthStatistics` | API/models/analytics.js:45-55 | same length as the rows (so empty in, empty out); record i has exactly the week, group and members of row i |
| `Shapers.MonthlyGrowthStatistics` | API/models/analytics.js:57-67 | same length as the rows; record i has exactly the month, group and members of row i |
| `Shapers.WeeklyGrowthStatisticsAppend` | API/models/analytics.js:46-52 | shaping a concatenation of rows gives the concatenation of the shaped parts: no record depends on another row |
| `Shapers.MonthlyGrowthStatisticsAppend` | API/models/analytics.js:58-64 | shaping a concatenation of rows gives the concatenation of the shaped parts |
| `Shapers.WeeklyGrowthStatisticsReadsOnlyItsColumns` | API/models/analytics.js:47-50 | rows that agree on week, group and members give the same weekly records; other columns are ignored |
| `Shapers.MonthlyGrowthStatisticsReadsOnlyItsColumns` | API/models/analytics.js:59-62 | rows that agree on month, group and members give the same monthly records |
| `Builders.WeeklyWhereParts` | API/models/analytics.js:90 | exactly one fragment per present filter plus the topic filter; the topic filter always comes first; the city fragment is present iff the city is truthy; the group fragment is present iff the group list is non-empty; city comes before groups; no fragment repeats |
| `Builders.MonthlyWhereParts` | API/models/analytics.js:117 | exactly one fragment per present filter plus the topic filter; the topic filter always comes first; the city fragment is present iff the city is truthy; the country fragment is present iff the country is truthy; city comes before country; no fragment repeats |
| `Builders.GetWeeklyGrowthPercent` | API/models/analytics.js:74-100 | the parameter map has exactly the keys startDate, endDate, city, topics and groups, each copied unchanged (dates of any type); the query is the fixed lines around a WHERE line built from `WeeklyWhereParts` |
| `Builders.GetMonthlyGrowthPercent` | API/models/analytics.js:102-128 | the parameter map has exactly six keys; startDate and endDate are the tick counts of the dates; city, country, topics and groups are copied unchanged; the stats pattern line gets the group filter only for a non-empty group list |
| `Builders.WeeklyWhereLine` | API/models/analytics.js:90 | the WHERE line is the topic filter, then the city filter if given, then the group filter if given; it always starts with the topic filter |
| `Builders.MonthlyWhereLine` | API/models/analytics.js:117 | the WHERE line is the topic filter, then the city filter if given, then the country filter if given; it always starts with the topic filter |
| `Builders.MonthlyGroupsFilterIff` | API/models/analytics.js:121 | the stats pattern line ends in ` WHERE group.name in { groups }` iff the group list is non-empty, and is the bare pattern iff it is empty |
| `Builders.WeeklyTextIndependentOfValues` | API/models/analytics.js:82-97 | the weekly query text depends only on whether a city is given and whether groups are given; no filter value is spliced into it |
| `Builders.MonthlyTextIndependentOfValues` | API/models/analytics.js:111-125 | the monthly query text depends only on whether a city, a country and groups are given |
| `Builders.MonthlyBoundsKeepOrder` | API/models/analytics.js:104-105 | the start tick bound is below the end tick bound iff the start date is before the end date |
| `Records.ParamsCopiedUnchanged` | API/models/analytics.js:78-80 | an optional string or list reaches the parameter map unchanged: distinct inputs, absence included, give distinct parameter values |
| `Builders.GetCities` | API/models/analytics.js:130-138 | the query is the fixed two-line city lookup, whatever the params; the params pass through unchanged as the parameter map |
| `Builders.GetCountries` | API/models/analytics.js:140-148 | the query is the fixed two-line country lookup, whatever the params; the params pass through unchanged |
| `Ticks.GetTicks` | API/models/analytics.js:169-175 | the tick count is a whole number of milliseconds, and subtracting the epoch offset and dividing by 10000 gives back the date's milliseconds |
| `Ticks.GetTicksRoundTrip` | API/models/analytics.js:172 | the date can be recovered from its tick count, so distinct dates get distinct tick counts |
| `Ticks.GetTicksAtEpoch` | API/models/analytics.js:172 | the Unix epoch (0 ms) maps to 621355968000000000 |
| `Ticks.GetTicksStrictlyIncreasing` | API/models/analytics.js:172 | one date is earlier than another iff its tick count is smaller |
| `Ticks.GetTicksDifference` | API/models/analytics.js:172 | tick differences are 10000 times millisecond differences (the affine form) |
| `Ticks.UnixEpochIsYear1970` | API/models/analytics.js:172 | the offset 621355968000000000 is 719162 days of ticks, which is the number of days from 0001-01-01 to 1970-01-01 under the Gregorian leap-year rule |

## Left out

- The query runner `Cypher` (API/models/analytics.js:156-159) is not part of this model. It runs the query, passes the rows to the shaper and handles callbacks and errors. It is the module `../neo4j/cypher` (API/models/analytics.js:9), which lies outside this module.
- The module's exports (API/models/analytics.js:162-167) are bindings of those runner-wrapped functions, so they are left out with the runner.
- Callback plumbing: every builder and shaper calls its callback once with a null error. Each is modelled as returning that value.
- The `options` argument of the builders is never read, so it is not modelled.
- The unused imports (API/models/analytics.js:7-12) are not modelled.
- The meaning of the Cypher text (graph matching, `NEXT*0..`, `collect`, `head`, `last`, `DISTINCT`, `ORDER BY`) belongs to the database. Query lines are opaque strings here.
- Joining the lines with `'\n'` is not modelled. A query is its list of lines.
- The claim that every `{ name }` placeholder in the text is a key of the parameter map is not proved. The text is opaque, so placeholders are never parsed out of it.
- Shapers.Cities, Shapers.Countries: the `{city}` / `{country}` records built inside the map callback and then discarded are not modelled. They are never handed on, so they have no effect.
- Ticks.GetTicks: the source computes in IEEE-754 doubles. Tick counts of present-day dates exceed 2^53, so JavaScript rounds them. The model uses exact integer arithmetic.
- Criteria: `city` and `country` are modelled as optional strings. Truthiness of other JavaScript values (numbers, objects) is not modelled.
- Criteria: `groups` is always a list, so the TypeError both growth builders throw when `groups` is undefined is not modelled.
- Builders.GetMonthlyGrowthPercent: its dates are typed as `Date` (`DateTime`). The TypeError that `getTicks` throws there for a date without `getTime()` is not modelled. The weekly builder throws no such error: it copies any date value.
