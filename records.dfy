/** Values exchanged between the analytics builders, the graph database and the shapers. */
module Records {

  /** A JavaScript property that may be absent: `None` reads as `undefined`. */
  datatype Option<+T> = None | Some(value: T)

  /** A raw result row as the database returns it. A column the query does not
      return reads as `None`. */
  datatype Row = Row(
    city: Option<string>,
    country: Option<string>,
    week: Option<string>,
    month: Option<string>,
    group: Option<string>,
    members: Option<int>)

  /** Output record of the weekly growth endpoint. */
  datatype WeeklyStat = WeeklyStat(week: Option<string>, group: Option<string>, members: Option<int>)

  /** Output record of the monthly growth endpoint. */
  datatype MonthlyStat = MonthlyStat(month: Option<string>, group: Option<string>, members: Option<int>)

  /** A JavaScript `Date`, known by what `getTime()` returns: milliseconds since
      1970-01-01T00:00:00Z. */
  datatype DateTime = DateTime(epochMs: int)

  /** The `params` object the growth endpoints read, with dates of type D. The
      weekly query only reads the `day`, `month` and `year` of its dates inside
      the query text, so it accepts any date value; the monthly query converts
      its dates with `getTime()`, so there D is DateTime. `groups` is always
      defined, since both growth builders read its length unconditionally. */
  datatype Criteria<D> = Criteria(
    startDate: D,
    endDate: D,
    city: Option<string>,
    country: Option<string>,
    topics: Option<seq<string>>,
    groups: seq<string>)

  /** A value placed in the query parameter map; D is the type of the dates
      the caller passed in. */
  datatype ParamValue<D> =
    | Undefined
    | Text(text: string)
    | TextList(items: seq<string>)
    | DateParam(date: D)
    | TickCount(ticks: int)

  /** What a query builder hands to the query runner: the lines of the query
      text (joined with line feeds by the source) and the parameters. */
  datatype Built<P> = Built(lines: seq<string>, params: P)

  /** Parameter map of the growth queries. */
  type ParamMap<D> = map<string, ParamValue<D>>

  /** How an optional string parameter travels in the parameter map. */
  function TextParam<D>(o: Option<string>): ParamValue<D>
  {
    match o
    case None => Undefined
    case Some(s) => Text(s)
  }

  /** How an optional list parameter travels in the parameter map. */
  function ListParam<D>(o: Option<seq<string>>): ParamValue<D>
  {
    match o
    case None => Undefined
    case Some(items) => TextList(items)
  }

  /** Optional parameters are copied unchanged: distinct inputs, absence included,
      stay distinct in the parameter map, and a list never reads back as a string. */
  lemma ParamsCopiedUnchanged<D>(a: Option<string>, b: Option<string>, x: Option<seq<string>>, y: Option<seq<string>>)
    ensures TextParam<D>(a) == TextParam<D>(b) <==> a == b
    ensures ListParam<D>(x) == ListParam<D>(y) <==> x == y
    ensures TextParam<D>(a) == ListParam<D>(x) <==> a == None && x == None
  {
  }
}
