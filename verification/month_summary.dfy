/** The month summary card's figures. The aggregations it calls are not
    part of this model and are parameters. */
module MonthSummary {
  import opened Types

  datatype TagHours = TagHours(tag: string, hours: real)

  datatype Aggregations = Aggregations(
    totalHours: (seq<ServiceReport>, int, int) -> real,
    ldcHours: (seq<ServiceReport>, int, int) -> real,
    standardHours: (seq<ServiceReport>, int, int) -> real,
    otherHours: (seq<ServiceReport>, int, int) -> Option<seq<TagHours>>)

  datatype Figures = Figures(total: real, ldc: real, standard: real, other: Option<seq<TagHours>>)

  /** With no reports for the month (`null`), zero hours and no other
      categories; otherwise the aggregations' answers for the month. */
  function MonthFigures(monthsReports: Option<seq<ServiceReport>>, month: int, year: int, agg: Aggregations): (f: Figures)
    ensures monthsReports.None? ==> f == Figures(0.0, 0.0, 0.0, None)
    ensures monthsReports.Some? ==>
              var rs := monthsReports.value;
              f == Figures(agg.totalHours(rs, month, year), agg.ldcHours(rs, month, year),
                           agg.standardHours(rs, month, year), agg.otherHours(rs, month, year))
  {
    match monthsReports
    case None => Figures(0.0, 0.0, 0.0, None)
    case Some(rs) =>
      Figures(agg.totalHours(rs, month, year), agg.ldcHours(rs, month, year),
              agg.standardHours(rs, month, year), agg.otherHours(rs, month, year))
  }
}
