/** The month calendar's marks: one dot per day that has a report. */
module MonthTimeReportsCalendar {
  import opened Types

  /** The marking of one day: `{ marked: true, dotColor: accent }`. */
  datatype Mark = Mark(marked: bool, dotColor: string)

  /** The day keys of the reports. `dayKey` stands for
      `moment(date).format('YYYY-MM-DD')` in the device's local time. */
  ghost function DayKeys(reports: seq<ServiceReport>, dayKey: Minutes -> string): set<string> {
    set r | r in reports :: dayKey(r.date)
  }

  /** The marks the calendar receives: every day key of a report, marked
      with the accent dot, and nothing else. */
  ghost function Marks(reports: seq<ServiceReport>, dayKey: Minutes -> string, accent: string): map<string, Mark> {
    map k | k in DayKeys(reports, dayKey) :: Mark(true, accent)
  }

  /** `markedDates`: none for a null report list; otherwise the `forEach`
      writes each report's day key, so a day with several reports keeps one
      entry. */
  method MarkedDates(monthsReports: Option<seq<ServiceReport>>, dayKey: Minutes -> string, accent: string)
    returns (markedDates: map<string, Mark>)
    ensures monthsReports.None? ==> markedDates == map[]
    ensures monthsReports.Some? ==> markedDates == Marks(monthsReports.value, dayKey, accent)
  {
    if monthsReports.None? {
      return map[];
    }
    var reports := monthsReports.value;
    markedDates := map[];
    for i := 0 to |reports|
      invariant markedDates == Marks(reports[..i], dayKey, accent)
    {
      var date := dayKey(reports[i].date);
      markedDates := markedDates[date := Mark(true, accent)];
      assert DayKeys(reports[..i + 1], dayKey) == DayKeys(reports[..i], dayKey) + {date} by {
        assert reports[..i + 1] == reports[..i] + [reports[i]];
      }
    }
    assert reports[..|reports|] == reports;
  }

  /** Every report's day is marked with the accent dot, and every marked
      day is some report's day. */
  lemma MarksAreReportDays(reports: seq<ServiceReport>, dayKey: Minutes -> string, accent: string)
    ensures forall r :: r in reports ==> dayKey(r.date) in Marks(reports, dayKey, accent)
                                         && Marks(reports, dayKey, accent)[dayKey(r.date)] == Mark(true, accent)
    ensures forall k :: k in Marks(reports, dayKey, accent) ==> exists r :: r in reports && dayKey(r.date) == k
  {
  }

  /** The marks do not depend on the order of the reports, and repeating a
      report's day adds no entry. */
  lemma MarksIgnoreOrderAndRepeats(a: seq<ServiceReport>, b: seq<ServiceReport>, dayKey: Minutes -> string, accent: string)
    requires forall r :: r in a <==> r in b
    ensures Marks(a, dayKey, accent) == Marks(b, dayKey, accent)
  {
    assert DayKeys(a, dayKey) == DayKeys(b, dayKey);
  }

  /** There are never more marked days than reports. */
  lemma {:induction false} AtMostOneMarkPerReport(reports: seq<ServiceReport>, dayKey: Minutes -> string, accent: string)
    ensures |Marks(reports, dayKey, accent)| <= |reports|
  {
    KeysBound(reports, dayKey);
    assert Marks(reports, dayKey, accent).Keys == DayKeys(reports, dayKey);
  }

  lemma {:induction false} KeysBound(reports: seq<ServiceReport>, dayKey: Minutes -> string)
    ensures |DayKeys(reports, dayKey)| <= |reports|
  {
    if reports != [] {
      var rest := reports[1..];
      KeysBound(rest, dayKey);
      assert DayKeys(reports, dayKey) == DayKeys(rest, dayKey) + {dayKey(reports[0].date)} by {
        assert reports == [reports[0]] + rest;
      }
    } else {
      assert DayKeys(reports, dayKey) == {};
    }
  }
}
