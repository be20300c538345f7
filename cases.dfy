/** Worked cases of the normalisers, the ones the repository's tests pin. */
module Cases {
  import opened Wrappers
  import opened Text
  import opened Calendar
  import opened Query
  import opened Normalize

  lemma YearIs2022()
    ensures ParsePeriod("2022") == Some(Year(2022))
  {
    assert PadDigits(2022, 4) == "2022";
    assert FormatPeriod(Year(2022)) == "2022";
    ParseFormatPeriod(Year(2022));
  }

  lemma MonthIs2022March()
    ensures ParsePeriod("2022-03") == Some(Month(2022, 3))
  {
    assert PadDigits(2022, 4) == "2022";
    assert PadDigits(3, 2) == "03";
    assert FormatPeriod(Month(2022, 3)) == "2022-03";
    ParseFormatMonth(2022, 3);
  }

  /** `"2022"` spans 2022-01-01T00:00:00 to 2022-12-31T23:59:59.999999999. */
  lemma DatetimeYear()
    ensures FormatDatetime(DatetimeText("2022")) ==
      Ok(Some(Interval(Some(Instant(Date(2022, 1, 1), 0)),
                       Some(Instant(Date(2022, 12, 31), TimeOfDay(23, 59, 59, 999_999_999))))))
  {
    SplitJoin(["2022"], '/');
    YearIs2022();
  }

  /** `"../2022-03"` is open at the start and ends with the last
      nanosecond of 31 March 2022. */
  lemma DatetimeOpenStart()
    ensures FormatDatetime(DatetimeText("../2022-03")) ==
      Ok(Some(Interval(None, Some(Instant(Date(2022, 3, 31), TimeOfDay(23, 59, 59, 999_999_999))))))
  {
    assert Join(["..", "2022-03"], '/') == "../2022-03";
    SplitJoin(["..", "2022-03"], '/');
    MonthIs2022March();
    assert DaysInMonth(2022, 3) == 31;
    assert RangeEnd("2022-03") == Ok(Some(Instant(Date(2022, 3, 31), LastNanoOfDay)));
    assert Expand(["..", "2022-03"]) == Ok(Some(Interval(None, Some(Instant(Date(2022, 3, 31), LastNanoOfDay)))));
  }

  /** `"2022-03/.."` starts at 2022-03-01T00:00:00 and is open at the end. */
  lemma DatetimeOpenEnd()
    ensures FormatDatetime(DatetimeText("2022-03/..")) ==
      Ok(Some(Interval(Some(Instant(Date(2022, 3, 1), 0)), None)))
  {
    assert Join(["2022-03", ".."], '/') == "2022-03/..";
    SplitJoin(["2022-03", ".."], '/');
    MonthIs2022March();
  }

  /** A `None` entry is dropped before counting: `["2022", None]` is the
      single period 2022, not a range. */
  lemma DatetimeNoneDropped()
    ensures FormatDatetime(DatetimeItems([Some("2022"), None])) == FormatDatetime(DatetimeText("2022"))
  {
    assert Present([Some("2022"), None]) == ["2022"];
    SplitJoin(["2022"], '/');
  }

  /** Three components are refused, naming the count. */
  lemma DatetimeThreeComponents()
    ensures FormatDatetime(DatetimeText("2020/2021/2022")) == Err(TooManyDatetimeComponents(3))
  {
    assert Join(["2020", "2021", "2022"], '/') == "2020/2021/2022";
    SplitJoin(["2020", "2021", "2022"], '/');
  }

  /** The two ids of the `ids` test, and the empty string's single piece. */
  lemma ListlikePieces()
    ensures FormatListlike(ListText("area-2-2-imagery,area-2-2-labels"))
         == Some(["area-2-2-imagery", "area-2-2-labels"])
    ensures FormatListlike(ListText("")) == Some([""])
  {
    assert Join(["area-2-2-imagery", "area-2-2-labels"], ',') == "area-2-2-imagery,area-2-2-labels";
    SplitJoin(["area-2-2-imagery", "area-2-2-labels"], ',');
    SplitJoin([""], ',');
  }
}
