/** The dashboard (`/`): the greeting for the hour of day, the date line in
    Portuguese, and the tallest bar of the monthly-orders chart. The clock
    is an input: `new Date()` is read by the caller. */
module Dashboard {
  import opened Base
  import Seqs

  const Morning: string := "Bom dia"
  const Afternoon: string := "Boa tarde"
  const Evening: string := "Boa noite"

  /** The greetings in the order they follow one another during a day. */
  const Greetings: seq<string> := [Morning, Afternoon, Evening]

  /** `getGreeting()` for the local hour. */
  function Greeting(hour: int): (g: string)
    ensures g in Greetings
    ensures g == "Bom dia" <==> hour < 12
    ensures g == "Boa noite" <==> hour >= 18
  {
    if hour < 12 then Morning
    else if hour < 18 then Afternoon
    else Evening
  }

  /** Where a greeting stands in the day. */
  function Period(g: string): (k: nat)
    requires g in Greetings
    ensures k < |Greetings| && Greetings[k] == g
  {
    Seqs.IndexOf(Greetings, g)
  }

  /** As the hour advances the greeting only moves forward: morning, then
      afternoon, then evening, never back. */
  lemma GreetingMovesForward(earlier: int, later: int)
    requires earlier <= later
    ensures Period(Greeting(earlier)) <= Period(Greeting(later))
  {
  }

  /** Over the 24 hours of a day each greeting is used, and the afternoon
      exactly from 12 to 17. */
  lemma GreetingCoversDay(hour: int)
    requires 0 <= hour < 24
    ensures Greeting(hour) == "Boa tarde" <==> 12 <= hour <= 17
    ensures Greeting(0) == "Bom dia" && Greeting(12) == "Boa tarde" && Greeting(23) == "Boa noite"
  {
  }

  // ---------------------------------------------------------------------
  // The date line
  // ---------------------------------------------------------------------

  const DayNames: seq<string> := ["domingo", "segunda-feira", "terça-feira", "quarta-feira",
                                  "quinta-feira", "sexta-feira", "sábado"]

  const MonthNames: seq<string> := ["janeiro", "fevereiro", "março", "abril", "maio", "junho",
                                    "julho", "agosto", "setembro", "outubro", "novembro", "dezembro"]

  /** The calendar fields the date line reads: `getDay()` (0 is Sunday),
      `getDate()`, `getMonth()` (0 is January) and `getFullYear()`. */
  datatype CalendarDate = CalendarDate(weekday: int, day: int, month: int, year: int)

  /** The ranges a `Date` guarantees for the two table indexes. */
  predicate ValidDate(d: CalendarDate) {
    0 <= d.weekday < 7 && 0 <= d.month < 12
  }

  /** `getFormattedDate()`: `<weekday>, <day> de <month> de <year>`. */
  function FormattedDate(d: CalendarDate): (s: string)
    requires ValidDate(d)
    ensures StartsWith(s, DayNames[d.weekday] + ", ")
  {
    DayNames[d.weekday] + ", " + IntToString(d.day) + " de " + MonthNames[d.month] + " de " + IntToString(d.year)
  }

  /** The position of `name` in a table, when it is there. */
  function Lookup(names: seq<string>, name: string): (k: Option<nat>)
    ensures k.Some? <==> name in names
    ensures k.Some? ==> k.value < |names| && names[k.value] == name
  {
    if name in names then Some(Seqs.IndexOf(names, name)) else None
  }

  /** Reads a date line back into its fields: the weekday up to the comma,
      then the day, the month and the year separated by " de ". */
  function ParseFormattedDate(s: string): Option<CalendarDate> {
    match SplitFirst(s, ',')
    case None => None
    case Some((dayName, afterComma)) =>
      if !StartsWith(afterComma, " ") then None else ParseFromDay(dayName, afterComma[1..])
  }

  /** The rest of a date line after `<weekday>, `. */
  function ParseFromDay(dayName: string, rest: string): Option<CalendarDate> {
    match SplitFirst(rest, ' ')
    case None => None
    case Some((dayText, afterDay)) =>
      if !StartsWith(afterDay, "de ") then None else ParseFromMonth(dayName, dayText, afterDay[3..])
  }

  /** The rest of a date line after `<weekday>, <day> de `. */
  function ParseFromMonth(dayName: string, dayText: string, rest: string): Option<CalendarDate> {
    match SplitFirst(rest, ' ')
    case None => None
    case Some((monthName, afterMonth)) =>
      if !StartsWith(afterMonth, "de ") then None else ParseFields(dayName, dayText, monthName, afterMonth[3..])
  }

  /** The four parts of a date line, each read by its own rule. */
  function ParseFields(dayName: string, dayText: string, monthName: string, yearText: string): Option<CalendarDate> {
    match (Lookup(DayNames, dayName), ParseInt(dayText), Lookup(MonthNames, monthName), ParseInt(yearText))
    case (Some(w), Some(day), Some(m), Some(y)) => Some(CalendarDate(w, day, m, y))
    case _ => None
  }

  predicate NoDuplicateNames(names: seq<string>) {
    forall i, j :: 0 <= i < j < |names| ==> names[i] != names[j]
  }

  lemma TablesAreWellFormed()
    ensures NoDuplicateNames(DayNames) && NoDuplicateNames(MonthNames)
    ensures forall i :: 0 <= i < |DayNames| ==> ',' !in DayNames[i]
    ensures forall i :: 0 <= i < |MonthNames| ==> ' ' !in MonthNames[i]
  {
  }

  /** In a table without duplicates, looking up an entry finds its own
      position. */
  lemma LookupEntry(names: seq<string>, k: nat)
    requires NoDuplicateNames(names) && k < |names|
    ensures Lookup(names, names[k]) == Some(k)
  {
    var found := Lookup(names, names[k]).value;
    assert names[k] !in names[..found];
  }

  lemma IntTextHasNoSpace(i: int)
    ensures ' ' !in IntToString(i)
  {
    IntToStringAlphabet(i);
  }

  /** Reading the month and year part: the split falls after the month as
      long as the month holds no space. */
  lemma FromMonthParts(dayName: string, dayText: string, monthName: string, yearText: string)
    requires ' ' !in monthName
    ensures ParseFromMonth(dayName, dayText, monthName + " de " + yearText) == ParseFields(dayName, dayText, monthName, yearText)
  {
    var afterMonth := "de " + yearText;
    assert monthName + " de " + yearText == monthName + [' '] + afterMonth;
    SplitFirstOfJoin(monthName, ' ', afterMonth);
    assert afterMonth[..3] == "de " && afterMonth[3..] == yearText;
  }

  /** Reading from the day on: the split falls after the day as long as
      the day holds no space. */
  lemma FromDayParts(dayName: string, dayText: string, rest: string)
    requires ' ' !in dayText
    ensures ParseFromDay(dayName, dayText + " de " + rest) == ParseFromMonth(dayName, dayText, rest)
  {
    var afterDay := "de " + rest;
    assert dayText + " de " + rest == dayText + [' '] + afterDay;
    SplitFirstOfJoin(dayText, ' ', afterDay);
    assert afterDay[..3] == "de " && afterDay[3..] == rest;
  }

  /** Reading a whole line: the split falls after the weekday as long as
      the weekday holds no comma. */
  lemma WholeLineParts(dayName: string, rest: string)
    requires ',' !in dayName
    ensures ParseFormattedDate(dayName + ", " + rest) == ParseFromDay(dayName, rest)
  {
    var afterComma := " " + rest;
    assert dayName + ", " + rest == dayName + [','] + afterComma;
    SplitFirstOfJoin(dayName, ',', afterComma);
    assert afterComma[..1] == " " && afterComma[1..] == rest;
  }

  /** Reading a line made of four parts gives each part to its own rule, as
      long as the weekday holds no comma and the day and month no space. */
  lemma ParseParts(dayName: string, dayText: string, monthName: string, yearText: string)
    requires ',' !in dayName && ' ' !in dayText && ' ' !in monthName
    ensures ParseFormattedDate(dayName + ", " + dayText + " de " + monthName + " de " + yearText) ==
      ParseFields(dayName, dayText, monthName, yearText)
  {
    var tail := monthName + " de " + yearText;
    assert dayName + ", " + dayText + " de " + monthName + " de " + yearText == dayName + ", " + (dayText + " de " + tail);
    WholeLineParts(dayName, dayText + " de " + tail);
    assert dayText + " de " + tail == dayText + " de " + (monthName + " de " + yearText);
    FromDayParts(dayName, dayText, tail);
    FromMonthParts(dayName, dayText, monthName, yearText);
  }

  /** The date line names every field unambiguously: reading it back gives
      the date it was made from. */
  lemma FormattedDateRoundTrip(d: CalendarDate)
    requires ValidDate(d)
    ensures ParseFormattedDate(FormattedDate(d)) == Some(d)
  {
    TablesAreWellFormed();
    IntTextHasNoSpace(d.day);
    ParseParts(DayNames[d.weekday], IntToString(d.day), MonthNames[d.month], IntToString(d.year));
    LookupEntry(DayNames, d.weekday);
    LookupEntry(MonthNames, d.month);
    ParseIntRoundTrip(d.day);
    ParseIntRoundTrip(d.year);
  }

  /** Different dates give different date lines. */
  lemma FormattedDateInjective(a: CalendarDate, b: CalendarDate)
    requires ValidDate(a) && ValidDate(b)
    ensures FormattedDate(a) == FormattedDate(b) ==> a == b
  {
    FormattedDateRoundTrip(a);
    FormattedDateRoundTrip(b);
  }

  // ---------------------------------------------------------------------
  // The monthly-orders chart
  // ---------------------------------------------------------------------

  datatype MonthOrders = MonthOrders(month: string, orders: int)

  const MonthlyOrders: seq<MonthOrders> := [
    MonthOrders("Jan", 200), MonthOrders("Fev", 320), MonthOrders("Mar", 240), MonthOrders("Abr", 280),
    MonthOrders("Mai", 310), MonthOrders("Jun", 300), MonthOrders("Jul", 350), MonthOrders("Ago", 320),
    MonthOrders("Set", 380), MonthOrders("Out", 310), MonthOrders("Nov", 400), MonthOrders("Dez", 360)
  ]

  /** `Math.max(...xs)`; with no argument JavaScript gives `-Infinity`,
      which is `None` here. */
  function MathMax(xs: seq<int>): (m: Option<int>)
    ensures m.None? <==> |xs| == 0
    ensures m.Some? ==> m.value in xs
    ensures m.Some? ==> forall i :: 0 <= i < |xs| ==> xs[i] <= m.value
    decreases |xs|
  {
    if |xs| == 0 then None
    else match MathMax(xs[1..])
      case None => Some(xs[0])
      case Some(rest) => Some(if xs[0] >= rest then xs[0] else rest)
  }

  function Orders(ms: seq<MonthOrders>): (r: seq<int>)
    ensures |r| == |ms| && forall i :: 0 <= i < |ms| ==> r[i] == ms[i].orders
  {
    seq(|ms|, i requires 0 <= i < |ms| => ms[i].orders)
  }

  /** `maxOrders`: no month has more orders, and some month has exactly as
      many. */
  function MaxOrders(ms: seq<MonthOrders>): (m: Option<int>)
    ensures m.None? <==> |ms| == 0
    ensures m.Some? ==> forall i :: 0 <= i < |ms| ==> ms[i].orders <= m.value
    ensures m.Some? ==> exists i :: 0 <= i < |ms| && ms[i].orders == m.value
  {
    MathMax(Orders(ms))
  }

  /** The maximum is the only value that bounds every month and is reached
      by one: any such value is what `MaxOrders` returns. */
  lemma MaxOrdersCharacterized(ms: seq<MonthOrders>, top: int)
    requires exists i :: 0 <= i < |ms| && ms[i].orders == top
    requires forall i :: 0 <= i < |ms| ==> ms[i].orders <= top
    ensures MaxOrders(ms) == Some(top)
  {
  }

  /** The chart scales its bars to November's 400 orders. */
  lemma ChartMaximum()
    ensures MaxOrders(MonthlyOrders) == Some(400)
  {
    assert MonthlyOrders[10].orders == 400;
    assert forall j :: 0 <= j < |MonthlyOrders| ==> MonthlyOrders[j].orders <= 400;
    MaxOrdersCharacterized(MonthlyOrders, 400);
  }
}
