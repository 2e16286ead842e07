/**
 * The guest table's column descriptions (src/contants/constant.ts): the status
 * colours, the two comparators, the timestamp renderer, the column flags and
 * the sample rows. Date parsing is an input: `epochOf` is `Date.parse`,
 * `dateOf` the local date and time of a parseable value.
 */
module Columns {
  import opened Wrappers
  import opened JsText
  import opened Types
  import opened GuestTable

  /** The four statuses the backend reports. */
  const KnownStatuses := ["sent", "sending", "not sent", "failed"]

  /** `statusColors[status] || 'default'` (src/contants/constant.ts:8-16). */
  function StatusColor(status: string): (color: string)
    ensures color != "default" <==> status in KnownStatuses
    ensures status == "sent" ==> color == "green"
    ensures status == "sending" ==> color == "blue"
    ensures status == "not sent" ==> color == "orange"
    ensures status == "failed" ==> color == "red"
  {
    if status == "sent" then "green"
    else if status == "sending" then "blue"
    else if status == "not sent" then "orange"
    else if status == "failed" then "red"
    else "default"
  }

  /** The four known statuses get four different colours. */
  lemma StatusColorsDistinct(s: string, t: string)
    requires s in KnownStatuses && t in KnownStatuses && s != t
    ensures StatusColor(s) != StatusColor(t)
  {
  }

  /** The name column's comparator: lowercased names in string order (src/contants/constant.ts:30). */
  function NameOrder(a: Row, b: Row): (r: int)
    ensures r == 0 <==> Lower(a.name) == Lower(b.name)
  {
    Compare(Lower(a.name), Lower(b.name))
  }

  /** Names that differ only in case sort alike, against any other row. */
  lemma NameOrderIgnoresCase(a: Row, a': Row, b: Row)
    requires Lower(a.name) == Lower(a'.name)
    ensures NameOrder(a, b) == NameOrder(a', b) && NameOrder(b, a) == NameOrder(b, a')
  {
  }

  lemma NameOrderAntisymmetric(a: Row, b: Row)
    ensures NameOrder(a, b) == -NameOrder(b, a)
  {
    CompareAntisymmetric(Lower(a.name), Lower(b.name));
  }

  /** The timestamp column's comparator: by time when both parse, otherwise by text (src/contants/constant.ts:63-70). */
  function TimestampOrder(a: Row, b: Row, epochOf: string -> Option<int>): (r: int)
    ensures epochOf(a.timestamp).Some? && epochOf(b.timestamp).Some? ==>
              r == epochOf(a.timestamp).value - epochOf(b.timestamp).value
    ensures (epochOf(a.timestamp).None? || epochOf(b.timestamp).None?) ==>
              (r == 0 <==> a.timestamp == b.timestamp)
  {
    var ea := epochOf(a.timestamp);
    var eb := epochOf(b.timestamp);
    if ea.Some? && eb.Some? then ea.value - eb.value
    else Compare(a.timestamp, b.timestamp)
  }

  /** Swapping the rows negates the comparison, in both branches. */
  lemma TimestampOrderAntisymmetric(a: Row, b: Row, epochOf: string -> Option<int>)
    ensures TimestampOrder(a, b, epochOf) == -TimestampOrder(b, a, epochOf)
  {
    CompareAntisymmetric(a.timestamp, b.timestamp);
  }

  /** A point in local time as `getDate`, `getMonth`, `getFullYear`, `getHours` and `getMinutes` give it. */
  datatype DateParts = DateParts(day: int, month: int, year: int, hours: int, minutes: int)

  predicate ValidParts(p: DateParts) {
    1 <= p.day <= 31 && 0 <= p.month <= 11 && 0 <= p.hours <= 23 && 0 <= p.minutes <= 59
  }

  type LocalDate = p: DateParts | ValidParts(p) witness DateParts(1, 0, 1970, 0, 0)

  /** The clock hour: `hours % 12`, with 0 shown as 12 (src/contants/constant.ts:81-82). */
  function Hour12(h: int): (r: int)
    requires 0 <= h <= 23
    ensures 1 <= r <= 12
    ensures r % 12 == h % 12
  {
    if h % 12 == 0 then 12 else h % 12
  }

  /** `hours >= 12 ? 'PM' : 'AM'`. */
  function Meridiem(h: int): (m: string)
    ensures m == "AM" <==> h < 12
    ensures m == "PM" <==> h >= 12
  {
    if h >= 12 then "PM" else "AM"
  }

  /** The clock hour and the meridiem together determine the hour of the day. */
  lemma Hour12Recovers(h: int)
    requires 0 <= h <= 23
    ensures Hour12(h) % 12 + (if Meridiem(h) == "PM" then 12 else 0) == h
  {
  }

  /** `dd-mm-`. */
  function DateHead(day: int, month: int): (h: string)
    requires 1 <= day <= 31 && 0 <= month <= 11
    ensures |h| == 6
  {
    Pad2RoundTrip(day);
    Pad2RoundTrip(month + 1);
    Pad2(day) + "-" + Pad2(month + 1) + "-"
  }

  /** ` hh:mm AM|PM`. */
  function TimeTail(hours: int, minutes: int): (t: string)
    requires 0 <= hours <= 23 && 0 <= minutes <= 59
    ensures |t| == 9
  {
    Pad2RoundTrip(Hour12(hours));
    Pad2RoundTrip(minutes);
    " " + Pad2(Hour12(hours)) + ":" + Pad2(minutes) + " " + Meridiem(hours)
  }

  /** `dd-mm-yyyy hh:mm AM|PM` (src/contants/constant.ts:75-84). */
  function FormatDate(p: LocalDate): (s: string)
    ensures |s| == 15 + |DecimalString(p.year)|
  {
    DateHead(p.day, p.month) + DecimalString(p.year) + TimeTail(p.hours, p.minutes)
  }

  /** The timestamp column's renderer: a value that does not parse is shown unchanged (src/contants/constant.ts:71-87). */
  function RenderTimestamp(value: string, dateOf: string -> Option<LocalDate>): (s: string)
    ensures dateOf(value).None? ==> s == value
    ensures dateOf(value).Some? ==> s == FormatDate(dateOf(value).value)
  {
    match dateOf(value)
    case None => value
    case Some(p) => FormatDate(p)
  }

  predicate AllDigits(s: string) {
    forall i :: 0 <= i < |s| ==> '0' <= s[i] <= '9'
  }

  /** Two digits read as a number. */
  function TwoDigits(s: string): int
    requires |s| == 2 && AllDigits(s)
  {
    10 * DigitValue(s[0]) + DigitValue(s[1])
  }

  /** `dd-mm-`: the day and the month number. */
  function ReadHead(h: string): Option<(int, int)>
    requires |h| == 6
  {
    if h[2] == '-' && h[5] == '-' && AllDigits(h[0..2]) && AllDigits(h[3..5])
    then Some((TwoDigits(h[0..2]), TwoDigits(h[3..5])))
    else None
  }

  /** ` hh:mm AM|PM`: the hour of the day and the minutes. */
  function ReadTail(t: string): Option<(int, int)>
    requires |t| == 9
  {
    if t[0] == ' ' && t[3] == ':' && t[6] == ' ' && AllDigits(t[1..3]) && AllDigits(t[4..6])
       && (t[7..] == "AM" || t[7..] == "PM")
    then Some((TwoDigits(t[1..3]) % 12 + (if t[7..] == "PM" then 12 else 0), TwoDigits(t[4..6])))
    else None
  }

  /** Reads a rendered timestamp back into the date and time it shows; `None` when the text has another shape. */
  function ReadRendered(s: string): (r: Option<DateParts>)
    ensures r.Some? ==> |s| >= 16
  {
    if |s| < 16 then None
    else
      var date, year, time := ReadHead(s[..6]), s[6..|s| - 9], ReadTail(s[|s| - 9..]);
      if date.Some? && time.Some? && AllDigits(year)
      then Some(DateParts(date.value.0, date.value.1 - 1, DigitsValue(year), time.value.0, time.value.1))
      else None
  }

  lemma HeadReadsBack(day: int, month: int)
    requires 1 <= day <= 31 && 0 <= month <= 11
    ensures ReadHead(DateHead(day, month)) == Some((day, month + 1))
  {
    Pad2Reads(day);
    Pad2Reads(month + 1);
    var h := DateHead(day, month);
    assert h[0..2] == Pad2(day) && h[3..5] == Pad2(month + 1);
  }

  lemma TailReadsBack(hours: int, minutes: int)
    requires 0 <= hours <= 23 && 0 <= minutes <= 59
    ensures ReadTail(TimeTail(hours, minutes)) == Some((hours, minutes))
  {
    Pad2Reads(Hour12(hours));
    Pad2Reads(minutes);
    var t := TimeTail(hours, minutes);
    assert t[1..3] == Pad2(Hour12(hours)) && t[4..6] == Pad2(minutes) && t[7..] == Meridiem(hours);
    Hour12Recovers(hours);
  }

  lemma SplitThree(s: string, head: string, y: string, tail: string)
    requires s == head + y + tail && |head| == 6 && |tail| == 9
    ensures s[..6] == head && s[6..|s| - 9] == y && s[|s| - 9..] == tail
  {
  }

  /** The two-digit fields of a rendered timestamp read back as their numbers. */
  lemma Pad2Reads(n: nat)
    requires n < 100
    ensures |Pad2(n)| == 2 && AllDigits(Pad2(n)) && TwoDigits(Pad2(n)) == n
  {
    Pad2RoundTrip(n);
  }

  /** A text made of a readable head, year and tail reads as the date they show. */
  lemma ReadPieces(head: string, y: string, tail: string, d: int, m: int, h: int, mi: int)
    requires |head| == 6 && |tail| == 9 && |y| >= 1 && AllDigits(y)
    requires ReadHead(head) == Some((d, m)) && ReadTail(tail) == Some((h, mi))
    ensures ReadRendered(head + y + tail) == Some(DateParts(d, m - 1, DigitsValue(y), h, mi))
  {
    var s := head + y + tail;
    SplitThree(s, head, y, tail);
    ReadFields(s, d, m, h, mi);
  }

  lemma ReadFields(s: string, d: int, m: int, h: int, mi: int)
    requires |s| >= 16 && AllDigits(s[6..|s| - 9])
    requires ReadHead(s[..6]) == Some((d, m)) && ReadTail(s[|s| - 9..]) == Some((h, mi))
    ensures ReadRendered(s) == Some(DateParts(d, m - 1, DigitsValue(s[6..|s| - 9]), h, mi))
  {
  }

  /** Rendering loses nothing for a year that is not negative: the shown text reads back as the same date and time. */
  lemma RenderReadsBack(p: LocalDate)
    requires p.year >= 0
    ensures ReadRendered(FormatDate(p)) == Some(p)
  {
    var y := DecimalString(p.year);
    HeadReadsBack(p.day, p.month);
    TailReadsBack(p.hours, p.minutes);
    NatDigitsRoundTrip(p.year);
    ReadPieces(DateHead(p.day, p.month), y, TimeTail(p.hours, p.minutes), p.day, p.month + 1, p.hours, p.minutes);
  }

  /** The table's columns (src/contants/constant.ts:18-89). */
  const RSVPColumns: seq<CustomColumn> := [
    CustomColumn("SR No.", SrNo, "sr_no", false, false, None, None, None),
    CustomColumn("Name", Name, "name", true, true, None, Some(NameSorter), None),
    CustomColumn("Phone", Phone, "phone", true, false, None, None, None),
    CustomColumn("Invite Type", InviteType, "inviteType", true, false, None, None, None),
    CustomColumn("Status", Status, "status", true, false, Some(StatusTagRender), None, None),
    CustomColumn("Responses", Responses, "responses", true, false, None, None, None),
    CustomColumn("Timestamp", Timestamp, "timestamp", true, true, Some(TimestampRender), Some(TimestampSorter), None)
  ]

  /** Only name and timestamp sort, every column but the serial number is searchable, and keys are distinct. */
  lemma ColumnFlags()
    ensures forall i :: 0 <= i < |RSVPColumns| ==>
              (RSVPColumns[i].enableSort && RSVPColumns[i].sorter.Some? <==> RSVPColumns[i].dataIndex in {Name, Timestamp})
              && (RSVPColumns[i].enableSearch <==> RSVPColumns[i].dataIndex != SrNo)
    ensures forall i, j :: 0 <= i < j < |RSVPColumns| ==> RSVPColumns[i].key != RSVPColumns[j].key
  {
  }

  /** Assembled for the table, exactly the name and timestamp columns carry a sorter, and only the timestamp column the day filter. */
  lemma AssembledColumns()
    ensures var cs := AssembleColumns(Some(RSVPColumns));
            |cs| == 7
            && (forall i :: 0 <= i < 7 ==> (cs[i].sorter.Some? <==> cs[i].dataIndex == Name || cs[i].dataIndex == Timestamp))
            && (forall i :: 0 <= i < 7 ==> (cs[i].search == Some(DaySearch) <==> cs[i].dataIndex == Timestamp))
            && cs[0].search.None? && cs[0].sorter.None?
  {
    ColumnFlags();
  }

  /** The sample rows the table can be shown with (src/contants/constant.ts:91-392). */
  const RSVPData: seq<Row> := [
      Row("1", 1, "John Doe", "123-456-7890", "VIP", "sending", "Accepted", "2024-06-01 10:00"),
      Row("2", 2, "Jane Smith", "987-654-3210", "Regular", "not sent", "Pending", "2024-06-02 14:30"),
      Row("3", 3, "Alice Johnson", "555-123-4567", "VIP", "sent", "Declined", "2024-06-03 09:15"),
      Row("4", 4, "Bob Brown", "444-987-6543", "Regular", "sent", "Accepted", "2024-06-04 16:45"),
      Row("5", 5, "Charlie Green", "222-333-4444", "VIP", "sent", "Accepted", "2024-06-05 11:20"),
      Row("6", 6, "Diana Prince", "333-444-5555", "Regular", "not sent", "Pending", "2024-06-06 13:10"),
      Row("7", 7, "Ethan Hunt", "666-777-8888", "VIP", "sent", "Declined", "2024-06-07 08:45"),
      Row("8", 8, "Fiona Apple", "777-888-9999", "Regular", "sent", "Accepted", "2024-06-08 17:30"),
      Row("9", 9, "George Lucas", "888-999-0000", "VIP", "sent", "Accepted", "2024-06-09 12:00"),
      Row("10", 10, "Hannah Montana", "999-000-1111", "Regular", "not sent", "Pending", "2024-06-10 15:40"),
      Row("11", 11, "Ian McKellen", "111-222-3333", "VIP", "sent", "Declined", "2024-06-11 09:05"),
      Row("12", 12, "Julia Roberts", "222-444-6666", "Regular", "sent", "Accepted", "2024-06-12 18:25"),
      Row("13", 13, "Kevin Hart", "333-555-7777", "VIP", "sent", "Accepted", "2024-06-13 10:15"),
      Row("14", 14, "Linda Lee", "444-666-8888", "Regular", "not sent", "Pending", "2024-06-14 14:50"),
      Row("15", 15, "Michael Jordan", "555-777-9999", "VIP", "sent", "Declined", "2024-06-15 07:30"),
      Row("16", 16, "Nina Simone", "666-888-0000", "Regular", "sent", "Accepted", "2024-06-16 16:10"),
      Row("17", 17, "Oscar Wilde", "777-999-1111", "VIP", "sent", "Accepted", "2024-06-17 11:55"),
      Row("18", 18, "Paula Abdul", "888-000-2222", "Regular", "not sent", "Pending", "2024-06-18 13:35"),
      Row("19", 19, "Quentin Tarantino", "999-111-3333", "VIP", "sent", "Declined", "2024-06-19 08:20"),
      Row("20", 20, "Rachel Green", "111-333-5555", "Regular", "sent", "Accepted", "2024-06-20 17:05"),
      Row("21", 21, "Steve Jobs", "222-555-8888", "VIP", "sent", "Accepted", "2024-06-21 12:30"),
      Row("22", 22, "Tina Fey", "333-666-9999", "Regular", "not sent", "Pending", "2024-06-22 15:15"),
      Row("23", 23, "Uma Thurman", "444-777-0000", "VIP", "sent", "Declined", "2024-06-23 09:40"),
      Row("24", 24, "Victor Hugo", "555-888-1111", "Regular", "sent", "Accepted", "2024-06-24 18:55"),
      Row("25", 25, "Wendy Darling", "666-999-2222", "VIP", "sent", "Accepted", "2024-06-25 10:45"),
      Row("26", 26, "Xander Cage", "777-000-3333", "Regular", "not sent", "Pending", "2024-06-26 14:20"),
      Row("27", 27, "Yara Shahidi", "888-111-4444", "VIP", "sent", "Declined", "2024-06-27 08:55"),
      Row("28", 28, "Zoe Saldana", "999-222-5555", "Regular", "sent", "Accepted", "2024-06-28 17:40"),
      Row("29", 29, "Langoor", "555-999-4567", "VIP", "sent", "Declined", "2024-06-03 09:15"),
      Row("30", 30, "Bruce Wayne", "111-444-7777", "VIP", "sending", "Accepted", "2024-06-29 16:45")
  ]

  /** Row i has serial number i + 1. */
  lemma FixtureSerials()
    ensures |RSVPData| == 30
    ensures forall i :: 0 <= i < 30 ==> RSVPData[i].srNo == i + 1
  {
  }

  // The ids are checked five rows at a time, to keep each proof small.
  predicate IdsPrintSerials(lo: int, hi: int)
    requires 0 <= lo <= hi <= |RSVPData|
  {
    forall i :: lo <= i < hi ==> RSVPData[i].id == DecimalString(i + 1)
  }

  /** A two-digit number prints as its tens digit and its units digit. */
  lemma TwoDigitString(n: nat)
    requires 10 <= n < 100
    ensures DecimalString(n) == [Digit(n / 10), Digit(n % 10)]
  {
    assert NatDigits(n) == NatDigits(n / 10) + [Digit(n % 10)];
  }

  /** A one-digit number prints as its digit. */
  lemma OneDigitString(n: nat)
    requires n < 10
    ensures DecimalString(n) == [Digit(n)]
  {
  }

  lemma FixtureIds0()
    ensures IdsPrintSerials(0, 5)
  {
    forall i | 0 <= i < 5 ensures RSVPData[i].id == DecimalString(i + 1) {
      OneDigitString(i + 1);
    }
  }
  lemma FixtureIds5()
    ensures IdsPrintSerials(5, 10)
  {
    forall i | 5 <= i < 10 ensures RSVPData[i].id == DecimalString(i + 1) {
      if i < 9 {
        OneDigitString(i + 1);
      } else {
        TwoDigitString(i + 1);
      }
    }
  }
  lemma FixtureIds10()
    ensures IdsPrintSerials(10, 15)
  {
    forall i | 10 <= i < 15 ensures RSVPData[i].id == DecimalString(i + 1) {
      TwoDigitString(i + 1);
    }
  }
  lemma FixtureIds15()
    ensures IdsPrintSerials(15, 20)
  {
    forall i | 15 <= i < 20 ensures RSVPData[i].id == DecimalString(i + 1) {
      TwoDigitString(i + 1);
    }
  }
  lemma FixtureIds20()
    ensures IdsPrintSerials(20, 25)
  {
    forall i | 20 <= i < 25 ensures RSVPData[i].id == DecimalString(i + 1) {
      TwoDigitString(i + 1);
    }
  }
  lemma FixtureIds25()
    ensures IdsPrintSerials(25, 30)
  {
    forall i | 25 <= i < 30 ensures RSVPData[i].id == DecimalString(i + 1) {
      TwoDigitString(i + 1);
    }
  }

  /** Row i has serial number i + 1 and the id that number prints as. */
  lemma FixtureNumbering()
    ensures |RSVPData| == 30
    ensures forall i :: 0 <= i < 30 ==> RSVPData[i].srNo == i + 1 && RSVPData[i].id == DecimalString(i + 1)
  {
    FixtureSerials();
    FixtureIds0();
    FixtureIds5();
    FixtureIds10();
    FixtureIds15();
    FixtureIds20();
    FixtureIds25();
  }

  /** Hence the sample ids are distinct. */
  lemma FixtureIdsDistinct()
    ensures forall i, j :: 0 <= i < j < |RSVPData| ==> RSVPData[i].id != RSVPData[j].id
  {
    FixtureNumbering();
    forall i, j | 0 <= i < j < |RSVPData| ensures RSVPData[i].id != RSVPData[j].id {
      if RSVPData[i].id == RSVPData[j].id {
        DecimalStringInjective(i + 1, j + 1);
      }
    }
  }
}
