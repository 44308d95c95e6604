/** The CSV export of the admin newsletter page. The download itself (a Blob and a link) is
    not modelled; `formatDate` stands for `toLocaleDateString` and `isoNow` for
    `new Date().toISOString()`. */
module NewsletterExport {
  import opened Text
  import opened Query

  /** A subscriber as the admin list receives it; `createdAt` is the stored date text. */
  datatype Subscriber = Subscriber(email: string, status: string, source: string, createdAt: string)

  const Header := ["Email", "Status", "Source", "Subscribed Date"]

  /** The subscribers a filter exports: all of them for `all`, else those with that status. */
  function Exported(subscribers: seq<Subscriber>, filter: string): (r: seq<Subscriber>)
    ensures filter == "all" ==> r == subscribers
    ensures filter != "all" ==> forall i :: 0 <= i < |r| ==> r[i].status == filter
    ensures filter != "all" ==> forall i :: 0 <= i < |subscribers| && subscribers[i].status == filter ==> subscribers[i] in r
    ensures forall i :: 0 <= i < |r| ==> r[i] in subscribers
    ensures IsSubsequence(r, subscribers)
  {
    if filter == "all" then
      SubsequenceOfItself(subscribers);
      subscribers
    else
      FilterIsSubsequence(subscribers, (s: Subscriber) => s.status == filter);
      Filter(subscribers, (s: Subscriber) => s.status == filter)
  }

  /** The four cells of a subscriber's row. */
  function Cells(s: Subscriber, formatDate: string -> string): seq<string>
  {
    [s.email, s.status, s.source, formatDate(s.createdAt)]
  }

  /** The lines of the file: the header, then one row per exported subscriber, in order,
      each row its cells joined by `,` without quoting. */
  function Lines(subscribers: seq<Subscriber>, filter: string, formatDate: string -> string): (r: seq<string>)
    ensures |r| == 1 + |Exported(subscribers, filter)|
    ensures r[0] == Join(Header, ",")
    ensures forall i :: 0 <= i < |Exported(subscribers, filter)| ==>
              r[i + 1] == Join(Cells(Exported(subscribers, filter)[i], formatDate), ",")
  {
    var rows := Exported(subscribers, filter);
    [Join(Header, ",")] + seq(|rows|, i requires 0 <= i < |rows| => Join(Cells(rows[i], formatDate), ","))
  }

  /** `csvContent`: the lines joined by a newline, with none after the last. */
  function Csv(subscribers: seq<Subscriber>, filter: string, formatDate: string -> string): string
  {
    Join(Lines(subscribers, filter, formatDate), "\n")
  }

  /** No cell holds a newline or a comma. */
  predicate Plain(s: Subscriber, formatDate: string -> string)
  {
    forall k :: 0 <= k < 4 ==> '\n' !in Cells(s, formatDate)[k] && ',' !in Cells(s, formatDate)[k]
  }

  lemma JoinCellsHasNoNewline(cells: seq<string>)
    requires forall k :: 0 <= k < |cells| ==> '\n' !in cells[k]
    ensures '\n' !in Join(cells, ",")
    decreases |cells|
  {
    if |cells| > 1 {
      JoinCellsHasNoNewline(cells[1..]);
    }
  }

  /** No line of the file holds a newline, as long as no cell does. */
  lemma LineHasNoNewline(subscribers: seq<Subscriber>, filter: string, formatDate: string -> string, i: nat)
    requires forall i :: 0 <= i < |subscribers| ==> Plain(subscribers[i], formatDate)
    requires i < |Lines(subscribers, filter, formatDate)|
    ensures '\n' !in Lines(subscribers, filter, formatDate)[i]
  {
    if i == 0 {
      HeaderHasNoNewline();
    } else {
      var rows := Exported(subscribers, filter);
      var row := rows[i - 1];
      assert Lines(subscribers, filter, formatDate)[(i - 1) + 1] == Join(Cells(row, formatDate), ",");
      var j :| 0 <= j < |subscribers| && subscribers[j] == row;
      RowHasNoNewline(subscribers[j], formatDate);
    }
  }

  lemma HeaderHasNoNewline()
    ensures '\n' !in Join(Header, ",")
  {
    JoinCellsHasNoNewline(Header);
  }

  lemma RowHasNoNewline(s: Subscriber, formatDate: string -> string)
    requires Plain(s, formatDate)
    ensures '\n' !in Join(Cells(s, formatDate), ",")
  {
    JoinCellsHasNoNewline(Cells(s, formatDate));
  }

  /** Read back line by line, the file gives the header and then exactly one line per exported
      subscriber, in order, as long as no cell holds a newline. */
  lemma CsvLines(subscribers: seq<Subscriber>, filter: string, formatDate: string -> string)
    requires forall i :: 0 <= i < |subscribers| ==> Plain(subscribers[i], formatDate)
    ensures Split(Csv(subscribers, filter, formatDate), '\n') == Lines(subscribers, filter, formatDate)
    ensures |Split(Csv(subscribers, filter, formatDate), '\n')| == 1 + |Exported(subscribers, filter)|
  {
    var lines := Lines(subscribers, filter, formatDate);
    forall i | 0 <= i < |lines| ensures '\n' !in lines[i] {
      LineHasNoNewline(subscribers, filter, formatDate, i);
    }
    assert "\n" == ['\n'];
    SplitJoin(lines, '\n');
  }

  /** Read back cell by cell, a row gives its subscriber's four cells, as long as no cell holds
      a comma: the export does not quote, so a comma in a cell would shift the columns. */
  lemma RowCells(s: Subscriber, formatDate: string -> string)
    requires forall k :: 0 <= k < 4 ==> ',' !in Cells(s, formatDate)[k]
    ensures Split(Join(Cells(s, formatDate), ","), ',') == Cells(s, formatDate)
  {
    assert "," == [','];
    SplitJoin(Cells(s, formatDate), ',');
  }

  /** The downloaded file's name: the filter and the date part of the ISO timestamp. */
  function FileName(filter: string, isoNow: string): string
  {
    "newsletter-subscribers-" + filter + "-" + Split(isoNow, 'T')[0] + ".csv"
  }

  lemma FileNameDate(filter: string, date: string, time: string)
    requires 'T' !in date
    ensures FileName(filter, date + "T" + time) == "newsletter-subscribers-" + filter + "-" + date + ".csv"
  {
    assert date + "T" + time == date + ['T'] + time;
    SplitAt(date, 'T', time);
  }
}
