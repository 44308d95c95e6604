/** `/api/events`: the public list, soonest first, and the admin writes. */
module Events {
  import opened Js
  import opened Query
  import opened Gate
  import opened Store
  import opened Crud

  /** An artist on an event's lineup, as the list query selects it. */
  datatype LineupEntry = LineupEntry(id: string, name: Val)

  /** A row of the `Event` table. `lineup` is the related artists, `None` when the relation
      is not loaded; the handlers never write it. */
  datatype Event = Event(
    title: Val, description: Val, date: int, location: Val, eventType: Val, status: Val, image: Val,
    featured: bool, ticketPrice: Val, ticketUrl: Val, capacity: Val, lineup: Option<seq<LineupEntry>>)

  /** `date ? new Date(date) : new Date()`: `parseDate` stands for the `Date` constructor and
      `now` for the clock. */
  function DateOf(body: Val, now: int, parseDate: Val -> int): (d: int)
    ensures !Truthy(Get(body, "date")) ==> d == now
    ensures Truthy(Get(body, "date")) ==> d == parseDate(Get(body, "date"))
  {
    if Truthy(Get(body, "date")) then parseDate(Get(body, "date")) else now
  }

  /** The row `POST` creates: the ticket fields and the capacity become null when missing, and
      a new event has nobody on its lineup. */
  function FromBody(body: Val, now: int, parseDate: Val -> int): (e: Event)
    ensures e.title == Get(body, "title") && e.description == Get(body, "description")
    ensures e.location == Get(body, "location") && e.image == Get(body, "image")
    ensures e.status == Get(body, "status") && e.eventType == Get(body, "type")
    ensures e.date == DateOf(body, now, parseDate)
    ensures e.featured == Truthy(Get(body, "featured"))
    ensures e.ticketPrice != Undef && e.ticketUrl != Undef && e.capacity != Undef
    ensures Get(body, "ticketPrice") !in {Undef, Null} ==> e.ticketPrice == Get(body, "ticketPrice")
    ensures Get(body, "ticketPrice") in {Undef, Null} ==> e.ticketPrice == Null
    ensures Get(body, "ticketUrl") !in {Undef, Null} ==> e.ticketUrl == Get(body, "ticketUrl")
    ensures Get(body, "ticketUrl") in {Undef, Null} ==> e.ticketUrl == Null
    ensures Get(body, "capacity") !in {Undef, Null} ==> e.capacity == Get(body, "capacity")
    ensures Get(body, "capacity") in {Undef, Null} ==> e.capacity == Null
    ensures e.lineup == Some([])
  {
    Event(Get(body, "title"), Get(body, "description"), DateOf(body, now, parseDate), Get(body, "location"),
          Get(body, "type"), Get(body, "status"), Get(body, "image"), Truthy(Get(body, "featured")),
          Coalesce(Get(body, "ticketPrice"), Null), Coalesce(Get(body, "ticketUrl"), Null),
          Coalesce(Get(body, "capacity"), Null), Some([]))
  }

  /** The update `PUT` applies. The date, the featured flag and the three nullable fields are
      always written (a missing date becomes `now`, a missing price null); the other columns
      keep their value when the body omits them, and the lineup is untouched. */
  function Patch(e: Event, body: Val, now: int, parseDate: Val -> int): (r: Event)
    ensures r.title == Keep(e.title, Get(body, "title")) && r.description == Keep(e.description, Get(body, "description"))
    ensures r.location == Keep(e.location, Get(body, "location")) && r.eventType == Keep(e.eventType, Get(body, "type"))
    ensures r.status == Keep(e.status, Get(body, "status")) && r.image == Keep(e.image, Get(body, "image"))
    ensures Get(body, "title") == Undef ==> r.title == e.title
    ensures Get(body, "location") == Undef ==> r.location == e.location
    ensures r.lineup == e.lineup
    ensures r.date == DateOf(body, now, parseDate) && r.featured == Truthy(Get(body, "featured"))
    ensures var created := FromBody(body, now, parseDate);
              r.ticketPrice == created.ticketPrice && r.ticketUrl == created.ticketUrl && r.capacity == created.capacity
    ensures Get(body, "ticketPrice") in {Undef, Null} ==> r.ticketPrice == Null
    ensures Get(body, "ticketUrl") in {Undef, Null} ==> r.ticketUrl == Null
    ensures Get(body, "capacity") in {Undef, Null} ==> r.capacity == Null
  {
    var built := FromBody(body, now, parseDate);
    built.(title := Keep(e.title, built.title), description := Keep(e.description, built.description),
           location := Keep(e.location, built.location), eventType := Keep(e.eventType, built.eventType),
           status := Keep(e.status, built.status), image := Keep(e.image, built.image), lineup := e.lineup)
  }

  method Post(t: Table<Event>, cookie: Cookie, verify: Verifier, body: Option<Val>, id: string,
              now: int, parseDate: Val -> int) returns (status: int)
    requires t.Valid() && id !in Ids(t.rows)
    modifies t
    ensures t.Valid()
    ensures !AdminCheck(cookie, verify).Authorized? ==>
              status == GateStatus(AdminCheck(cookie, verify)) && t.rows == old(t.rows)
    ensures status == 201 <==> AdminCheck(cookie, verify).Authorized? && body.Some? && body.value != Null
    ensures status == 201 ==> t.rows == old(t.rows) + [Row(id, FromBody(body.value, now, parseDate))]
    ensures status != 201 ==> t.rows == old(t.rows)
  {
    status := Create(t, cookie, verify, body, id, (b: Val) => Built(FromBody(b, now, parseDate)));
  }

  method Put(t: Table<Event>, cookie: Cookie, verify: Verifier, body: Option<Val>,
             now: int, parseDate: Val -> int) returns (status: int)
    requires t.Valid()
    modifies t
    ensures t.Valid()
    ensures !AdminCheck(cookie, verify).Authorized? ==>
              status == GateStatus(AdminCheck(cookie, verify)) && t.rows == old(t.rows)
    ensures (AdminCheck(cookie, verify).Authorized? && body.Some? && Destructurable(body.value)
             && !Truthy(Get(body.value, "id"))) ==> status == 400 && t.rows == old(t.rows)
    ensures status == 200 <==>
              AdminCheck(cookie, verify).Authorized? && body.Some? && Destructurable(body.value)
              && Truthy(Get(body.value, "id")) && Get(body.value, "id").Str?
              && Get(body.value, "id").s in Ids(old(t.rows))
    ensures status == 200 ==>
              t.rows == Patched(old(t.rows), Get(body.value, "id").s, (e: Event) => Patch(e, body.value, now, parseDate))
    ensures status != 200 ==> t.rows == old(t.rows)
  {
    status := Update(t, cookie, verify, body, (e: Event, b: Val) => Patch(e, b, now, parseDate));
  }

  method Delete(t: Table<Event>, cookie: Cookie, verify: Verifier, id: Option<string>) returns (status: int)
    requires t.Valid()
    modifies t
    ensures t.Valid()
    ensures !AdminCheck(cookie, verify).Authorized? ==>
              status == GateStatus(AdminCheck(cookie, verify)) && t.rows == old(t.rows)
    ensures AdminCheck(cookie, verify).Authorized? && !Given(id) ==> status == 400 && t.rows == old(t.rows)
    ensures status == 200 <==> AdminCheck(cookie, verify).Authorized? && Given(id) && id.value in Ids(old(t.rows))
    ensures status == 200 ==> t.rows == WithoutId(old(t.rows), id.value)
    ensures status != 200 ==> t.rows == old(t.rows)
  {
    status := Crud.Delete(t, cookie, verify, id);
  }

  datatype EventView = EventView(
    id: string, legacyId: string, title: Val, description: Val, date: int, location: Val,
    eventType: Val, status: Val, image: Val, featured: bool, ticketPrice: Val, ticketUrl: Val,
    capacity: Val, lineup: seq<LineupEntry>)

  /** One element of the `GET` response: the lineup is never missing. */
  function View(row: Row<Event>): (v: EventView)
    ensures v.id == row.id && v.legacyId == row.id && v.date == row.data.date
    ensures v.title == row.data.title && v.description == row.data.description
    ensures v.location == row.data.location && v.eventType == row.data.eventType
    ensures v.status == row.data.status && v.image == row.data.image && v.featured == row.data.featured
    ensures v.ticketPrice == row.data.ticketPrice && v.ticketUrl == row.data.ticketUrl
    ensures v.capacity == row.data.capacity
    ensures row.data.lineup.None? ==> v.lineup == []
    ensures row.data.lineup.Some? ==> v.lineup == row.data.lineup.value
  {
    var e := row.data;
    EventView(row.id, row.id, e.title, e.description, e.date, e.location, e.eventType, e.status, e.image,
              e.featured, e.ticketPrice, e.ticketUrl, e.capacity,
              if e.lineup.Some? then e.lineup.value else [])
  }

  predicate Selected(status: Option<string>, featured: Option<string>, eventType: Option<string>, row: Row<Event>)
  {
    && Passes(FilterValue(status), row.data.status)
    && (!FeaturedOnly(featured) || row.data.featured)
    && Passes(FilterValue(eventType), row.data.eventType)
  }

  function Date(row: Row<Event>): int { row.data.date }

  /** `GET /api/events`. `fetched` is the table, or `None` when the query throws. */
  function List(fetched: Option<seq<Row<Event>>>, status: Option<string>, featured: Option<string>,
                eventType: Option<string>, limit: Option<nat>): (r: Listing<EventView>)
    ensures fetched.None? <==> r.ListFailed?
    ensures r.Listed? ==> forall i, j :: 0 <= i < j < |r.items| ==> r.items[i].date <= r.items[j].date
    ensures r.Listed? ==> forall i :: 0 <= i < |r.items| ==>
              exists row :: row in fetched.value && Selected(status, featured, eventType, row) && r.items[i] == View(row)
    ensures r.Listed? ==>
              r.items == Map(Select(fetched.value, row => Selected(status, featured, eventType, row), Date, false, limit), View)
    ensures r.Listed? && limit.None? ==> |r.items| == Count(fetched.value, row => Selected(status, featured, eventType, row))
    ensures r.Listed? && limit.Some? ==>
              |r.items| == Min(limit.value, Count(fetched.value, row => Selected(status, featured, eventType, row)))
  {
    match fetched
    case None => ListFailed
    case Some(rows) =>
      var selected := Select(rows, row => Selected(status, featured, eventType, row), Date, false, limit);
      assert limit.None? ==> |selected| == |multiset(selected)|;
      var items := Map(selected, View);
      assert forall i :: 0 <= i < |items| ==>
        (selected[i] in rows && Selected(status, featured, eventType, selected[i]) && items[i] == View(selected[i]));
      assert forall i :: 0 <= i < |items| ==> items[i].date == Date(selected[i]);
      Listed(items)
  }
}
