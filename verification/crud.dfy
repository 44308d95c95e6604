/** The shape every admin-only content handler shares: the admin check, then the body or the
    `id` query parameter, then one write to the table. The content modules supply how a
    request body becomes a row (`POST`) or a change to a row (`PUT`). */
module Crud {
  import opened Js
  import opened Gate
  import opened Store

  /** The outcome of a list query: the rows, or the handler's 500. */
  datatype Listing<T> = Listed(items: seq<T>) | ListFailed

  /** What a request body builds: the new row, or the handler's own refusal. */
  datatype Built<R> = Built(row: R) | Invalid(status: int, error: string)

  /** `POST`: gate, then `request.json()` (which throws on a body that is not JSON, as the
      field reads do on `null`), then `create`. `id` is the id the database generates. */
  method Create<R>(t: Table<R>, cookie: Cookie, verify: Verifier, body: Option<Val>, id: string,
                   build: Val -> Built<R>) returns (status: int)
    requires t.Valid() && id !in Ids(t.rows)
    modifies t
    ensures t.Valid()
    ensures !AdminCheck(cookie, verify).Authorized? ==>
              status == GateStatus(AdminCheck(cookie, verify)) && t.rows == old(t.rows)
    ensures AdminCheck(cookie, verify).Authorized? && (body.None? || body.value == Null) ==>
              status == 500 && t.rows == old(t.rows)
    ensures AdminCheck(cookie, verify).Authorized? && body.Some? && body.value != Null ==>
              match build(body.value)
              case Invalid(s, _) => status == s && t.rows == old(t.rows)
              case Built(row) => status == 201 && t.rows == old(t.rows) + [Row(id, row)]
  {
    var g := AdminCheck(cookie, verify);
    if !g.Authorized? {
      return GateStatus(g);
    }
    if body.None? || body.value == Null {
      return 500;
    }
    match build(body.value) {
      case Invalid(s, _) =>
        status := s;
      case Built(row) =>
        t.Create(id, row);
        status := 201;
    }
  }

  /** `PUT`: gate, then `const { id, ...data } = await request.json()`, then `update`.
      A missing id is refused with 400; an id with no row makes `update` throw (500). */
  method Update<R>(t: Table<R>, cookie: Cookie, verify: Verifier, body: Option<Val>,
                   patch: (R, Val) -> R) returns (status: int)
    requires t.Valid()
    modifies t
    ensures t.Valid()
    ensures !AdminCheck(cookie, verify).Authorized? ==>
              status == GateStatus(AdminCheck(cookie, verify)) && t.rows == old(t.rows)
    ensures AdminCheck(cookie, verify).Authorized? && (body.None? || !Destructurable(body.value)) ==>
              status == 500 && t.rows == old(t.rows)
    ensures (AdminCheck(cookie, verify).Authorized? && body.Some? && Destructurable(body.value)
             && !Truthy(Get(body.value, "id"))) ==> status == 400 && t.rows == old(t.rows)
    ensures status == 200 <==>
              AdminCheck(cookie, verify).Authorized? && body.Some? && Destructurable(body.value)
              && Truthy(Get(body.value, "id")) && Get(body.value, "id").Str?
              && Get(body.value, "id").s in Ids(old(t.rows))
    ensures status == 200 ==>
              t.rows == Patched(old(t.rows), Get(body.value, "id").s, (r: R) => patch(r, body.value))
    ensures status != 200 ==> t.rows == old(t.rows)
  {
    var g := AdminCheck(cookie, verify);
    if !g.Authorized? {
      return GateStatus(g);
    }
    if body.None? || !Destructurable(body.value) {
      return 500;
    }
    var id := Get(body.value, "id");
    if !Truthy(id) {
      return 400;
    }
    if !id.Str? {
      // `where: { id }` refuses an id that is not a string
      return 500;
    }
    var found := t.Update(id.s, (r: R) => patch(r, body.value));
    status := if found then 200 else 500;
  }

  /** `DELETE ?id=…`: gate, then the query parameter, then `delete`. */
  method Delete<R>(t: Table<R>, cookie: Cookie, verify: Verifier, id: Option<string>) returns (status: int)
    requires t.Valid()
    modifies t
    ensures t.Valid()
    ensures !AdminCheck(cookie, verify).Authorized? ==>
              status == GateStatus(AdminCheck(cookie, verify)) && t.rows == old(t.rows)
    ensures AdminCheck(cookie, verify).Authorized? && !Given(id) ==> status == 400 && t.rows == old(t.rows)
    ensures status == 200 <==> AdminCheck(cookie, verify).Authorized? && Given(id) && id.value in Ids(old(t.rows))
    ensures status == 200 ==> t.rows == WithoutId(old(t.rows), id.value)
    ensures status != 200 ==> t.rows == old(t.rows)
  {
    var g := AdminCheck(cookie, verify);
    if !g.Authorized? {
      return GateStatus(g);
    }
    if !Given(id) {
      return 400;
    }
    var found := t.Delete(id.value);
    status := if found then 200 else 500;
  }

  /** A column of an `update`: Prisma leaves it alone when the data gives it `undefined`. */
  function Keep(current: Val, written: Val): (v: Val)
    ensures written == Undef ==> v == current
    ensures written != Undef ==> v == written
  {
    if written == Undef then current else written
  }

  /** A `where` entry built from a query parameter: no filter when it is absent, empty or `all`. */
  function FilterValue(p: Option<string>): (r: Option<string>)
    ensures r.None? <==> !Given(p) || p.value == "all"
    ensures r.Some? ==> r.value == p.value
  {
    if Given(p) && p.value != "all" then Some(p.value) else None
  }

  /** A row passes an optional equality filter. */
  predicate Passes(filter: Option<string>, column: Val)
  {
    filter.None? || column == Str(filter.value)
  }

  /** `featured === 'true'`: any other value, or none, leaves featured rows and others alike. */
  predicate FeaturedOnly(p: Option<string>)
  {
    p == Some("true")
  }
}
