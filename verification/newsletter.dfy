/** `/api/newsletter`: subscribe (`POST`), unsubscribe (`DELETE`) and broadcast (`PUT`).
    Each e-mail address is in one of the states absent, active, unsubscribed or another
    status such as bounced; the table holds at most one record per address. */
module Newsletter {
  import opened Js
  import opened Query

  datatype Subscription = Subscription(id: string, email: string, status: string, source: Val, createdAt: int)

  /** The record for `email`, if any: the index `findUnique({ where: { email } })` finds. */
  function IndexOf(subs: seq<Subscription>, email: string): (r: Option<nat>)
    ensures r.Some? ==> r.value < |subs| && subs[r.value].email == email
    ensures r.None? <==> forall k :: 0 <= k < |subs| ==> subs[k].email != email
    decreases |subs|
  {
    if subs == [] then None
    else if subs[0].email == email then Some(0)
    else match IndexOf(subs[1..], email)
      case None => None
      case Some(k) => Some(k + 1)
  }

  /** The state of one address: `None` when it has no record. */
  function StatusOf(subs: seq<Subscription>, email: string): Option<string>
  {
    match IndexOf(subs, email)
    case None => None
    case Some(k) => Some(subs[k].status)
  }

  /** `email` is the table's unique key. */
  ghost predicate UniqueEmails(subs: seq<Subscription>)
  {
    forall i, j :: 0 <= i < j < |subs| ==> subs[i].email != subs[j].email
  }

  /** In a table with unique e-mails, the record at index k is the one found for its address. */
  lemma IndexOfUnique(subs: seq<Subscription>, k: nat)
    requires UniqueEmails(subs) && k < |subs|
    ensures IndexOf(subs, subs[k].email) == Some(k)
  {
  }

  /** Rewriting one record without touching its address changes that address's state only. */
  lemma {:induction false} StatusAfterSet(subs: seq<Subscription>, k: nat, s: Subscription, e: string)
    requires UniqueEmails(subs) && k < |subs| && s.email == subs[k].email
    ensures UniqueEmails(subs[k := s])
    ensures StatusOf(subs[k := s], e) == if e == s.email then Some(s.status) else StatusOf(subs, e)
  {
    var t := subs[k := s];
    IndexOfUnique(t, k);
    if e != s.email {
      match IndexOf(subs, e)
      case None =>
        assert forall j :: 0 <= j < |t| ==> t[j].email != e;
      case Some(j) =>
        IndexOfUnique(subs, j);
        IndexOfUnique(t, j);
    }
  }

  /** Appending a record for a new address makes that address's state its status. */
  lemma StatusAfterAppend(subs: seq<Subscription>, s: Subscription, e: string)
    requires UniqueEmails(subs) && IndexOf(subs, s.email).None?
    ensures UniqueEmails(subs + [s])
    ensures StatusOf(subs + [s], e) == if e == s.email then Some(s.status) else StatusOf(subs, e)
  {
    var t := subs + [s];
    IndexOfUnique(t, |subs|);
    if e != s.email {
      match IndexOf(subs, e)
      case None =>
        assert forall j :: 0 <= j < |t| ==> t[j].email != e;
      case Some(j) =>
        IndexOfUnique(subs, j);
        IndexOfUnique(t, j);
    }
  }

  /** `{ email, source = 'website' }`: the default replaces `undefined` only. */
  function SourceOf(body: Val): (v: Val)
    ensures Get(body, "source") != Undef ==> v == Get(body, "source")
    ensures Get(body, "source") == Undef ==> v == Str("website")
  {
    if Get(body, "source") == Undef then Str("website") else Get(body, "source")
  }

  class SubscriptionStore {
    var subs: seq<Subscription>

    ghost predicate Valid()
      reads this
    {
      UniqueEmails(subs)
    }

    constructor (initial: seq<Subscription>)
      requires UniqueEmails(initial)
      ensures Valid() && subs == initial
    {
      subs := initial;
    }

    /** `POST /api/newsletter`. `body` is `None` when the request is not JSON; `id` and `now`
        stand for the generated id and the creation time; `welcomeSent` is whether the
        welcome mail went out, which is attempted after the table has been written. */
    method Subscribe(body: Option<Val>, id: string, now: int, welcomeSent: bool) returns (status: int)
      requires Valid()
      modifies this
      ensures Valid()
      ensures status in {200, 400, 500}
      // requests that never reach the table leave it alone
      ensures body.None? || !Destructurable(body.value) ==> status == 500 && subs == old(subs)
      ensures body.Some? && Destructurable(body.value) && !Truthy(Get(body.value, "email")) ==>
                status == 400 && subs == old(subs)
      ensures body.Some? && Get(body.value, "email").Str? && Truthy(Get(body.value, "email")) ==>
                var email := Get(body.value, "email").s;
                match StatusOf(old(subs), email)
                case Some("active") =>
                  status == 400 && subs == old(subs)
                case Some(_) =>
                  var k := IndexOf(old(subs), email).value;
                  && subs == old(subs)[k := old(subs)[k].(status := "active", source := SourceOf(body.value))]
                  && status == (if welcomeSent then 200 else 500)
                case None =>
                  && subs == old(subs) + [Subscription(id, email, "active", SourceOf(body.value), now)]
                  && status == (if welcomeSent then 200 else 500)
      // a written request leaves its address active and every other address as it was
      ensures status == 200 ==> body.Some? && Get(body.value, "email").Str?
                                && StatusOf(subs, Get(body.value, "email").s) == Some("active")
      ensures forall e :: (body.Some? && Get(body.value, "email") == Str(e))
                          || StatusOf(subs, e) == StatusOf(old(subs), e)
    {
      if body.None? || !Destructurable(body.value) {
        return 500;
      }
      var email := Get(body.value, "email");
      if !Truthy(email) {
        return 400;
      }
      if !email.Str? {
        // `findUnique` refuses a filter that is not a string
        return 500;
      }
      var source := SourceOf(body.value);
      match IndexOf(subs, email.s) {
      case Some(k) =>
        if subs[k].status == "active" {
          return 400;
        }
        var s := subs[k].(status := "active", source := source);
        forall e ensures StatusOf(subs[k := s], e) == if e == s.email then Some(s.status) else StatusOf(subs, e) {
          StatusAfterSet(subs, k, s, e);
        }
        StatusAfterSet(subs, k, s, email.s);
        subs := subs[k := s];
      case None =>
        var s := Subscription(id, email.s, "active", source, now);
        forall e ensures StatusOf(subs + [s], e) == if e == s.email then Some(s.status) else StatusOf(subs, e) {
          StatusAfterAppend(subs, s, e);
        }
        StatusAfterAppend(subs, s, email.s);
        subs := subs + [s];
      }
      status := if welcomeSent then 200 else 500;
    }

    /** `DELETE /api/newsletter?email=…`. An address without a record makes the update
        throw, which the handler reports as 500. */
    method Unsubscribe(email: Option<string>) returns (status: int)
      requires Valid()
      modifies this
      ensures Valid()
      ensures !Given(email) ==> status == 400 && subs == old(subs)
      ensures Given(email) && IndexOf(old(subs), email.value).None? ==> status == 500 && subs == old(subs)
      ensures Given(email) && IndexOf(old(subs), email.value).Some? ==>
                var k := IndexOf(old(subs), email.value).value;
                status == 200 && subs == old(subs)[k := old(subs)[k].(status := "unsubscribed")]
      ensures status == 200 ==> StatusOf(subs, email.value) == Some("unsubscribed")
      ensures forall e :: (Given(email) && e == email.value) || StatusOf(subs, e) == StatusOf(old(subs), e)
    {
      if !Given(email) {
        return 400;
      }
      match IndexOf(subs, email.value)
      case None =>
        return 500;
      case Some(k) =>
        var s := subs[k].(status := "unsubscribed");
        forall e ensures StatusOf(subs[k := s], e) == if e == s.email then Some(s.status) else StatusOf(subs, e) {
          StatusAfterSet(subs, k, s, e);
        }
        StatusAfterSet(subs, k, s, email.value);
        subs := subs[k := s];
        status := 200;
    }
  }

  /** The records a broadcast goes to: `findMany({ where: { status: 'active' } })`. */
  function ActiveSubscribers(subs: seq<Subscription>): (r: seq<Subscription>)
    ensures forall i :: 0 <= i < |r| ==> r[i].status == "active" && r[i] in subs
    ensures forall i :: 0 <= i < |subs| && subs[i].status == "active" ==> subs[i] in r
  {
    Filter(subs, (s: Subscription) => s.status == "active")
  }

  /** `sendNewsletterToSubscribers`: one `sendMail` per subscriber, in order, counting the
      deliveries and the failures; a failure does not stop the loop. `sendMail` tells
      whether the mail to a subscriber went out. */
  method SendToSubscribers(subs: seq<Subscription>, sendMail: Subscription -> bool)
    returns (success: nat, failed: nat, attempted: seq<string>)
    ensures success + failed == |subs|
    ensures success == Count(subs, sendMail)
    ensures attempted == Map(subs, (s: Subscription) => s.email)
  {
    success, failed, attempted := 0, 0, [];
    var i := 0;
    while i < |subs|
      invariant 0 <= i <= |subs|
      invariant success + failed == i
      invariant success == Count(subs[..i], sendMail)
      invariant attempted == Map(subs[..i], (s: Subscription) => s.email)
    {
      CountSnoc(subs[..i], subs[i], sendMail);
      assert subs[..i + 1] == subs[..i] + [subs[i]];
      if sendMail(subs[i]) {
        success := success + 1;
      } else {
        failed := failed + 1;
      }
      attempted := attempted + [subs[i].email];
      i := i + 1;
    }
    assert subs[..i] == subs;
  }

  lemma CountSnoc(s: seq<Subscription>, x: Subscription, p: Subscription -> bool)
    ensures Count(s + [x], p) == Count(s, p) + (if p(x) then 1 else 0)
  {
    FilterAppend(s, [x], p);
  }

  datatype Broadcast =
    | BroadcastRefused(status: int, error: string)
    | BroadcastSent(success: nat, failed: nat)

  /** `PUT /api/newsletter`. `articles` holds the ids of the stored news articles. */
  method PutBroadcast(body: Option<Val>, subs: seq<Subscription>, articles: set<string>,
                      sendMail: Subscription -> bool) returns (r: Broadcast)
    ensures body.None? || !Destructurable(body.value) ==> r == BroadcastRefused(500, "Failed to send newsletter")
    ensures body.Some? && Destructurable(body.value) &&
              (!Truthy(Get(body.value, "articleId")) || !Truthy(Get(body.value, "subject")) || !Truthy(Get(body.value, "content"))) ==>
                r == BroadcastRefused(400, "Article ID, subject, and content are required")
    ensures r.BroadcastSent? ==>
              && Get(body.value, "articleId").Str? && Get(body.value, "articleId").s in articles
              && r.success + r.failed == |ActiveSubscribers(subs)|
              && r.success == Count(ActiveSubscribers(subs), sendMail)
    ensures body.Some? && Destructurable(body.value) && Truthy(Get(body.value, "subject")) && Truthy(Get(body.value, "content"))
            && Get(body.value, "articleId").Str? && Truthy(Get(body.value, "articleId")) ==>
              (r.BroadcastRefused? && r.status == 404 <==> Get(body.value, "articleId").s !in articles)
    ensures body.Some? && Destructurable(body.value) && Truthy(Get(body.value, "subject")) && Truthy(Get(body.value, "content"))
            && Get(body.value, "articleId").Str? && Truthy(Get(body.value, "articleId"))
            && Get(body.value, "articleId").s in articles ==>
              r == BroadcastSent(Count(ActiveSubscribers(subs), sendMail),
                                 |ActiveSubscribers(subs)| - Count(ActiveSubscribers(subs), sendMail))
    ensures body.Some? && Destructurable(body.value) && Truthy(Get(body.value, "subject")) && Truthy(Get(body.value, "content"))
            && Truthy(Get(body.value, "articleId")) && !Get(body.value, "articleId").Str? ==>
              r == BroadcastRefused(500, "Failed to send newsletter")
  {
    if body.None? || !Destructurable(body.value) {
      return BroadcastRefused(500, "Failed to send newsletter");
    }
    var articleId, subject, content := Get(body.value, "articleId"), Get(body.value, "subject"), Get(body.value, "content");
    if !Truthy(articleId) || !Truthy(subject) || !Truthy(content) {
      return BroadcastRefused(400, "Article ID, subject, and content are required");
    }
    var recipients := ActiveSubscribers(subs);
    if !articleId.Str? {
      return BroadcastRefused(500, "Failed to send newsletter");
    }
    if articleId.s !in articles {
      return BroadcastRefused(404, "Article not found");
    }
    var success, failed, _ := SendToSubscribers(recipients, sendMail);
    r := BroadcastSent(success, failed);
  }
}
