/** `GET /api/admin/newsletter`: the subscriber list, newest first, with its counts. */
module NewsletterAdmin {
  import opened Js
  import opened Query
  import opened Newsletter

  datatype Stats = Stats(total: nat, active: nat, unsubscribed: nat)

  datatype Listing =
    | Listed(subscribers: seq<Subscription>, stats: Stats)
    | ListFailed   // 500 `Failed to fetch subscribers`

  predicate IsActive(s: Subscription) { s.status == "active" }
  predicate IsUnsubscribed(s: Subscription) { s.status == "unsubscribed" }

  /** Counts over the fetched list. A record in any other state (bounced, say) is counted in
      `total` only, so the two named counts never add up to more than the total. */
  function StatsOf(subs: seq<Subscription>): (st: Stats)
    ensures st.total == |subs|
    ensures st.active + st.unsubscribed <= st.total
    ensures st.active == Count(subs, IsActive) && st.unsubscribed == Count(subs, IsUnsubscribed)
  {
    CountDisjoint(subs, IsActive, IsUnsubscribed);
    Stats(|subs|, Count(subs, IsActive), Count(subs, IsUnsubscribed))
  }

  /** When no record is in another state the counts add up exactly. */
  lemma {:induction false} StatsExact(subs: seq<Subscription>)
    requires forall i :: 0 <= i < |subs| ==> subs[i].status in {"active", "unsubscribed"}
    ensures StatsOf(subs).active + StatsOf(subs).unsubscribed == StatsOf(subs).total
    decreases |subs|
  {
    if subs != [] {
      StatsExact(subs[1..]);
      assert Filter(subs, IsActive) == (if IsActive(subs[0]) then [subs[0]] else []) + Filter(subs[1..], IsActive);
      assert Filter(subs, IsUnsubscribed) == (if IsUnsubscribed(subs[0]) then [subs[0]] else []) + Filter(subs[1..], IsUnsubscribed);
    }
  }

  function CreatedAt(s: Subscription): int { s.createdAt }

  /** The handler. `fetched` is the table, or `None` when the query throws. */
  function Get(production: bool, hasDatabaseUrl: bool, fetched: Option<seq<Subscription>>): (r: Listing)
    ensures production && !hasDatabaseUrl ==> r == Listed([], Stats(0, 0, 0))
    ensures (!production || hasDatabaseUrl) && fetched.None? ==>
              r == if production then Listed([], Stats(0, 0, 0)) else ListFailed
    ensures r.Listed? ==> r.stats == StatsOf(r.subscribers)
                          && SortedBy(r.subscribers, CreatedAt, true)
    ensures (!production || hasDatabaseUrl) && fetched.Some? ==>
              r.Listed? && multiset(r.subscribers) == multiset(fetched.value)
  {
    if production && !hasDatabaseUrl then Listed([], StatsOf([]))
    else match fetched
      case None => if production then Listed([], StatsOf([])) else ListFailed
      case Some(subs) =>
        var ordered := SortBy(subs, CreatedAt, true);
        Listed(ordered, StatsOf(ordered))
  }

  /** Reordering does not change the counts, so they are the counts of the table itself. */
  lemma StatsOfTable(subs: seq<Subscription>)
    ensures Get(false, true, Some(subs)) == Listed(SortBy(subs, CreatedAt, true), StatsOf(subs))
  {
    var ordered := SortBy(subs, CreatedAt, true);
    CountPermutation(ordered, subs, IsActive);
    CountPermutation(ordered, subs, IsUnsubscribed);
  }
}
