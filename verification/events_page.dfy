/** The public events page: the list shown under the search box and the type buttons. */
module EventsPage {
  import opened Text
  import opened Query

  /** The fields of an event the page filters on. */
  datatype EventItem = EventItem(title: string, description: string, location: string, eventType: string)

  /** The search: title, description or location contains the term, ignoring case. */
  predicate MatchesSearch(e: EventItem, term: string)
  {
    ContainsIgnoringCase(e.title, term) || ContainsIgnoringCase(e.description, term)
    || ContainsIgnoringCase(e.location, term)
  }

  /** Whether an event is shown: it matches a non-empty search, and its type equals a filter
      other than `all`. */
  predicate Shown(term: string, typeFilter: string, e: EventItem)
  {
    (term == "" || MatchesSearch(e, term)) && (typeFilter == "all" || e.eventType == typeFilter)
  }

  /** `filterEvents`: the search, then the type filter, each applied only when it is set. */
  function FilterEvents(events: seq<EventItem>, term: string, typeFilter: string): seq<EventItem>
  {
    var searched := When(events, term != "", (e: EventItem) => MatchesSearch(e, term));
    When(searched, typeFilter != "all", (e: EventItem) => e.eventType == typeFilter)
  }

  /** The two steps keep exactly the events `Shown` picks, in their original order. */
  lemma FilterEventsIsOnePass(events: seq<EventItem>, term: string, typeFilter: string)
    ensures FilterEvents(events, term, typeFilter) == Filter(events, e => Shown(term, typeFilter, e))
  {
    WhenTwice(events, term != "", (e: EventItem) => MatchesSearch(e, term),
              typeFilter != "all", (e: EventItem) => e.eventType == typeFilter,
              e => Shown(term, typeFilter, e));
  }

  /** The result is an order-preserving subsequence of the events, holds exactly the shown
      ones, and is the whole list when no filter is set. */
  lemma FilterEventsProperties(events: seq<EventItem>, term: string, typeFilter: string)
    ensures var r := FilterEvents(events, term, typeFilter);
            && IsSubsequence(r, events)
            && (forall i :: 0 <= i < |r| ==> Shown(term, typeFilter, r[i]))
            && (forall i :: 0 <= i < |events| && Shown(term, typeFilter, events[i]) ==> events[i] in r)
            && (term == "" && typeFilter == "all" ==> r == events)
  {
    FilterEventsIsOnePass(events, term, typeFilter);
    FilterIsSubsequence(events, e => Shown(term, typeFilter, e));
    if term == "" && typeFilter == "all" {
      FilterKeepsAll(events, e => Shown(term, typeFilter, e));
    }
  }
}
