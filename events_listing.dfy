/** The events page's list: one tab per category, narrowed by a free-text
    search over titles and descriptions. */
module EventsListing {
  import opened Wrappers
  import opened Strings
  import opened Seqs

  /** A card of the events page (the fields the filters and the count use). */
  datatype ListedEvent = ListedEvent(
    id: int, title: string, category: string, description: string,
    date: string, time: string, venue: string)

  /** The tab admits the event: "all" admits every event. */
  predicate InCategory(e: ListedEvent, category: string) {
    category == "all" || e.category == category
  }

  /** The query, ignoring letter case, occurs in the title or the
      description. */
  predicate MatchesQuery(e: ListedEvent, query: string) {
    Includes(ToLower(e.title), ToLower(query)) || Includes(ToLower(e.description), ToLower(query))
  }

  function OfCategory(category: string): ListedEvent -> bool {
    (e: ListedEvent) => e.category == category
  }

  function Matching(query: string): ListedEvent -> bool {
    (e: ListedEvent) => MatchesQuery(e, query)
  }

  /** `filteredEvents(category)` with the current search query: the tab's
      events first, then, for a non-empty query, those it matches. */
  function FilteredEvents(allEvents: seq<ListedEvent>, category: string, query: string): (r: seq<ListedEvent>)
    ensures IsSubseq(r, allEvents)
    ensures forall i :: 0 <= i < |r| ==> InCategory(r[i], category) && (query != "" ==> MatchesQuery(r[i], query))
  {
    var events := if category == "all" then allEvents else Filter(allEvents, OfCategory(category));
    FilterIsSubseq(allEvents, OfCategory(category));
    SubseqRefl(allEvents);
    if query != "" then
      FilterIsSubseq(events, Matching(query));
      SubseqTrans(Filter(events, Matching(query)), events, allEvents);
      Filter(events, Matching(query))
    else events
  }

  /** The tab and the search together select exactly the events that pass
      both tests, in page order. */
  lemma FilteredEventsIsOneFilter(allEvents: seq<ListedEvent>, category: string, query: string)
    ensures FilteredEvents(allEvents, category, query)
            == Filter(allEvents, e => InCategory(e, category) && (query != "" ==> MatchesQuery(e, query)))
  {
    var both := (e: ListedEvent) => InCategory(e, category) && (query != "" ==> MatchesQuery(e, query));
    if category == "all" {
      if query != "" {
        FilterAgree(allEvents, Matching(query), both);
      } else {
        FilterAll(allEvents, both);
      }
    } else {
      if query != "" {
        FilterFilter(allEvents, OfCategory(category), Matching(query), both);
      } else {
        FilterAgree(allEvents, OfCategory(category), both);
      }
    }
  }

  /** No event passing both tests is left out. */
  lemma FilteredEventsComplete(allEvents: seq<ListedEvent>, category: string, query: string)
    ensures forall i :: 0 <= i < |allEvents| && InCategory(allEvents[i], category) && (query != "" ==> MatchesQuery(allEvents[i], query)) ==>
              allEvents[i] in FilteredEvents(allEvents, category, query)
  {
    FilteredEventsIsOneFilter(allEvents, category, query);
    FilterKeeps(allEvents, e => InCategory(e, category) && (query != "" ==> MatchesQuery(e, query)));
  }

  /** The "all" tab with an empty query lists every event. */
  lemma AllTabNoQueryShowsEverything(allEvents: seq<ListedEvent>)
    ensures FilteredEvents(allEvents, "all", "") == allEvents
  {
  }

  /** The "N events found" count of a category tab never exceeds that of
      the "all" tab. */
  lemma CategoryCountWithinAll(allEvents: seq<ListedEvent>, category: string, query: string)
    ensures |FilteredEvents(allEvents, category, query)| <= |FilteredEvents(allEvents, "all", query)|
  {
    FilteredEventsIsOneFilter(allEvents, category, query);
    FilteredEventsIsOneFilter(allEvents, "all", query);
    FilterMonotone(allEvents,
      e => InCategory(e, category) && (query != "" ==> MatchesQuery(e, query)),
      e => InCategory(e, "all") && (query != "" ==> MatchesQuery(e, query)));
    SubseqLength(FilteredEvents(allEvents, category, query), FilteredEvents(allEvents, "all", query));
  }

  /** The search ignores the letter case of the query. */
  lemma QueryIgnoresCase(allEvents: seq<ListedEvent>, category: string, query: string)
    ensures FilteredEvents(allEvents, category, ToLower(query)) == FilteredEvents(allEvents, category, query)
  {
    ToLowerIdempotent(query);
    FilteredEventsIsOneFilter(allEvents, category, query);
    FilteredEventsIsOneFilter(allEvents, category, ToLower(query));
    FilterAgree(allEvents,
      e => InCategory(e, category) && (ToLower(query) != "" ==> MatchesQuery(e, ToLower(query))),
      e => InCategory(e, category) && (query != "" ==> MatchesQuery(e, query)));
  }
}
