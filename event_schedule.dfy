/** The schedule page's filters: events by category and venue, and the
    badge colour of a category. */
module EventSchedule {
  import opened Wrappers
  import opened Seqs

  /** A session on the schedule page. */
  datatype ScheduledEvent = ScheduledEvent(
    id: string, time: string, title: string, category: string, venue: string,
    speaker: Option<string>, description: string, duration: string,
    eligibility: Option<string>, prerequisite: Option<string>, prize: Option<string>)

  datatype Category = Category(id: string, name: string, color: string)

  /** The category tabs and their badge colours. */
  const Categories: seq<Category> := [
    Category("all", "All Events", "default"),
    Category("pitching", "Pitching Events", "accent"),
    Category("competitions", "Competitions", "primary"),
    Category("workshops", "Workshops", "secondary"),
    Category("networking", "Networking", "outline")
  ]

  /** The selected category and venue both admit the event ("all" admits
      every event). */
  predicate Selected(e: ScheduledEvent, category: string, venue: string) {
    (category == "all" || e.category == category) && (venue == "all" || e.venue == venue)
  }

  function SelectedBy(category: string, venue: string): ScheduledEvent -> bool {
    (e: ScheduledEvent) => Selected(e, category, venue)
  }

  /** `filterEvents`: the selected events, in schedule order. */
  function FilterEvents(events: seq<ScheduledEvent>, category: string, venue: string): (r: seq<ScheduledEvent>)
    ensures IsSubseq(r, events)
    ensures forall i :: 0 <= i < |r| ==> Selected(r[i], category, venue)
    ensures forall i :: 0 <= i < |events| && Selected(events[i], category, venue) ==> events[i] in r
  {
    FilterIsSubseq(events, SelectedBy(category, venue));
    FilterKeeps(events, SelectedBy(category, venue));
    Filter(events, SelectedBy(category, venue))
  }

  /** With both selectors on "all" the list is shown as it is. */
  lemma AllSelectorsShowEverything(events: seq<ScheduledEvent>)
    ensures FilterEvents(events, "all", "all") == events
  {
    FilterAll(events, SelectedBy("all", "all"));
  }

  /** Choosing a venue as well only hides events. */
  lemma VenueNarrows(events: seq<ScheduledEvent>, category: string, venue: string)
    ensures IsSubseq(FilterEvents(events, category, venue), FilterEvents(events, category, "all"))
  {
    FilterMonotone(events, SelectedBy(category, venue), SelectedBy(category, "all"));
  }

  /** Filtering twice with the same selection changes nothing more. */
  lemma FilterEventsIdempotent(events: seq<ScheduledEvent>, category: string, venue: string)
    ensures FilterEvents(FilterEvents(events, category, venue), category, venue) == FilterEvents(events, category, venue)
  {
    var once := FilterEvents(events, category, venue);
    FilterAll(once, SelectedBy(category, venue));
  }

  /** The colour of the first category with the id, or "default". */
  function CategoryColor(categories: seq<Category>, category: string): (r: string)
    ensures r != ""
    ensures (forall i :: 0 <= i < |categories| ==> categories[i].id != category) ==> r == "default"
  {
    match Find(categories, (c: Category) => c.id == category)
    case Some(c) => if c.color != "" then c.color else "default"
    case None => "default"
  }

  /** `getCategoryColor` */
  function GetCategoryColor(category: string): string {
    CategoryColor(Categories, category)
  }

  /** The colour comes from the first category carrying the id. */
  lemma {:induction false} ColorOfFirstMatch(categories: seq<Category>, category: string, i: int)
    requires 0 <= i < |categories| && categories[i].id == category && categories[i].color != ""
    requires forall j :: 0 <= j < i ==> categories[j].id != category
    ensures CategoryColor(categories, category) == categories[i].color
  {
    if i > 0 {
      ColorOfFirstMatch(categories[1..], category, i - 1);
    }
  }

  /** An event whose category has no tab gets the default badge. */
  lemma UnknownCategoryIsDefault(category: string)
    requires category !in {"all", "pitching", "competitions", "workshops", "networking"}
    ensures GetCategoryColor(category) == "default"
  {
    assert forall i :: 0 <= i < |Categories| ==> Categories[i].id != category;
  }
}
