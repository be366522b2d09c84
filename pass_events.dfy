/** The pass catalogue of the front end: which scheduled events each pass type
    admits, the display name of each pass type, the dated event list the
    dashboard shows, and the locally stored list of purchased passes. */
module PassEvents {
  import opened Wrappers
  import opened Strings
  import opened Seqs

  /** One scheduled event. `speaker` is `null` for every event of the schedule. */
  datatype Event = Event(id: string, time: string, title: string, category: string,
                         venue: string, speaker: Option<string>, description: string,
                         duration: string)

  /** The two days of the summit, each in schedule order. */
  datatype Schedule = Schedule(day1: seq<Event>, day2: seq<Event>)

  /** Both days, day 1 first: the list most pass types filter. */
  function AllEvents(s: Schedule): seq<Event> {
    s.day1 + s.day2
  }

  /** One entry of a day's programme; its event id is the day's prefix, a dash and `slug`. */
  datatype Session = Session(slug: string, time: string, title: string, category: string,
                             venue: string, speaker: Option<string>, description: string,
                             duration: string)

  /** Every id in `events` starts with `prefix`. */
  predicate IdsStartWith(events: seq<Event>, prefix: string) {
    forall i :: 0 <= i < |events| ==> StartsWith(events[i].id, prefix)
  }

  /** The events of day `day`, one per session, in order. */
  function Programme(day: string, sessions: seq<Session>): (r: seq<Event>)
    ensures |r| == |sessions|
    ensures forall i :: 0 <= i < |r| ==> r[i].id == day + "-" + sessions[i].slug
    ensures IdsStartWith(r, day)
  {
    seq(|sessions|, i requires 0 <= i < |sessions| =>
      Event(day + "-" + sessions[i].slug, sessions[i].time, sessions[i].title, sessions[i].category,
            sessions[i].venue, sessions[i].speaker, sessions[i].description, sessions[i].duration))
  }

  /** The first day of the summit, in schedule order ("d1-registration" … "d1-dispersal"). */
  const Day1Sessions: seq<Session> := [
    Session("registration", "08:30 - 09:30", "Registration Starts", "networking", "Main Entrance", None, "Check-in and receive your welcome kit", "1 hour"),
    Session("assembling", "09:30 - 10:00", "Assembling in Auditorium", "networking", "Convocation Hall", None, "Assemble in auditorium", "30 min"),
    Session("inaugural", "10:00 - 11:30", "Inauguration", "networking", "Convocation Hall", None, "Official inauguration", "1.5 hours"),
    Session("ten-minute-deal", "11:30 - 13:30", "The Ten Minute Deal", "pitching", "Convocation Hall", None, "Rapid pitch sessions", "2 hours"),
    Session("pitch-arena", "11:30 - 13:30", "Pitch Arena - Idea to Reality", "pitching", "Lab 314, 315, 316", None, "Idea-stage pitches and mentorship", "2 hours"),
    Session("incubator-summit", "11:30 - 13:30", "The Incubator's Summit", "pitching", "SSC TIMSR", None, "Incubator engagement and pitches", "2 hours"),
    Session("internships-jobfair", "11:30 - 13:30", "Internships & Job fair", "networking", "Lobby Area", None, "Connect with companies for internships and jobs", "2 hours"),
    Session("informals", "11:30 - 13:30", "Informals", "networking", "Multipurpose Hall 2nd floor & Ground floor", None, "Informal networking", "2 hours"),
    Session("startup-expo", "11:30 - 13:30", "StartUp Expo", "networking", "Lobby Area", None, "Startup exhibition", "2 hours"),
    Session("ipl-auction", "11:30 - 13:30", "Competition - IPL Auction", "competitions", "Classroom 601 TIMSR", None, "IPL Auction competition", "2 hours"),
    Session("biz-arena", "11:30 - 13:30", "Competition - Biz Arena Startup League", "competitions", "Classroom 301 TIMSR", None, "Biz Arena competition", "2 hours"),
    Session("ai-buildathon", "11:30 - 13:30", "Competition - AI Build-A-Thon", "competitions", "SH-3", None, "AI buildathon sessions", "2 hours"),
    Session("workshop-design", "11:30 - 13:30", "Workshop - Design Thinking & Innovation Strategy", "workshops", "Lab 528 & 529", None, "Design thinking workshop", "2 hours"),
    Session("workshop-finance", "11:30 - 13:30", "Workshop - Finance & Marketing", "workshops", "Lab 524 & 525", None, "Finance & marketing workshop", "2 hours"),
    Session("workshop-data", "11:30 - 13:30", "Workshop - Data Analytics & BDM", "workshops", "Lab 526 & 527", None, "Data analytics workshop", "2 hours"),
    Session("lunch", "13:30 - 14:30", "Lunch", "networking", "Dining Area", None, "Lunch break", "1 hour"),
    Session("ten-minute-deal-afternoon", "14:30 - 17:00", "The Ten Minute Deal", "pitching", "Convocation Hall", None, "Afternoon pitching sessions", "2.5 hours"),
    Session("incubator-summit-afternoon", "14:30 - 17:00", "The Incubator's Summit", "pitching", "SSC TIMSR", None, "Afternoon incubator engagements", "2.5 hours"),
    Session("internships-jobfair-afternoon", "14:30 - 17:00", "Internships & Job fair", "networking", "Lobby Area", None, "Afternoon job fair", "2.5 hours"),
    Session("startup-expo-afternoon", "14:30 - 17:00", "StartUp Expo", "networking", "Lobby Area", None, "Expo continues in afternoon", "2.5 hours"),
    Session("ai-buildathon-afternoon", "14:30 - 17:00", "Competition - AI Build-A-Thon", "competitions", "SH-3", None, "AI buildathon continues", "2.5 hours"),
    Session("ipl-auction-afternoon", "14:30 - 17:00", "Competition - IPL Auction", "competitions", "Classroom 601 TIMSR", None, "IPL Auction continues", "2.5 hours"),
    Session("pitch-arena-afternoon", "14:30 - 17:00", "Pitch Arena - Idea to Reality", "pitching", "Lab 314, 315, 316", None, "Afternoon pitch arena sessions", "2.5 hours"),
    Session("hightea", "17:00 - 17:30", "High Tea", "networking", "Lobby Area", None, "High tea and refreshments", "30 min"),
    Session("dispersal", "17:30", "Dispersal", "networking", "Campus", None, "End of Day 1", "")
  ]

  /** The second day of the summit, in schedule order ("d2-registration" … "d2-dispersal"). */
  const Day2Sessions: seq<Session> := [
    Session("registration", "08:30 - 09:30", "Registration", "networking", "Main Entrance", None, "Day 2 check-in", "1 hour"),
    Session("ten-minute-deal", "09:30 - 13:30", "The Ten Minute Deal", "pitching", "Convocation Hall", None, "Morning pitch sessions", "4 hours"),
    Session("incubator-summit", "09:30 - 13:30", "The Incubator's Summit", "pitching", "SSC TIMSR", None, "Incubator engagements", "4 hours"),
    Session("internships-jobfair", "09:30 - 13:30", "Internships & Job fair", "networking", "Lobby Area", None, "Job fair and internships", "4 hours"),
    Session("startup-expo", "09:30 - 13:30", "StartUp Expo", "networking", "Lobby Area", None, "Expo continues", "4 hours"),
    Session("ai-buildathon", "09:30 - 13:30", "Competition - AI Build-A-Thon", "competitions", "SH-3", None, "AI buildathon sessions", "4 hours"),
    Session("ipl-auction", "09:30 - 13:30", "Competition - IPL Auction", "competitions", "Classroom 601 TIMSR", None, "IPL Auction session", "4 hours"),
    Session("ai-for-atmanirbhar", "11:30 - 13:30", "AI for Atmanirbhar Bharat: HEI Pre-Summit Engagements towards IndiaAI Impact Summit 2026", "networking", "SH-I", None, "AI for Atmanirbhar Bharat session", "2 hours"),
    Session("lunch", "13:30 - 14:30", "Lunch", "networking", "Dining Area", None, "Lunch break", "1 hour"),
    Session("panel-discussion", "14:30 - 15:30", "Panel Discussion", "networking", "SSC TIMSR", None, "Panel discussion", "1 hour"),
    Session("valedictory", "15:30 - 16:30", "Valedictory", "networking", "SSC TIMSR", None, "Valedictory and closing remarks", "1 hour"),
    Session("dispersal", "16:30", "Dispersal", "networking", "Campus", None, "End of Day 2", "")
  ]

  /** The schedule of the summit. */
  const EventSchedule: Schedule := Schedule(Programme("d1", Day1Sessions), Programme("d2", Day2Sessions))

  /** Administrative events nobody registers for. */
  const Excluded: seq<string> := [
    "d1-registration", "d1-assembling", "d1-lunch", "d1-hightea", "d1-dispersal",
    "d2-registration", "d2-lunch", "d2-dispersal"
  ]

  const PixelIds: seq<string> := [
    "d1-startup-expo", "d1-ipl-auction", "d1-ai-buildathon", "d1-pitch-arena", "d1-ten-minute-deal",
    "d2-startup-expo", "d2-ipl-auction", "d2-ai-buildathon", "d2-pitch-arena", "d2-ten-minute-deal"
  ]

  /** The Silicon list extends the Pixel list. */
  const SiliconIds: seq<string> := PixelIds + [
    "d1-workshop-design", "d1-workshop-finance", "d1-workshop-data",
    "d2-design-thinking", "d2-finance-marketing", "d2-data-analytics"
  ]

  /** The Quantum list extends the Silicon list (repeating some of its ids). */
  const QuantumIds: seq<string> := SiliconIds + [
    "d1-ten-minute-deal", "d1-ten-minute-deal-afternoon", "d2-ten-minute-deal",
    "d2-incubator-summit", "d1-incubator-summit"
  ]

  const ExhibitorIds: seq<string> := [
    "d1-startup-expo", "d1-startup-expo-afternoon", "d2-startup-expo"
  ]

  /** The pass types the eligibility switch has a case for. */
  const PassTypes: set<string> := {
    "pixel", "tcet_student", "tcet student", "silicon", "quantum", "exhibitors",
    "exhibitors pass", "day1", "day2", "full", "group"
  }

  /** `e => ids.includes(e.id) && !excludedEvents.includes(e.id)` */
  function IncludedIn(ids: seq<string>): Event -> bool {
    (e: Event) => e.id in ids && e.id !in Excluded
  }

  /** `e => !ids.includes(e.id)` */
  function NotIn(ids: seq<string>): Event -> bool {
    (e: Event) => e.id !in ids
  }

  /** The registrable events whose id starts with `prefix`. */
  function OnDay(prefix: string): Event -> bool {
    (e: Event) => e.id !in Excluded && StartsWith(e.id, prefix)
  }

  /** The test applied to both days by each pass type that is not a single-day pass;
      "full", "group" and every unknown type keep all registrable events. */
  function Admission(passType: string): (r: Event -> bool)
    ensures forall e :: r(e) ==> e.id !in Excluded
  {
    if passType == "pixel" then IncludedIn(PixelIds)
    else if passType == "tcet_student" || passType == "tcet student" || passType == "quantum" then IncludedIn(QuantumIds)
    else if passType == "silicon" then IncludedIn(SiliconIds)
    else if passType == "exhibitors" || passType == "exhibitors pass" then IncludedIn(ExhibitorIds)
    else NotIn(Excluded)
  }

  /** The events of schedule `s` that a pass type admits. */
  function EligibleEvents(s: Schedule, passType: string): (r: seq<Event>)
    ensures forall i :: 0 <= i < |r| ==> r[i] in AllEvents(s) && r[i].id !in Excluded
    ensures passType !in PassTypes ==> r == []
  {
    if passType == "day1" then Filter(s.day1, NotIn(Excluded))
    else if passType == "day2" then Filter(s.day2, NotIn(Excluded))
    else if passType in PassTypes then Filter(AllEvents(s), Admission(passType))
    else []
  }

  /** `getEligibleEvents`: the events of the summit a pass type admits. */
  function GetEligibleEvents(passType: string): seq<Event> {
    EligibleEvents(EventSchedule, passType)
  }

  /** Every event id names its day: "d1..." on day 1, "d2..." on day 2. */
  predicate WellDated(s: Schedule) {
    IdsStartWith(s.day1, "d1") && IdsStartWith(s.day2, "d2")
  }

  /** Each day holds the start-up expo, which every pass type admits. */
  predicate HasExpo(s: Schedule) {
    (exists i :: 0 <= i < |s.day1| && s.day1[i].id == "d1-startup-expo") &&
    (exists i :: 0 <= i < |s.day2| && s.day2[i].id == "d2-startup-expo")
  }

  /** The summit's schedule is well dated: each day's ids carry its prefix. */
  lemma EventScheduleWellDated()
    ensures WellDated(EventSchedule)
  {
  }

  /** The summit's schedule holds the start-up expo on both days. */
  lemma EventScheduleHasExpo()
    ensures HasExpo(EventSchedule)
  {
    assert Day1Sessions[8].slug == "startup-expo";
    assert EventSchedule.day1[8].id == "d1-startup-expo";
    assert Day2Sessions[4].slug == "startup-expo";
    assert EventSchedule.day2[4].id == "d2-startup-expo";
  }

  /** "day1" admits exactly the registrable events of the whole schedule whose
      id starts with "d1", and "day2" those whose id starts with "d2". */
  lemma {:induction false} DayPasses(s: Schedule)
    requires WellDated(s)
    ensures EligibleEvents(s, "day1") == Filter(AllEvents(s), OnDay("d1"))
    ensures EligibleEvents(s, "day2") == Filter(AllEvents(s), OnDay("d2"))
  {
    FilterAppend(s.day1, s.day2, OnDay("d1"));
    FilterAgree(s.day1, OnDay("d1"), NotIn(Excluded));
    FilterNone(s.day2, OnDay("d1"));
    FilterAppend(s.day1, s.day2, OnDay("d2"));
    FilterNone(s.day1, OnDay("d2"));
    FilterAgree(s.day2, OnDay("d2"), NotIn(Excluded));
  }

  /** Every result keeps the schedule's order: it is a subsequence of day 1 followed by day 2. */
  lemma EligibleIsSubseq(s: Schedule, passType: string)
    ensures IsSubseq(EligibleEvents(s, passType), AllEvents(s))
  {
    if passType == "day1" {
      FilterIsSubseq(s.day1, NotIn(Excluded));
      SubseqAppend(EligibleEvents(s, passType), s.day1, s.day2);
    } else if passType == "day2" {
      FilterIsSubseq(s.day2, NotIn(Excluded));
      SubseqPrepend(EligibleEvents(s, passType), s.day1, s.day2);
    } else if passType in PassTypes {
      FilterIsSubseq(AllEvents(s), Admission(passType));
    }
  }

  /** Pixel ⊆ Silicon ⊆ Quantum, both as ordered subsequences and as sets. */
  lemma TiersNest(s: Schedule)
    ensures IsSubseq(EligibleEvents(s, "pixel"), EligibleEvents(s, "silicon"))
    ensures IsSubseq(EligibleEvents(s, "silicon"), EligibleEvents(s, "quantum"))
    ensures forall i :: 0 <= i < |EligibleEvents(s, "pixel")| ==>
              EligibleEvents(s, "pixel")[i] in EligibleEvents(s, "silicon")
    ensures forall i :: 0 <= i < |EligibleEvents(s, "silicon")| ==>
              EligibleEvents(s, "silicon")[i] in EligibleEvents(s, "quantum")
  {
    FilterMonotone(AllEvents(s), Admission("pixel"), Admission("silicon"));
    FilterMonotone(AllEvents(s), Admission("silicon"), Admission("quantum"));
    SubseqMembers(EligibleEvents(s, "pixel"), EligibleEvents(s, "silicon"));
    SubseqMembers(EligibleEvents(s, "silicon"), EligibleEvents(s, "quantum"));
  }

  /** The two spellings of the student pass are the Quantum pass, and the two
      spellings of the exhibitors pass agree. */
  lemma AliasesAgree(s: Schedule)
    ensures EligibleEvents(s, "tcet_student") == EligibleEvents(s, "quantum")
    ensures EligibleEvents(s, "tcet student") == EligibleEvents(s, "quantum")
    ensures EligibleEvents(s, "exhibitors") == EligibleEvents(s, "exhibitors pass")
  {
  }

  /** "full" and "group" admit every registrable event: the day 1 pass followed
      by the day 2 pass. */
  lemma FullPassIsBothDays(s: Schedule)
    ensures EligibleEvents(s, "full") == EligibleEvents(s, "group") == Filter(AllEvents(s), NotIn(Excluded))
    ensures EligibleEvents(s, "full") == EligibleEvents(s, "day1") + EligibleEvents(s, "day2")
  {
    FilterAppend(s.day1, s.day2, NotIn(Excluded));
  }

  /** The single-day passes admit a selection of the "full" pass's events, in the same order. */
  lemma DayPassWithinFull(s: Schedule)
    ensures IsSubseq(EligibleEvents(s, "day1"), EligibleEvents(s, "full"))
    ensures IsSubseq(EligibleEvents(s, "day2"), EligibleEvents(s, "full"))
  {
    FullPassIsBothDays(s);
    var d1, d2 := EligibleEvents(s, "day1"), EligibleEvents(s, "day2");
    SubseqRefl(d1);
    SubseqAppend(d1, d1, d2);
    SubseqRefl(d2);
    SubseqPrepend(d2, d1, d2);
  }

  /** Every pass type admits a selection of the "full" pass's events, in the same order. */
  lemma FullPassIsEverything(s: Schedule, passType: string)
    ensures IsSubseq(EligibleEvents(s, passType), EligibleEvents(s, "full"))
  {
    if passType == "day1" || passType == "day2" {
      DayPassWithinFull(s);
    } else if passType in PassTypes {
      FilterMonotone(AllEvents(s), Admission(passType), NotIn(Excluded));
    }
  }

  /** The display-name table. */
  const PassNames: map<string, string> := map[
    "pixel" := "Pixel Pass",
    "silicon" := "Silicon Pass",
    "quantum" := "Quantum Pass",
    "exhibitors" := "Exhibitors Pass",
    "exhibitors pass" := "Exhibitors Pass",
    "tcet_student" := "Thakur Student Pass",
    "tcet student" := "Thakur Student Pass",
    "day1" := "Gold Pass",
    "day2" := "Silver Pass",
    "full" := "Platinum Pass",
    "group" := "Group Pass (5+)"
  ]

  const UnknownPass: string := "Unknown Pass"

  /** The display name of a pass id, "Unknown Pass" outside the table. */
  function GetPassName(passId: string): (r: string)
    ensures passId !in PassNames ==> r == UnknownPass
    ensures passId in PassNames ==> r == PassNames[passId] && r != UnknownPass
  {
    if passId in PassNames && PassNames[passId] != "" then PassNames[passId] else UnknownPass
  }

  /** The name table has an entry for exactly the pass types of the eligibility switch. */
  lemma NamedTypesAreSwitchCases(passId: string)
    ensures passId in PassNames <==> passId in PassTypes
  {
  }

  /** In a schedule with the start-up expo on both days, each single-day pass admits something. */
  lemma DayPassAdmitsSomething(s: Schedule, passType: string)
    requires HasExpo(s)
    requires passType == "day1" || passType == "day2"
    ensures EligibleEvents(s, passType) != []
  {
    if passType == "day2" {
      var j :| 0 <= j < |s.day2| && s.day2[j].id == "d2-startup-expo";
      FilterKeeps(s.day2, NotIn(Excluded));
      assert s.day2[j] in EligibleEvents(s, passType);
    } else {
      var i :| 0 <= i < |s.day1| && s.day1[i].id == "d1-startup-expo";
      FilterKeeps(s.day1, NotIn(Excluded));
      assert s.day1[i] in EligibleEvents(s, passType);
    }
  }

  /** In a schedule with the start-up expo on day 1, every pass type filtering
      both days admits something. */
  lemma BothDaysPassAdmitsSomething(s: Schedule, passType: string)
    requires HasExpo(s)
    requires passType in PassTypes && passType != "day1" && passType != "day2"
    ensures EligibleEvents(s, passType) != []
  {
    var i :| 0 <= i < |s.day1| && s.day1[i].id == "d1-startup-expo";
    assert AllEvents(s)[i] == s.day1[i];
    FilterKeeps(AllEvents(s), Admission(passType));
    assert s.day1[i] in EligibleEvents(s, passType);
  }

  /** The name table and the eligibility switch know the same pass types: a pass
      id has a name exactly when it admits at least one event. */
  lemma NamedIffEligible(s: Schedule, passId: string)
    requires HasExpo(s)
    ensures GetPassName(passId) != UnknownPass <==> EligibleEvents(s, passId) != []
  {
    NamedTypesAreSwitchCases(passId);
    if passId == "day1" || passId == "day2" {
      DayPassAdmitsSomething(s, passId);
    } else if passId in PassTypes {
      BothDaysPassAdmitsSomething(s, passId);
    }
  }

  /** At the summit, `getPassName` knows a pass id exactly when `getEligibleEvents`
      admits something for it. */
  lemma SummitNamesMatchPasses(passId: string)
    ensures GetPassName(passId) != UnknownPass <==> GetEligibleEvents(passId) != []
  {
    EventScheduleHasExpo();
    NamedIffEligible(EventSchedule, passId);
  }

  /** An event as the dashboard lists it, with the calendar date of its day. */
  datatype DatedEvent = DatedEvent(id: string, title: string, date: string, time: string,
                                   venue: string, category: string, speaker: Option<string>,
                                   description: string)

  const Day1Date: string := "February 2, 2026"
  const Day2Date: string := "February 3, 2026"

  /** Copies the displayed fields of `e`; day 1 is dated 2 February, any other day 3 February. */
  function FormatEventWithDate(e: Event, day: int): (r: DatedEvent)
    ensures r.id == e.id && r.title == e.title && r.time == e.time && r.venue == e.venue
    ensures r.category == e.category && r.speaker == e.speaker && r.description == e.description
    ensures r.date == Day1Date <==> day == 1
    ensures r.date == Day1Date || r.date == Day2Date
  {
    DatedEvent(e.id, e.title, if day == 1 then Day1Date else Day2Date, e.time, e.venue,
               e.category, e.speaker, e.description)
  }

  /** The eligible events of a pass type in schedule `s`, each dated by the day its id names. */
  function FormattedEvents(s: Schedule, passType: string): (r: seq<DatedEvent>)
    ensures |r| == |EligibleEvents(s, passType)|
    ensures forall i :: 0 <= i < |r| ==> r[i].id == EligibleEvents(s, passType)[i].id
    ensures forall i :: 0 <= i < |r| ==>
              (r[i].date == Day1Date <==> StartsWith(r[i].id, "d1"))
    ensures forall i :: 0 <= i < |r| ==> r[i].date == Day1Date || r[i].date == Day2Date
  {
    var events := EligibleEvents(s, passType);
    seq(|events|, i requires 0 <= i < |events| =>
      FormatEventWithDate(events[i], if StartsWith(events[i].id, "d1") then 1 else 2))
  }

  /** `getFormattedEventsForPass`, over the summit's schedule. */
  function GetFormattedEventsForPass(passType: string): seq<DatedEvent> {
    FormattedEvents(EventSchedule, passType)
  }

  /** In a well-dated schedule the date shown for an event is the date of the day it is scheduled on. */
  lemma FormattedDateIsScheduleDay(s: Schedule, passType: string)
    requires WellDated(s)
    ensures forall i :: 0 <= i < |FormattedEvents(s, passType)| ==>
              (EligibleEvents(s, passType)[i] in s.day1 ==> FormattedEvents(s, passType)[i].date == Day1Date)
    ensures forall i :: 0 <= i < |FormattedEvents(s, passType)| ==>
              (EligibleEvents(s, passType)[i] in s.day2 ==> FormattedEvents(s, passType)[i].date == Day2Date)
  {
  }

  /** A purchase record kept in the browser. */
  datatype PassData = PassData(id: string, kind: string, passId: string, price: int,
                               purchaseDate: string, status: string)

  /** The browser's local storage entry holding the purchased passes; `None`
      while the entry has never been written. */
  class PurchasedPasses {
    var stored: Option<seq<PassData>>

    constructor()
      ensures stored == None
    {
      stored := None;
    }

    /** The stored list, or the empty list when nothing was stored. */
    function GetPurchasedPasses(): (r: seq<PassData>)
      reads this
      ensures stored.None? ==> r == []
      ensures stored.Some? ==> r == stored.value
    {
      if stored.Some? then stored.value else []
    }

    /** Reads the list, appends one record and writes the list back. */
    method SavePurchasedPass(pass: PassData)
      modifies this
      ensures GetPurchasedPasses() == old(GetPurchasedPasses()) + [pass]
      ensures stored.Some?
    {
      var existing := GetPurchasedPasses();
      existing := existing + [pass];
      stored := Some(existing);
    }
  }
}
