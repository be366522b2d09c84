/** The administrator panel's decisions: what each staff role may see and
    do, which tab opens first, which participants the search shows and what
    scanning a pass code finds. */
module AdminPanel {
  import opened Wrappers
  import opened Strings
  import opened Seqs

  /** The panels and actions a role is allowed (`exportData` is the
      `export` flag). */
  datatype Permissions = Permissions(participants: bool, scanner: bool, analytics: bool, exportData: bool, edit: bool)

  /** `ROLE_PERMISSIONS` */
  const RolePermissions: map<string, Permissions> := map[
    "Super Admin" := Permissions(true, true, true, true, true),
    "Event Manager" := Permissions(true, true, true, true, false),
    "Scanner Operator" := Permissions(false, true, false, false, false),
    "Analytics Viewer" := Permissions(true, false, true, true, false)
  ]

  /** The role whose permissions an unknown role gets. */
  const FallbackRole: string := "Scanner Operator"

  /** The permissions of a role; a role outside the table gets the scanner
      operator's. */
  function PermissionsFor(role: string): (r: Permissions)
    ensures role in RolePermissions ==> r == RolePermissions[role]
    ensures role !in RolePermissions ==> r == RolePermissions[FallbackRole]
  {
    if role in RolePermissions then RolePermissions[role] else RolePermissions[FallbackRole]
  }

  /** Only the super administrator may edit. */
  lemma OnlySuperAdminEdits(role: string)
    ensures PermissionsFor(role).edit <==> role == "Super Admin"
  {
  }

  /** Every role, known or not, can open at least one panel, so the
      "Access Restricted" message is never shown. */
  lemma EveryRoleHasAPanel(role: string)
    ensures var p := PermissionsFor(role); p.participants || p.scanner || p.analytics
  {
  }

  /** The tab that opens first: the scanner if allowed, else the
      participants, else the analytics. */
  function DefaultTab(p: Permissions): (r: string)
    ensures r == "scanner" <==> p.scanner
    ensures r == "participants" <==> !p.scanner && p.participants
    ensures r == "analytics" <==> !p.scanner && !p.participants
  {
    if p.scanner then "scanner" else if p.participants then "participants" else "analytics"
  }

  /** A tab's trigger is shown only when the role has that panel. */
  predicate TabShown(p: Permissions, tab: string) {
    (tab == "participants" && p.participants) || (tab == "scanner" && p.scanner) || (tab == "analytics" && p.analytics)
  }

  /** The tab that opens first is always one the role can see. */
  lemma DefaultTabIsShown(role: string)
    ensures TabShown(PermissionsFor(role), DefaultTab(PermissionsFor(role)))
  {
    EveryRoleHasAPanel(role);
  }

  // ------------------------------------------------------------ participants

  datatype Participant = Participant(
    id: string, name: string, email: string, phone: string, college: string,
    passType: string, price: int, purchaseDate: string, status: string, checkInStatus: string)

  /** The participants the panel lists (fixed sample records). */
  const SampleParticipants: seq<Participant> := [
    Participant("ESUMMIT-2025-ABC123", "Rahul Sharma", "rahul.sharma@example.com", "+91 98765 43210",
                "IIT Mumbai", "Full Summit Pass", 799, "Jan 20, 2025", "Active", "Not Checked In"),
    Participant("ESUMMIT-2025-DEF456", "Priya Patel", "priya.patel@example.com", "+91 98765 43211",
                "TCET Mumbai", "Day 1 Pass", 299, "Jan 21, 2025", "Active", "Checked In"),
    Participant("ESUMMIT-2025-GHI789", "Amit Kumar", "amit.kumar@example.com", "+91 98765 43212",
                "VJTI Mumbai", "VIP Pass", 1499, "Jan 18, 2025", "Active", "Not Checked In"),
    Participant("ESUMMIT-2025-JKL012", "Sneha Desai", "sneha.desai@example.com", "+91 98765 43213",
                "DJ Sanghvi", "Full Summit Pass", 799, "Jan 22, 2025", "Active", "Checked In"),
    Participant("ESUMMIT-2025-MNO345", "Rohan Mehta", "rohan.mehta@example.com", "+91 98765 43214",
                "SPIT Mumbai", "Day 2 Pass", 399, "Jan 19, 2025", "Active", "Not Checked In")
  ]

  /** The search term occurs, ignoring letter case, in the name, the address
      or the pass id. */
  predicate MatchesSearch(p: Participant, term: string) {
    var t := ToLower(term);
    Includes(ToLower(p.name), t) || Includes(ToLower(p.email), t) || Includes(ToLower(p.id), t)
  }

  /** The pass-type filter is "all" or names the participant's pass type
      exactly. */
  predicate MatchesPassType(p: Participant, filter: string) {
    filter == "all" || p.passType == filter
  }

  function ShownBy(term: string, filter: string): Participant -> bool {
    p => MatchesSearch(p, term) && MatchesPassType(p, filter)
  }

  /** `filteredParticipants` */
  function FilterParticipants(participants: seq<Participant>, term: string, filter: string): (r: seq<Participant>)
    ensures IsSubseq(r, participants)
    ensures forall i :: 0 <= i < |r| ==> MatchesSearch(r[i], term) && MatchesPassType(r[i], filter)
    ensures forall i :: 0 <= i < |participants| && MatchesSearch(participants[i], term) && MatchesPassType(participants[i], filter) ==>
              participants[i] in r
  {
    FilterIsSubseq(participants, ShownBy(term, filter));
    FilterKeeps(participants, ShownBy(term, filter));
    Filter(participants, ShownBy(term, filter))
  }

  /** The empty string occurs in every string. */
  lemma EmptyTermMatches(s: string)
    ensures Includes(s, "")
  {
    assert OccursAt(s, "", 0);
  }

  /** With no search term and the "all" filter every participant is shown,
      in order. */
  lemma NoSearchShowsEveryone(participants: seq<Participant>)
    ensures FilterParticipants(participants, "", "all") == participants
  {
    forall i | 0 <= i < |participants| ensures ShownBy("", "all")(participants[i]) {
      EmptyTermMatches(ToLower(participants[i].name));
    }
    FilterAll(participants, ShownBy("", "all"));
  }

  /** The search ignores the letter case of the term. */
  lemma SearchIgnoresTermCase(participants: seq<Participant>, term: string, filter: string)
    ensures FilterParticipants(participants, ToLower(term), filter) == FilterParticipants(participants, term, filter)
  {
    ToLowerIdempotent(term);
    FilterAgree(participants, ShownBy(ToLower(term), filter), ShownBy(term, filter));
  }

  /** Narrowing the pass-type filter from "all" only hides participants. */
  lemma PassTypeFilterNarrows(participants: seq<Participant>, term: string, filter: string)
    ensures IsSubseq(FilterParticipants(participants, term, filter), FilterParticipants(participants, term, "all"))
  {
    FilterMonotone(participants, ShownBy(term, filter), ShownBy(term, "all"));
  }

  // ------------------------------------------------------------ scanning

  /** What the scanner reports: a check-in with the "name - pass type"
      description, or an invalid code. */
  datatype ScanResult = CheckedIn(description: string) | InvalidCode

  /** `handleScan`: the first participant whose id equals the scanned code
      exactly is checked in. */
  function HandleScan(participants: seq<Participant>, code: string): (r: ScanResult)
    ensures r.CheckedIn? <==> exists i :: 0 <= i < |participants| && participants[i].id == code
  {
    match Find(participants, (p: Participant) => p.id == code)
    case Some(p) => CheckedIn(p.name + " - " + p.passType)
    case None => InvalidCode
  }

  /** The check-in describes the first participant holding that code. */
  lemma {:induction false} ScanFindsFirstHolder(participants: seq<Participant>, code: string, i: int)
    requires 0 <= i < |participants| && participants[i].id == code
    requires forall j :: 0 <= j < i ==> participants[j].id != code
    ensures HandleScan(participants, code) == CheckedIn(participants[i].name + " - " + participants[i].passType)
  {
    if i > 0 {
      ScanFindsFirstHolder(participants[1..], code, i - 1);
    }
  }
}
