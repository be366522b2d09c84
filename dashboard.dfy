/** The decisions of the user dashboard: which catalogue entry a pass's display
    name stands for, whether the signed-in user is a Thakur student, and the
    pass and claim lists the dashboard keeps in its state. */
module UserDashboard {
  import opened Wrappers
  import opened Strings
  import opened Seqs
  import PassEvents

  // ------------------------------------------------------------ pass type ids

  /** Normalised display name → catalogue pass type. */
  const PassTypeMap: map<string, string> := map[
    "pixel pass" := "pixel",
    "silicon pass" := "silicon",
    "quantum pass" := "quantum",
    "exhibitors pass" := "exhibitors",
    "tcet student pass" := "tcet_student",
    "tcet pass" := "tcet_student",
    "thakur student pass" := "tcet_student",
    "gold pass" := "day1",
    "silver pass" := "day2",
    "platinum pass" := "full",
    "group pass (5+)" := "group",
    "group pass" := "group"
  ]

  const DefaultPassType: string := "pixel"

  /** `passTypeName.trim().toLowerCase()` */
  function Normalize(passTypeName: string): string {
    ToLower(Trim(passTypeName))
  }

  /** `getPassTypeId`: the pass type a display name stands for, "pixel" for any
      name outside the table; the result is always a pass type the eligibility
      switch has a case for. */
  function GetPassTypeId(passTypeName: string): (r: string)
    ensures Normalize(passTypeName) !in PassTypeMap ==> r == DefaultPassType
    ensures Normalize(passTypeName) in PassTypeMap ==> r == PassTypeMap[Normalize(passTypeName)]
    ensures r in PassEvents.PassTypes
  {
    var name := Normalize(passTypeName);
    if name in PassTypeMap && PassTypeMap[name] != "" then PassTypeMap[name] else DefaultPassType
  }

  /** Surrounding white space never changes the pass type. */
  lemma PassTypeIdIgnoresPadding(passTypeName: string, before: string, after: string)
    requires AllSpace(before) && AllSpace(after)
    ensures GetPassTypeId(before + passTypeName + after) == GetPassTypeId(passTypeName)
  {
    TrimPadding(before, passTypeName, after);
  }

  /** Letter case never changes the pass type. */
  lemma PassTypeIdIgnoresCase(passTypeName: string)
    ensures GetPassTypeId(ToLower(passTypeName)) == GetPassTypeId(passTypeName)
  {
    TrimLowerCommute(passTypeName);
    ToLowerIdempotent(Trim(passTypeName));
  }

  /** The three spellings of the student pass name one pass type, and the
      legacy metal names stand for the day and full passes; with the lookup
      clause of `GetPassTypeId` this holds in any letter case and padding. */
  lemma PassTypeAliases()
    ensures PassTypeMap["tcet student pass"] == PassTypeMap["tcet pass"]
              == PassTypeMap["thakur student pass"] == "tcet_student"
    ensures PassTypeMap["gold pass"] == "day1" && PassTypeMap["silver pass"] == "day2"
    ensures PassTypeMap["platinum pass"] == "full"
  {
  }

  /** Every pass on the dashboard lists at least one included event. */
  lemma EveryPassListsEvents(passTypeName: string)
    ensures PassEvents.GetEligibleEvents(GetPassTypeId(passTypeName)) != []
  {
    var id := GetPassTypeId(passTypeName);
    PassEvents.NamedTypesAreSwitchCases(id);
    PassEvents.SummitNamesMatchPasses(id);
  }

  // ------------------------------------------------------------ Thakur students

  /** The e-mail domains of the Thakur institutions. */
  const ThakurDomains: seq<string> := ["@tcetmumbai.in", "@tgbs.in", "@timsr.edu.in", "@thakureducation.org"]

  /** `user?.primaryEmailAddress?.emailAddress || userData?.email || "user@example.com"` */
  function UserEmail(clerkEmail: Option<string>, profileEmail: Option<string>): (r: string)
    ensures r != ""
    ensures Truthy(clerkEmail) ==> r == clerkEmail.value
    ensures !Truthy(clerkEmail) && Truthy(profileEmail) ==> r == profileEmail.value
  {
    Or(clerkEmail, Or(profileEmail, Some("user@example.com"))).value
  }

  /** The lower-cased address ends with one of the Thakur domains. */
  predicate IsTcetStudent(email: string) {
    var lower := ToLower(email);
    EndsWith(lower, "@tcetmumbai.in") || EndsWith(lower, "@tgbs.in") ||
    EndsWith(lower, "@timsr.edu.in") || EndsWith(lower, "@thakureducation.org")
  }

  /** A Thakur student is recognised by the domain list, ignoring letter case. */
  lemma TcetStudentByDomain(email: string)
    ensures IsTcetStudent(email) <==> exists i :: 0 <= i < |ThakurDomains| && EndsWith(ToLower(email), ThakurDomains[i])
    ensures IsTcetStudent(ToLower(email)) == IsTcetStudent(email)
  {
    ToLowerIdempotent(email);
    if IsTcetStudent(email) {
      var lower := ToLower(email);
      if EndsWith(lower, "@tcetmumbai.in") {
        assert EndsWith(lower, ThakurDomains[0]);
      } else if EndsWith(lower, "@tgbs.in") {
        assert EndsWith(lower, ThakurDomains[1]);
      } else if EndsWith(lower, "@timsr.edu.in") {
        assert EndsWith(lower, ThakurDomains[2]);
      } else {
        assert EndsWith(lower, ThakurDomains[3]);
      }
    }
  }

  // ------------------------------------------------------------ dashboard state

  /** A pass as the passes endpoint lists it. */
  datatype Pass = Pass(id: string, passId: string, passType: string, status: string)

  /** A claim on a pass booked outside the site, awaiting verification. */
  datatype PassClaim = PassClaim(id: string, clerkUserId: string, email: string,
                                 passType: string, status: string)

  /** The claim form's fields. */
  datatype ClaimForm = ClaimForm(bookingId: string, passType: string)

  const EmptyClaimForm: ClaimForm := ClaimForm("", "Pixel Pass")

  /** The body posted to create a pass from a claim; it is approved at once. */
  datatype ClaimBody = ClaimBody(clerkUserId: string, email: string, fullName: string,
                                 passType: string, bookingId: string, status: string)

  /** How a claim submission ended. */
  datatype ClaimOutcome = SignInRequired | BookingIdRequired | Sent(body: ClaimBody)

  /** The passes shown: those whose status is exactly "Active", in order. */
  function ActivePasses(passes: seq<Pass>): (r: seq<Pass>)
    ensures forall i :: 0 <= i < |r| ==> r[i] in passes && r[i].status == "Active"
  {
    Filter(passes, (p: Pass) => p.status == "Active")
  }

  /** The claims shown: those whose status is exactly "pending", in order. */
  function PendingClaims(claims: seq<PassClaim>): (r: seq<PassClaim>)
    ensures forall i :: 0 <= i < |r| ==> r[i] in claims && r[i].status == "pending"
  {
    Filter(claims, (c: PassClaim) => c.status == "pending")
  }

  /** The claims left after cancelling `claimId`. */
  function WithoutClaim(claims: seq<PassClaim>, claimId: string): (r: seq<PassClaim>)
    ensures forall i :: 0 <= i < |r| ==> r[i] in claims && r[i].id != claimId
  {
    Filter(claims, (c: PassClaim) => c.id != claimId)
  }

  /** The status filters keep every matching entry, in the order fetched. */
  lemma {:induction false} StatusFiltersKeepOrder(passes: seq<Pass>, claims: seq<PassClaim>)
    ensures IsSubseq(ActivePasses(passes), passes)
    ensures IsSubseq(PendingClaims(claims), claims)
    ensures forall i :: 0 <= i < |passes| && passes[i].status == "Active" ==> passes[i] in ActivePasses(passes)
    ensures forall i :: 0 <= i < |claims| && claims[i].status == "pending" ==> claims[i] in PendingClaims(claims)
  {
    FilterIsSubseq(passes, (p: Pass) => p.status == "Active");
    FilterIsSubseq(claims, (c: PassClaim) => c.status == "pending");
    FilterKeeps(passes, (p: Pass) => p.status == "Active");
    FilterKeeps(claims, (c: PassClaim) => c.status == "pending");
  }

  /** Cancelling removes exactly the claims with that id and keeps the rest in
      order; cancelling an id that is not listed changes nothing. */
  lemma {:induction false} CancelRemovesExactly(claims: seq<PassClaim>, claimId: string)
    ensures IsSubseq(WithoutClaim(claims, claimId), claims)
    ensures forall i :: 0 <= i < |claims| && claims[i].id != claimId ==> claims[i] in WithoutClaim(claims, claimId)
    ensures (forall i :: 0 <= i < |claims| ==> claims[i].id != claimId) ==> WithoutClaim(claims, claimId) == claims
  {
    FilterIsSubseq(claims, (c: PassClaim) => c.id != claimId);
    FilterKeeps(claims, (c: PassClaim) => c.id != claimId);
    if forall i :: 0 <= i < |claims| ==> claims[i].id != claimId {
      FilterAll(claims, (c: PassClaim) => c.id != claimId);
    }
  }

  /** The sign-in and booking-id guard of a claim submission. */
  function ClaimGuard(userId: Option<string>, userEmail: string, fullName: string, form: ClaimForm): (r: ClaimOutcome)
    ensures !Truthy(userId) || userEmail == "" <==> r == SignInRequired
    ensures r == BookingIdRequired <==> Truthy(userId) && userEmail != "" && form.bookingId == ""
    ensures r.Sent? ==> r.body == ClaimBody(userId.value, userEmail, fullName, form.passType, form.bookingId, "Active")
  {
    if !Truthy(userId) || userEmail == "" then SignInRequired
    else if form.bookingId == "" then BookingIdRequired
    else Sent(ClaimBody(userId.value, userEmail, fullName, form.passType, form.bookingId, "Active"))
  }

  /** The dashboard's email is never empty, so only a missing user id asks to sign in. */
  lemma SignInGuardIsUserId(userId: Option<string>, clerkEmail: Option<string>, profileEmail: Option<string>,
                            fullName: string, form: ClaimForm)
    ensures (ClaimGuard(userId, UserEmail(clerkEmail, profileEmail), fullName, form) == SignInRequired)
              == !Truthy(userId)
  {
  }

  /** The state the dashboard keeps about passes and claims. */
  class Dashboard {
    var myPasses: seq<Pass>
    var isLoadingPasses: bool
    var pendingClaims: seq<PassClaim>
    var isSubmittingClaim: bool
    var showPassClaimModal: bool
    var claimForm: ClaimForm

    constructor()
      ensures myPasses == [] && isLoadingPasses && pendingClaims == []
      ensures !isSubmittingClaim && !showPassClaimModal && claimForm == EmptyClaimForm
    {
      myPasses := [];
      isLoadingPasses := true;
      pendingClaims := [];
      isSubmittingClaim := false;
      showPassClaimModal := false;
      claimForm := EmptyClaimForm;
    }

    /** Loading the user's passes; `response` is the list a successful fetch returned. */
    method FetchPasses(userId: Option<string>, response: Option<seq<Pass>>)
      modifies this`myPasses, this`isLoadingPasses
      ensures Truthy(userId) && response.Some? ==> myPasses == ActivePasses(response.value)
      ensures !(Truthy(userId) && response.Some?) ==> myPasses == old(myPasses)
      ensures !isLoadingPasses
    {
      if Truthy(userId) && response.Some? {
        myPasses := ActivePasses(response.value);
      }
      isLoadingPasses := false;
    }

    /** Loading the user's claims; `response` is the list a successful fetch returned. */
    method FetchPendingClaims(userId: Option<string>, response: Option<seq<PassClaim>>)
      modifies this`pendingClaims
      ensures Truthy(userId) && response.Some? ==> pendingClaims == PendingClaims(response.value)
      ensures !(Truthy(userId) && response.Some?) ==> pendingClaims == old(pendingClaims)
    {
      if Truthy(userId) && response.Some? {
        pendingClaims := PendingClaims(response.value);
      }
    }

    /** Submitting the claim form; `approved` is the server's `success` flag, `None`
        when the request failed. On approval the modal closes and the form is reset. */
    method SubmitPassClaim(userId: Option<string>, userEmail: string, fullName: string, approved: Option<bool>)
      returns (outcome: ClaimOutcome)
      modifies this`isSubmittingClaim, this`showPassClaimModal, this`claimForm
      ensures outcome == ClaimGuard(userId, userEmail, fullName, old(claimForm))
      ensures outcome.Sent? && approved == Some(true) ==> !showPassClaimModal && claimForm == EmptyClaimForm
      ensures !(outcome.Sent? && approved == Some(true)) ==>
                showPassClaimModal == old(showPassClaimModal) && claimForm == old(claimForm)
      ensures outcome.Sent? ==> !isSubmittingClaim
      ensures !outcome.Sent? ==> isSubmittingClaim == old(isSubmittingClaim)
    {
      outcome := ClaimGuard(userId, userEmail, fullName, claimForm);
      if outcome.Sent? {
        isSubmittingClaim := true;
        if approved == Some(true) {
          showPassClaimModal := false;
          claimForm := EmptyClaimForm;
        }
        isSubmittingClaim := false;
      }
    }

    /** Cancelling a claim; `approved` is the server's `success` flag, `None` when the request failed. */
    method CancelClaim(userId: Option<string>, claimId: string, approved: Option<bool>)
      modifies this`pendingClaims
      ensures Truthy(userId) && approved == Some(true) ==> pendingClaims == WithoutClaim(old(pendingClaims), claimId)
      ensures !(Truthy(userId) && approved == Some(true)) ==> pendingClaims == old(pendingClaims)
    {
      if Truthy(userId) && approved == Some(true) {
        pendingClaims := WithoutClaim(pendingClaims, claimId);
      }
    }
  }
}
