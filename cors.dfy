/** The CORS origin policy of the API (`getCorsOrigin`): chosen once from
    NODE_ENV, then consulted for every request's `Origin` header. */
module Cors {
  import opened Wrappers
  import opened Strings

  /** What `getCorsOrigin` returns: a checking callback for production or
      development, otherwise the wildcard '*'. */
  datatype Policy = ProductionCheck | DevelopmentCheck | Wildcard

  /** The answer handed to the `cors` callback: an error, if any, and
      whether the origin is allowed. */
  datatype Verdict = Verdict(error: Option<string>, allow: bool)

  const NotAllowed: string := "Not allowed by CORS"
  const VercelSuffix: string := ".vercel.app"

  /** The local front ends admitted in development. */
  const DevOrigins: seq<string> :=
    ["http://localhost:5173", "http://localhost:5174", "http://localhost:3000", "http://localhost:5000"]

  /** `getCorsOrigin()` for the given NODE_ENV. */
  function PolicyFor(nodeEnv: Option<string>): (r: Policy)
    ensures r == ProductionCheck <==> nodeEnv == Some("production")
    ensures r == DevelopmentCheck <==> nodeEnv == Some("development")
  {
    if nodeEnv == Some("production") then ProductionCheck
    else if nodeEnv == Some("development") then DevelopmentCheck
    else Wildcard
  }

  /** The production callback: a request without an origin, a Vercel
      deployment or the configured front end (FRONTEND_URL, read when the
      request arrives) is allowed; anything else is refused with an error. */
  function ProductionVerdict(origin: Option<string>, frontendUrl: Option<string>): (r: Verdict)
    ensures r.allow <==> !Truthy(origin) || EndsWith(origin.value, VercelSuffix) || (Truthy(frontendUrl) && origin == frontendUrl)
    ensures r.allow <==> r.error == None
    ensures !r.allow ==> r.error == Some(NotAllowed)
  {
    if !Truthy(origin) then Verdict(None, true)
    else if EndsWith(origin.value, VercelSuffix) then Verdict(None, true)
    else if Truthy(frontendUrl) && origin.value == frontendUrl.value then Verdict(None, true)
    else Verdict(Some(NotAllowed), false)
  }

  /** The development callback: no origin, a local front end or a Vercel
      deployment is allowed; anything else is refused without an error. */
  function DevelopmentVerdict(origin: Option<string>): (r: Verdict)
    ensures r.error == None
    ensures r.allow <==> !Truthy(origin) || origin.value in DevOrigins || EndsWith(origin.value, VercelSuffix)
  {
    if !Truthy(origin) || origin.value in DevOrigins || EndsWith(origin.value, VercelSuffix) then Verdict(None, true)
    else Verdict(None, false)
  }

  /** The answer for one request under a policy; the wildcard admits every
      origin. */
  function Check(policy: Policy, origin: Option<string>, frontendUrl: Option<string>): (r: Verdict)
    ensures policy == Wildcard ==> r == Verdict(None, true)
  {
    match policy
    case ProductionCheck => ProductionVerdict(origin, frontendUrl)
    case DevelopmentCheck => DevelopmentVerdict(origin)
    case Wildcard => Verdict(None, true)
  }

  /** No local front end is a Vercel deployment. */
  lemma DevOriginsAreLocal()
    ensures forall i :: 0 <= i < |DevOrigins| ==> !EndsWith(DevOrigins[i], VercelSuffix)
  {
    forall i | 0 <= i < |DevOrigins| ensures !EndsWith(DevOrigins[i], VercelSuffix) {
      var o := DevOrigins[i];
      assert o[|o| - 1] != VercelSuffix[|VercelSuffix| - 1];
    }
  }

  /** Production refuses the local front ends unless one of them is the
      configured FRONTEND_URL. */
  lemma ProductionRefusesLocalhost(origin: string, frontendUrl: Option<string>)
    requires origin in DevOrigins
    requires frontendUrl != Some(origin)
    ensures Check(PolicyFor(Some("production")), Some(origin), frontendUrl) == Verdict(Some(NotAllowed), false)
  {
    DevOriginsAreLocal();
  }

  /** Whatever production allows, development allows too, except a front
      end admitted only because it is FRONTEND_URL. */
  lemma DevelopmentIsLaxer(origin: Option<string>, frontendUrl: Option<string>)
    requires ProductionVerdict(origin, frontendUrl).allow
    requires !(Truthy(frontendUrl) && origin == frontendUrl)
    ensures DevelopmentVerdict(origin).allow
  {
  }

  /** In either checking mode a request without an origin is allowed, and a
      Vercel deployment is allowed. */
  lemma NoOriginAndVercelAlwaysAllowed(nodeEnv: Option<string>, origin: Option<string>, frontendUrl: Option<string>)
    requires !Truthy(origin) || EndsWith(origin.value, VercelSuffix)
    ensures Check(PolicyFor(nodeEnv), origin, frontendUrl) == Verdict(None, true)
  {
  }
}
