/** The `validate(schema)` middleware: the request body is parsed with a Zod
    schema; a parsed body replaces the original and the chain continues,
    a failed parse answers 400 "Validation failed" with one message per
    issue path. */
module ValidateMiddleware {
  import opened Wrappers
  import opened Strings

  /** One step of a Zod issue path: an object key or an array index. */
  datatype PathSegment = Key(name: string) | Index(n: nat)

  /** A Zod issue: where in the body, and what is wrong there. */
  datatype Issue = Issue(path: seq<PathSegment>, message: string)

  /** Why `schema.parse` threw: a `ZodError` (its `errors` list is always
      present, an array being truthy even when empty), or some other error
      without an `errors` list, with its optional `message`. */
  datatype Failure = Invalid(issues: seq<Issue>) | Crashed(message: Option<string>)

  /** The arguments `sendError` is given: status, message, the optional
      error text and the optional field → message dictionary. */
  datatype ErrorReply = ErrorReply(status: nat, message: string, error: Option<string>, errors: Option<map<string, string>>)

  const ValidationFailed: string := "Validation failed"

  /** A path step as `Array.prototype.join` renders it. */
  function SegmentText(s: PathSegment): string {
    match s
    case Key(name) => name
    case Index(n) => NatToString(n)
  }

  /** `err.path.join('.')` */
  function PathKey(path: seq<PathSegment>): (r: string)
    ensures path == [] ==> r == ""
    ensures |path| == 1 && path[0].Key? ==> r == path[0].name
  {
    if path == [] then ""
    else if |path| == 1 then SegmentText(path[0])
    else SegmentText(path[0]) + "." + PathKey(path[1..])
  }

  /** Joining a longer path joins the keys of its two parts with a dot, so
      a nested field's key begins with the key of its parent. */
  lemma {:induction false} PathKeyAppend(a: seq<PathSegment>, b: seq<PathSegment>)
    requires a != [] && b != []
    ensures PathKey(a + b) == PathKey(a) + "." + PathKey(b)
  {
    if |a| == 1 {
      assert (a + b)[1..] == b;
    } else {
      assert (a + b)[1..] == a[1..] + b;
      PathKeyAppend(a[1..], b);
    }
  }

  /** The dictionary key of issue `i`. */
  function KeyAt(issues: seq<Issue>, i: int): string
    requires 0 <= i < |issues|
  {
    PathKey(issues[i].path)
  }

  /** No issue after position `i`, up to position `n`, has the same
      dictionary key as issue `i`. */
  predicate LastBefore(issues: seq<Issue>, i: int, n: int)
    requires 0 <= i < n <= |issues|
  {
    forall j :: i < j < n ==> KeyAt(issues, j) != KeyAt(issues, i)
  }

  /** No later issue has the same dictionary key as issue `i`. */
  predicate LastForKey(issues: seq<Issue>, i: int)
    requires 0 <= i < |issues|
  {
    LastBefore(issues, i, |issues|)
  }

  /** The `forEach` that fills the `errors` dictionary: there is a key for
      exactly the paths that occur, and each key holds the message of the
      last issue with that path (a later assignment overwrites an earlier
      one). */
  method CollectErrors(issues: seq<Issue>) returns (errors: map<string, string>)
    ensures forall k :: k in errors <==> exists i :: 0 <= i < |issues| && KeyAt(issues, i) == k
    ensures forall i :: 0 <= i < |issues| && LastForKey(issues, i) ==>
              errors[KeyAt(issues, i)] == issues[i].message
  {
    errors := map[];
    var n := 0;
    while n < |issues|
      invariant 0 <= n <= |issues|
      invariant forall k :: k in errors <==> exists i :: 0 <= i < n && KeyAt(issues, i) == k
      invariant forall i :: 0 <= i < n && LastBefore(issues, i, n) ==>
                  KeyAt(issues, i) in errors && errors[KeyAt(issues, i)] == issues[i].message
    {
      var key := KeyAt(issues, n);
      errors := errors[key := issues[n].message];
      forall k | k in errors ensures exists i :: 0 <= i < n + 1 && KeyAt(issues, i) == k {
        if k == key {
          assert KeyAt(issues, n) == k;
        }
      }
      forall i | 0 <= i < n + 1 && LastBefore(issues, i, n + 1)
        ensures KeyAt(issues, i) in errors && errors[KeyAt(issues, i)] == issues[i].message
      {
        if i < n {
          assert LastBefore(issues, i, n);
          assert KeyAt(issues, i) != key;
        }
      }
      n := n + 1;
    }
  }

  /** The request seen by the middleware: its body, how often `next` was
      called and what was sent back. */
  class Exchange<T> {
    var body: T
    var nextCalls: nat
    var reply: Option<ErrorReply>

    constructor (body: T)
      ensures this.body == body && nextCalls == 0 && reply == None
    {
      this.body := body;
      nextCalls := 0;
      reply := None;
    }

    /** `validate(schema)(req, res, next)`. On success the parsed value
        replaces the body and `next` runs once; on failure the body stays,
        `next` is not called and the 400 reply carries the issues (or the
        error message when the failure is not a Zod error). */
    method Validate(schema: T -> Result<T, Failure>)
      modifies this
      ensures schema(old(body)).Ok? ==>
                body == schema(old(body)).value && nextCalls == old(nextCalls) + 1 && reply == old(reply)
      ensures schema(old(body)).Err? ==>
                body == old(body) && nextCalls == old(nextCalls) && reply.Some? &&
                reply.value.status == 400 && reply.value.message == ValidationFailed
      ensures schema(old(body)).Err? && schema(old(body)).error.Invalid? ==>
                var issues := schema(old(body)).error.issues;
                reply.value.error == None && reply.value.errors.Some? &&
                (forall k :: k in reply.value.errors.value <==> exists i :: 0 <= i < |issues| && KeyAt(issues, i) == k) &&
                (forall i :: 0 <= i < |issues| && LastForKey(issues, i) ==>
                   reply.value.errors.value[KeyAt(issues, i)] == issues[i].message)
      ensures schema(old(body)).Err? && schema(old(body)).error.Crashed? ==>
                reply == Some(ErrorReply(400, ValidationFailed, schema(old(body)).error.message, None))
    {
      var parsed := schema(body);
      match parsed
      case Ok(validated) =>
        body := validated;
        nextCalls := nextCalls + 1;
      case Err(Invalid(issues)) =>
        var errors := CollectErrors(issues);
        reply := Some(ErrorReply(400, ValidationFailed, None, Some(errors)));
      case Err(Crashed(message)) =>
        reply := Some(ErrorReply(400, ValidationFailed, message, None));
    }
  }
}
