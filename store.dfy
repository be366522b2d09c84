/** The three tables the backend keeps (users, passes, transactions) and the
    database object the route handlers update. Row ids and the identifiers
    the handlers generate are inputs of the handlers. */
module Store {
  import opened Wrappers

  type RowId = string

  /** The status code and message of the response envelope
      (`sendSuccess`/`sendError`). */
  datatype Reply = Reply(code: nat, message: string)

  /** Stands for the message of an error raised by the database layer
      (a unique-constraint violation or a failed query), whose text is not
      modelled. */
  const DbErrorMessage: string := "database error"

  /** A value in a transaction's JSON metadata. `Time` stands for an ISO
      timestamp whose value is not modelled. */
  datatype Json = Str(s: string) | Flag(b: bool) | Time

  type Meta = map<string, Json>

  datatype User = User(
    clerkUserId: Option<string>,
    email: string,
    fullName: Option<string>,
    firstName: Option<string>,
    lastName: Option<string>,
    imageUrl: Option<string>,
    phone: Option<string>,
    college: Option<string>,
    yearOfStudy: Option<string>,
    rollNumber: Option<string>,
    branch: Option<string>)

  datatype PassStatus = Active | Cancelled | Refunded

  datatype Pass = Pass(
    userId: RowId,
    passType: Option<string>,
    passId: string,
    price: int,
    status: PassStatus,
    hasWorkshopAccess: bool)

  /** The statuses the payment routes write. */
  datatype TxStatus = Pending | Completed | Failed | Cancelled | RefundPending

  datatype Transaction = Transaction(
    userId: RowId,
    invoiceNumber: string,
    transactionNumber: string,
    orderId: Option<string>,
    ticketId: Option<string>,
    paymentId: Option<string>,
    amount: int,
    currency: string,
    status: TxStatus,
    paymentMethod: string,
    passRef: Option<RowId>,
    metadata: Meta)

  /** The whole database. `txOrder` lists the transaction rows in creation
      order (what `createdAt` orders by). */
  datatype State = State(
    users: map<RowId, User>,
    passes: map<RowId, Pass>,
    transactions: map<RowId, Transaction>,
    txOrder: seq<RowId>)

  /** The unique constraints on users: `clerkUserId` (where set) and `email`. */
  ghost predicate UniqueUsers(users: map<RowId, User>) {
    forall a, b :: a in users && b in users && a != b ==>
      users[a].email != users[b].email &&
      (users[a].clerkUserId.Some? ==> users[a].clerkUserId != users[b].clerkUserId)
  }

  ghost predicate TxOrderMatches(transactions: map<RowId, Transaction>, txOrder: seq<RowId>) {
    && (forall i, j :: 0 <= i < j < |txOrder| ==> txOrder[i] != txOrder[j])
    && (forall id :: id in transactions <==> id in txOrder)
  }

  ghost predicate Consistent(s: State) {
    UniqueUsers(s.users) && TxOrderMatches(s.transactions, s.txOrder)
  }

  /** Rewriting one existing transaction keeps the state consistent. */
  lemma TxUpdateConsistent(s: State, id: RowId, t: Transaction)
    requires Consistent(s) && id in s.transactions
    ensures Consistent(s.(transactions := s.transactions[id := t]))
  {
    assert s.transactions[id := t].Keys == s.transactions.Keys;
  }

  /** `findUnique({ where: { clerkUserId } })`. */
  ghost function UserByClerkId(users: map<RowId, User>, clerkUserId: string): (r: Option<RowId>)
    requires UniqueUsers(users)
    ensures r.Some? ==> r.value in users && users[r.value].clerkUserId == Some(clerkUserId)
    ensures r.None? ==> forall id :: id in users ==> users[id].clerkUserId != Some(clerkUserId)
  {
    if exists id :: id in users && users[id].clerkUserId == Some(clerkUserId) then
      var id :| id in users && users[id].clerkUserId == Some(clerkUserId); Some(id)
    else None
  }

  /** `findUnique({ where: { email } })`. */
  ghost function UserByEmail(users: map<RowId, User>, email: string): (r: Option<RowId>)
    requires UniqueUsers(users)
    ensures r.Some? ==> r.value in users && users[r.value].email == email
    ensures r.None? ==> forall id :: id in users ==> users[id].email != email
  {
    if exists id :: id in users && users[id].email == email then
      var id :| id in users && users[id].email == email; Some(id)
    else None
  }

  lemma UserByClerkIdUnique(users: map<RowId, User>, clerkUserId: string, id: RowId)
    requires UniqueUsers(users)
    requires id in users && users[id].clerkUserId == Some(clerkUserId)
    ensures UserByClerkId(users, clerkUserId) == Some(id)
  {
  }

  lemma UserByEmailUnique(users: map<RowId, User>, email: string, id: RowId)
    requires UniqueUsers(users)
    requires id in users && users[id].email == email
    ensures UserByEmail(users, email) == Some(id)
  {
  }

  /** `pass.findFirst({ where: { userId } })` finds a row. */
  ghost predicate HasPass(passes: map<RowId, Pass>, userId: RowId) {
    exists p :: p in passes && passes[p].userId == userId
  }

  /** The pass rows a user owns. */
  ghost function PassesOf(passes: map<RowId, Pass>, userId: RowId): set<RowId> {
    set p | p in passes && passes[p].userId == userId
  }

  /** When at most one pass row is added, and only for a user who had none,
      every owner keeps exactly their passes and every other user gains at
      most that row. */
  lemma AtMostOneNewPass(before: map<RowId, Pass>, after: map<RowId, Pass>, added: RowId)
    requires after.Keys <= before.Keys + {added}
    requires forall p :: p in before ==> p in after && after[p] == before[p]
    requires added in after ==> !HasPass(before, after[added].userId)
    ensures forall u :: HasPass(before, u) ==> PassesOf(after, u) == PassesOf(before, u)
    ensures forall u :: !HasPass(before, u) ==> PassesOf(after, u) <= {added}
  {
    forall u | HasPass(before, u)
      ensures PassesOf(after, u) == PassesOf(before, u)
    {
      assert added in after ==> after[added].userId != u;
    }
  }

  /** A field of a Prisma `update`: an `undefined` value leaves the column
      as it was. */
  function Keep<T>(value: Option<T>, current: Option<T>): (r: Option<T>)
    ensures value.Some? ==> r == value
    ensures value.None? ==> r == current
  {
    if value.Some? then value else current
  }

  /** Matching a transaction against `where: { konfhubOrderId }`; an absent
      filter value (`undefined`) is dropped by the query builder and matches
      every row. */
  predicate OrderMatches(t: Transaction, orderId: Option<string>) {
    orderId.None? || t.orderId == orderId
  }

  /** `transaction.findFirst({ where: { konfhubOrderId } })`, taking the
      earliest-created matching row. */
  function FirstTx(transactions: map<RowId, Transaction>, order: seq<RowId>, orderId: Option<string>): (r: Option<RowId>)
    ensures r.Some? ==> r.value in order && r.value in transactions && OrderMatches(transactions[r.value], orderId)
    ensures r.None? ==> forall i :: 0 <= i < |order| && order[i] in transactions ==> !OrderMatches(transactions[order[i]], orderId)
  {
    if order == [] then None
    else if order[0] in transactions && OrderMatches(transactions[order[0]], orderId) then Some(order[0])
    else FirstTx(transactions, order[1..], orderId)
  }

  /** The row found is the earliest-created row that matches. */
  lemma {:induction false} FirstTxIsFirstMatch(transactions: map<RowId, Transaction>, order: seq<RowId>, orderId: Option<string>, k: int)
    requires 0 <= k < |order| && order[k] in transactions && OrderMatches(transactions[order[k]], orderId)
    requires forall j :: 0 <= j < k && order[j] in transactions ==> !OrderMatches(transactions[order[j]], orderId)
    ensures FirstTx(transactions, order, orderId) == Some(order[k])
  {
    if k > 0 {
      FirstTxIsFirstMatch(transactions, order[1..], orderId, k - 1);
    }
  }

  /** When exactly one row carries the gateway order id, every listing of
      the rows finds that row: with unique order ids the choice among
      matching rows does not arise. */
  lemma FirstTxUnique(transactions: map<RowId, Transaction>, order: seq<RowId>, orderId: string, id: RowId)
    requires id in transactions && transactions[id].orderId == Some(orderId) && id in order
    requires forall other :: other in transactions && transactions[other].orderId == Some(orderId) ==> other == id
    ensures FirstTx(transactions, order, Some(orderId)) == Some(id)
  {
    var k :| 0 <= k < |order| && order[k] == id;
    assert OrderMatches(transactions[order[k]], Some(orderId));
  }

  /** Nothing is found exactly when no row matches. */
  lemma FirstTxNone(s: State, orderId: Option<string>)
    requires Consistent(s)
    ensures FirstTx(s.transactions, s.txOrder, orderId).None? <==>
            forall id :: id in s.transactions ==> !OrderMatches(s.transactions[id], orderId)
  {
    if FirstTx(s.transactions, s.txOrder, orderId).None? {
      forall id | id in s.transactions
        ensures !OrderMatches(s.transactions[id], orderId)
      {
        var i :| 0 <= i < |s.txOrder| && s.txOrder[i] == id;
      }
    }
  }

  /** Changing rows without changing which ones match leaves the answer of
      `FirstTx` as it was. */
  lemma {:induction false} FirstTxStable(t1: map<RowId, Transaction>, t2: map<RowId, Transaction>, order: seq<RowId>, orderId: Option<string>)
    requires t1.Keys == t2.Keys
    requires forall id :: id in t1 ==> (OrderMatches(t1[id], orderId) <==> OrderMatches(t2[id], orderId))
    ensures FirstTx(t1, order, orderId) == FirstTx(t2, order, orderId)
  {
    if order != [] {
      FirstTxStable(t1, t2, order[1..], orderId);
    }
  }

  /** The database the handlers share. */
  class Database {
    var users: map<RowId, User>
    var passes: map<RowId, Pass>
    var transactions: map<RowId, Transaction>
    var txOrder: seq<RowId>

    function Snapshot(): State
      reads this
    {
      State(users, passes, transactions, txOrder)
    }

    ghost predicate Valid()
      reads this
    {
      Consistent(Snapshot())
    }

    constructor ()
      ensures Valid()
      ensures Snapshot() == State(map[], map[], map[], [])
    {
      users, passes, transactions, txOrder := map[], map[], map[], [];
    }

    /** `user.findUnique({ where: { clerkUserId } })`. */
    method FindUserByClerkId(clerkUserId: string) returns (r: Option<RowId>)
      requires Valid()
      ensures r == UserByClerkId(users, clerkUserId)
    {
      if exists id :: id in users && users[id].clerkUserId == Some(clerkUserId) {
        var id :| id in users && users[id].clerkUserId == Some(clerkUserId);
        UserByClerkIdUnique(users, clerkUserId, id);
        r := Some(id);
      } else {
        r := None;
      }
    }

    /** `user.findUnique({ where: { email } })`. */
    method FindUserByEmail(email: string) returns (r: Option<RowId>)
      requires Valid()
      ensures r == UserByEmail(users, email)
    {
      if exists id :: id in users && users[id].email == email {
        var id :| id in users && users[id].email == email;
        UserByEmailUnique(users, email, id);
        r := Some(id);
      } else {
        r := None;
      }
    }

    /** `pass.findFirst({ where: { userId } })` found a row. */
    method UserHasPass(userId: RowId) returns (b: bool)
      ensures b == HasPass(passes, userId)
    {
      b := exists p :: p in passes && passes[p].userId == userId;
    }
  }
}
