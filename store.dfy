/** The relational records of the marketplace, held in memory: one table per
    entity, each a map from row id to row, except refresh tokens (keyed by
    their unique token value) and payments (a sequence in creation order,
    because the read paths ask for the newest payment of a task). */
module Store {
  import opened Common

  datatype User = User(
    id: Id, email: string, password: string, name: string,
    role: Role, region: Region, createdAt: int)

  /** A stored refresh credential; the token value is its key in the table. */
  datatype RefreshRecord = RefreshRecord(userId: Id, expiresAt: int)

  datatype Task = Task(
    id: Id, title: string, description: string, suggestedBudget: int,
    currency: string, urgency: string, targetDate: int,
    status: TaskStatus, clientId: Id, createdAt: int)

  datatype Payment = Payment(
    taskId: Id, clientId: Id, amount: int, currency: string,
    provider: string, providerPaymentId: string, status: PaymentStatus)

  datatype TaskFile = TaskFile(
    id: Id, taskId: Id, fileName: string, fileKey: string,
    mimeType: string, size: int, data: seq<bv8>, createdAt: int)

  /** No two users share an email address. */
  ghost predicate UniqueEmails(users: map<Id, User>) {
    forall a, b :: a in users && b in users && users[a].email == users[b].email ==> a == b
  }

  /** No two payments share a provider payment id. */
  ghost predicate UniqueProviderIds(ps: seq<Payment>) {
    forall i, j :: 0 <= i < |ps| && 0 <= j < |ps| && ps[i].providerPaymentId == ps[j].providerPaymentId ==> i == j
  }

  /** No two stored files share a storage key. */
  ghost predicate UniqueFileKeys(files: map<Id, TaskFile>) {
    forall a, b :: a in files && b in files && files[a].fileKey == files[b].fileKey ==> a == b
  }

  /** Every user row carries its own key as its id. */
  ghost predicate UsersKeyed(users: map<Id, User>) {
    forall k :: k in users ==> users[k].id == k
  }

  /** Every row of a map-keyed table carries its own key as its id. */
  ghost predicate KeysMatch(users: map<Id, User>, tasks: map<Id, Task>, files: map<Id, TaskFile>) {
    && UsersKeyed(users)
    && (forall k :: k in tasks ==> tasks[k].id == k)
    && (forall k :: k in files ==> files[k].id == k)
  }

  /** The payments of one task, in creation order; how often each is listed
      is stated by `PaymentsOfCounts`. */
  function PaymentsOf(ps: seq<Payment>, taskId: Id): (r: seq<Payment>)
    ensures |r| <= |ps|
    ensures forall p :: p in r <==> p in ps && p.taskId == taskId
  {
    if |ps| == 0 then []
    else PaymentsOf(ps[..|ps| - 1], taskId)
         + (if ps[|ps| - 1].taskId == taskId then [ps[|ps| - 1]] else [])
  }

  /** Every payment of the task is listed as often as it is stored, and no
      other payment is listed. */
  lemma {:induction false} PaymentsOfCounts(ps: seq<Payment>, taskId: Id)
    ensures forall p :: multiset(PaymentsOf(ps, taskId))[p]
                        == if p.taskId == taskId then multiset(ps)[p] else 0
  {
    if |ps| > 0 {
      var n := |ps| - 1;
      assert ps == ps[..n] + [ps[n]];
      PaymentsOfCounts(ps[..n], taskId);
    }
  }

  /** Position i holds the newest payment of the task. */
  ghost predicate IsNewestAt(ps: seq<Payment>, i: nat, taskId: Id) {
    i < |ps| && ps[i].taskId == taskId && forall j :: i < j < |ps| ==> ps[j].taskId != taskId
  }

  /** No payment belongs to the task. */
  ghost predicate NoPaymentFor(ps: seq<Payment>, taskId: Id) {
    forall i :: 0 <= i < |ps| ==> ps[i].taskId != taskId
  }

  /** p is the newest payment of the task. */
  ghost predicate NewestIs(ps: seq<Payment>, taskId: Id, p: Payment) {
    exists i: nat :: IsNewestAt(ps, i, taskId) && ps[i] == p
  }

  /** The most recently created payment of a task, if any: the result of
      "payments ordered by creation time descending, take one". What it
      finds is stated by `NewestPaymentIsNewest`. */
  function NewestPayment(ps: seq<Payment>, taskId: Id): (r: Option<Payment>)
    ensures r.Some? ==> r.value in ps && r.value.taskId == taskId
  {
    if |ps| == 0 then None
    else if ps[|ps| - 1].taskId == taskId then Some(ps[|ps| - 1])
    else NewestPayment(ps[..|ps| - 1], taskId)
  }

  /** NewestPayment finds nothing exactly when the task has no payment, and
      otherwise a payment of the task that no later payment of the task
      follows. */
  lemma {:induction false} NewestPaymentIsNewest(ps: seq<Payment>, taskId: Id)
    ensures NewestPayment(ps, taskId).None? <==> NoPaymentFor(ps, taskId)
    ensures NewestPayment(ps, taskId).Some? ==> NewestIs(ps, taskId, NewestPayment(ps, taskId).value)
  {
    var n := |ps| - 1;
    if |ps| == 0 {
    } else if ps[n].taskId == taskId {
      assert IsNewestAt(ps, n, taskId);
    } else {
      NewestPaymentIsNewest(ps[..n], taskId);
      PrefixOfOtherTask(ps, NewestPayment(ps[..n], taskId), taskId);
    }
  }

  /** When the last payment belongs to another task, the task has the same
      payments and the same newest payment as in all but the last position. */
  lemma PrefixOfOtherTask(ps: seq<Payment>, r: Option<Payment>, taskId: Id)
    requires |ps| > 0 && ps[|ps| - 1].taskId != taskId
    ensures NoPaymentFor(ps, taskId) <==> NoPaymentFor(ps[..|ps| - 1], taskId)
    ensures r.Some? && NewestIs(ps[..|ps| - 1], taskId, r.value) ==> NewestIs(ps, taskId, r.value)
  {
    var prefix := ps[..|ps| - 1];
    if NoPaymentFor(prefix, taskId) {
      forall i | 0 <= i < |ps|
        ensures ps[i].taskId != taskId
      {
        if i < |prefix| {
          assert ps[i] == prefix[i];
        }
      }
    }
    if r.Some? && NewestIs(prefix, taskId, r.value) {
      var i: nat :| IsNewestAt(prefix, i, taskId) && prefix[i] == r.value;
      assert IsNewestAt(ps, i, taskId);
    }
  }

  /** The position of the payment with the given provider payment id. */
  function IndexOfPayment(ps: seq<Payment>, providerPaymentId: string): (r: Option<nat>)
    ensures r.None? <==> forall i :: 0 <= i < |ps| ==> ps[i].providerPaymentId != providerPaymentId
    ensures r.Some? ==> r.value < |ps| && ps[r.value].providerPaymentId == providerPaymentId
  {
    if |ps| == 0 then None
    else if ps[|ps| - 1].providerPaymentId == providerPaymentId then Some(|ps| - 1)
    else IndexOfPayment(ps[..|ps| - 1], providerPaymentId)
  }

  /** The store. Each service method receives it and changes only the tables
      its `modifies` clause names. */
  class Database {
    var users: map<Id, User>
    var refreshTokens: map<string, RefreshRecord>
    var tasks: map<Id, Task>
    var payments: seq<Payment>
    var taskFiles: map<Id, TaskFile>

    /** The unique constraints of the schema. */
    ghost predicate Valid()
      reads this
    {
      && UniqueEmails(users)
      && UniqueProviderIds(payments)
      && UniqueFileKeys(taskFiles)
      && KeysMatch(users, tasks, taskFiles)
    }

    constructor ()
      ensures Valid()
      ensures users == map[] && refreshTokens == map[] && tasks == map[]
      ensures payments == [] && taskFiles == map[]
    {
      users, refreshTokens, tasks, payments, taskFiles := map[], map[], map[], [], map[];
    }
  }
}
