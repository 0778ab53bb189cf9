/** Manual UPI payment records: creating a payment intent adds a PENDING
    payment for a task; manual verification flips one payment to SUCCESS
    behind an ordered chain of checks. The third-party gateways are disabled. */
module PaymentService {
  import opened Common
  import opened Store
  import TaskService

  /** The fixed receiving identity of every UPI link. */
  const UPI_ID: string := "kayushtiwari26@oksbi"
  const UPI_NAME: string := "Ayush Tiwari"
  const INTENT_MESSAGE: string :=
    "Please scan the QR code or use the UPI ID to make the payment. After payment, contact admin with the transaction ID for verification."

  /** The string conversions the link needs, left uninterpreted: URI
      component encoding and the decimal rendering of an amount. */
  datatype Formatting = Formatting(encodeUriComponent: string -> string, numberToString: int -> string)

  /** A generated payment id: "pay_", a time stamp, "_", a random part. */
  function PaymentIdOf(stamp: string, random: string): (id: string)
    ensures |id| >= 4 && id[..4] == "pay_"
  {
    "pay_" + stamp + "_" + random
  }

  /** `part` occurs in `s` at position k. */
  predicate OccursAt(s: string, k: nat, part: string) {
    k + |part| <= |s| && s[k..k + |part|] == part
  }

  const UPI_LINK_HEAD: string := "upi://pay?pa=" + UPI_ID + "&pn="

  /** The UPI deep link for paying a task. It names the fixed payee and is
      always in rupees, whatever the task's currency. */
  function UpiLink(task: Task, fmt: Formatting): (link: string)
    ensures |link| >= |UPI_LINK_HEAD| && link[..|UPI_LINK_HEAD|] == UPI_LINK_HEAD
    ensures exists k :: OccursAt(link, k, "&cu=INR&tn=")
  {
    var middle := fmt.encodeUriComponent(UPI_NAME) + "&am=" + fmt.numberToString(task.suggestedBudget);
    var tail := fmt.encodeUriComponent("Payment for Task: " + task.title);
    var link := UPI_LINK_HEAD + middle + "&cu=INR&tn=" + tail;
    assert OccursAt(link, |UPI_LINK_HEAD| + |middle|, "&cu=INR&tn=");
    link
  }

  /** The link does not depend on the task's currency. */
  lemma UpiLinkIgnoresCurrency(task: Task, currency: string, fmt: Formatting)
    ensures UpiLink(task.(currency := currency), fmt) == UpiLink(task, fmt)
  {
  }

  datatype PaymentIntent = PaymentIntent(
    provider: string, paymentId: string, upiId: string, upiName: string,
    upiLink: string, amount: int, currency: string, message: string)

  /** The outcome of creating an intent: the result and the new payment table. */
  datatype IntentUpdate = IntentUpdate(result: Result<PaymentIntent>, payments: seq<Payment>)

  predicate ProviderIdUsed(ps: seq<Payment>, providerPaymentId: string) {
    exists i :: 0 <= i < |ps| && ps[i].providerPaymentId == providerPaymentId
  }

  /** Creating a payment intent: an empty task id, then an unknown user,
      then an unknown task are each a BadRequest, in that order; a payment id
      already used violates the unique constraint; otherwise one PENDING upi
      payment for the task's budget and currency, owned by the caller, is
      appended and its id returned. */
  function Intent(users: map<Id, User>, tasks: map<Id, Task>, ps: seq<Payment>,
                  userId: Id, taskId: Id, paymentId: string, fmt: Formatting): (u: IntentUpdate)
    ensures taskId == "" ==> u == IntentUpdate(Err(BadRequest("taskId is required")), ps)
    ensures taskId != "" && userId !in users ==> u == IntentUpdate(Err(BadRequest("User not found")), ps)
    ensures taskId != "" && userId in users && taskId !in tasks ==>
              u == IntentUpdate(Err(BadRequest("Task not found")), ps)
    ensures taskId != "" && userId in users && taskId in tasks && ProviderIdUsed(ps, paymentId) ==>
              u == IntentUpdate(Err(StoreError(UNIQUE_VIOLATION)), ps)
    ensures u.result.Err? ==> u.payments == ps
    ensures u.result.Ok? <==> taskId != "" && userId in users && taskId in tasks
                              && !ProviderIdUsed(ps, paymentId)
    ensures u.result.Ok? ==>
              var t := tasks[taskId];
              && u.payments == ps + [Payment(taskId, userId, t.suggestedBudget, t.currency, "upi", paymentId, PENDING)]
              && u.result.value == PaymentIntent("upi", paymentId, UPI_ID, UPI_NAME, UpiLink(t, fmt),
                                                 t.suggestedBudget, t.currency, INTENT_MESSAGE)
  {
    if taskId == "" then IntentUpdate(Err(BadRequest("taskId is required")), ps)
    else if userId !in users then IntentUpdate(Err(BadRequest("User not found")), ps)
    else if taskId !in tasks then IntentUpdate(Err(BadRequest("Task not found")), ps)
    else if ProviderIdUsed(ps, paymentId) then IntentUpdate(Err(StoreError(UNIQUE_VIOLATION)), ps)
    else
      var t := tasks[taskId];
      var payment := Payment(taskId, userId, t.suggestedBudget, t.currency, "upi", paymentId, PENDING);
      IntentUpdate(Ok(PaymentIntent("upi", paymentId, UPI_ID, UPI_NAME, UpiLink(t, fmt),
                                    t.suggestedBudget, t.currency, INTENT_MESSAGE)),
                   ps + [payment])
  }

  /** The length of a string as JavaScript measures it: in UTF-16 code
      units, two for a character outside the Basic Multilingual Plane. */
  function Utf16Length(s: string): (n: nat)
    ensures |s| <= n <= 2 * |s|
  {
    if |s| == 0 then 0
    else Utf16Length(s[..|s| - 1]) + (if s[|s| - 1] as int >= 0x1_0000 then 2 else 1)
  }

  /** A string of Basic Multilingual Plane characters has as many code units
      as characters. */
  lemma {:induction false} Utf16LengthOfBmp(s: string)
    requires forall i :: 0 <= i < |s| ==> s[i] as int < 0x1_0000
    ensures Utf16Length(s) == |s|
  {
    if |s| > 0 {
      Utf16LengthOfBmp(s[..|s| - 1]);
    }
  }

  /** The placeholder acceptance of a bank transaction id: one of three demo
      values, or anything of at least ten UTF-16 code units. */
  predicate IsValidTransaction(transactionId: string): (ok: bool)
    ensures ok ==> transactionId != "" && Utf16Length(transactionId) >= 6
  {
    transactionId in ["TEST123", "DEMO456", "DEV789"] || Utf16Length(transactionId) >= 10
  }

  /** The demo ids are accepted, and so is every id of ten or more code
      units; nothing shorter than five characters is, nor any other id of
      fewer than ten Basic Multilingual Plane characters. */
  lemma TransactionAcceptance(transactionId: string)
    ensures IsValidTransaction("TEST123") && IsValidTransaction("DEMO456") && IsValidTransaction("DEV789")
    ensures Utf16Length(transactionId) >= 10 ==> IsValidTransaction(transactionId)
    ensures |transactionId| < 5 ==> !IsValidTransaction(transactionId)
    ensures (forall i :: 0 <= i < |transactionId| ==> transactionId[i] as int < 0x1_0000)
            && |transactionId| < 10 && transactionId !in ["TEST123", "DEMO456", "DEV789"]
            ==> !IsValidTransaction(transactionId)
  {
    if forall i :: 0 <= i < |transactionId| ==> transactionId[i] as int < 0x1_0000 {
      Utf16LengthOfBmp(transactionId);
    }
  }

  /** Nine digits are refused, while five emoji, ten code units, are
      accepted. */
  lemma TransactionExamples()
    ensures !IsValidTransaction("123456789")
    ensures IsValidTransaction("\U{1F600}\U{1F600}\U{1F600}\U{1F600}\U{1F600}")
  {
    Utf16LengthOfBmp("123456789");
    var e := "\U{1F600}";
    assert Utf16Length(e) == 2 by { assert e[..0] == ""; }
    assert Utf16Length(e + e) == 4 by { assert (e + e)[..1] == e; }
    assert Utf16Length(e + e + e) == 6 by { assert (e + e + e)[..2] == e + e; }
    assert Utf16Length(e + e + e + e) == 8 by { assert (e + e + e + e)[..3] == e + e + e; }
    assert Utf16Length(e + e + e + e + e) == 10 by { assert (e + e + e + e + e)[..4] == e + e + e + e; }
    assert e + e + e + e + e == "\U{1F600}\U{1F600}\U{1F600}\U{1F600}\U{1F600}";
  }

  datatype VerifyResult = VerifyResult(success: bool, message: string, transactionId: string)
  datatype VerifyUpdate = VerifyUpdate(result: Result<VerifyResult>, payments: seq<Payment>)

  const PAYMENT_NOT_FOUND: Error := BadRequest("Payment not found")
  const NOT_ADMIN_OR_OWNER: Error := BadRequest("Only admin or task owner can verify payments")
  const INVALID_TRANSACTION: Error :=
    BadRequest("Invalid transaction ID. For testing, use: TEST123, DEMO456, or DEV789")

  /** Manual verification. The checks run in order: the payment exists; the
      caller is an administrator or the payment's own client; the transaction
      id is acceptable. Each failure is a BadRequest and changes nothing. On
      success only that payment becomes SUCCESS and the transaction id is
      echoed back. */
  function Verify(ps: seq<Payment>, paymentId: string, transactionId: string, userId: Id, role: Role)
    : (u: VerifyUpdate)
    ensures IndexOfPayment(ps, paymentId).None? ==> u == VerifyUpdate(Err(PAYMENT_NOT_FOUND), ps)
    ensures IndexOfPayment(ps, paymentId).Some? ==>
              var i := IndexOfPayment(ps, paymentId).value;
              && (role != ADMIN && ps[i].clientId != userId ==> u == VerifyUpdate(Err(NOT_ADMIN_OR_OWNER), ps))
              && ((role == ADMIN || ps[i].clientId == userId) && !IsValidTransaction(transactionId) ==>
                    u == VerifyUpdate(Err(INVALID_TRANSACTION), ps))
              && (u.result.Ok? <==> (role == ADMIN || ps[i].clientId == userId) && IsValidTransaction(transactionId))
              && (u.result.Ok? ==>
                    && u.result.value == VerifyResult(true, "Payment verified successfully", transactionId)
                    && |u.payments| == |ps|
                    && u.payments[i].status == SUCCESS
                    && u.payments[i] == ps[i].(status := SUCCESS)
                    && forall j :: 0 <= j < |ps| && j != i ==> u.payments[j] == ps[j])
    ensures u.result.Err? ==> u.payments == ps
  {
    match IndexOfPayment(ps, paymentId)
    case None => VerifyUpdate(Err(PAYMENT_NOT_FOUND), ps)
    case Some(i) =>
      var payment := ps[i];
      var isAdmin := role == ADMIN;
      var isOwner := payment.clientId == userId;
      if !isAdmin && !isOwner then VerifyUpdate(Err(NOT_ADMIN_OR_OWNER), ps)
      else if !IsValidTransaction(transactionId) then VerifyUpdate(Err(INVALID_TRANSACTION), ps)
      else VerifyUpdate(Ok(VerifyResult(true, "Payment verified successfully", transactionId)),
                        ps[i := payment.(status := SUCCESS)])
  }

  /** Changing a payment's status leaves the lookup by provider id as it was. */
  lemma {:induction false} IndexOfAfterStatusChange(ps: seq<Payment>, i: nat, s: PaymentStatus, pid: string)
    requires i < |ps|
    ensures IndexOfPayment(ps[i := ps[i].(status := s)], pid) == IndexOfPayment(ps, pid)
  {
    if ps != [] {
      var qs := ps[i := ps[i].(status := s)];
      assert qs[..|qs| - 1] == if i < |ps| - 1 then ps[..|ps| - 1][i := ps[i].(status := s)] else ps[..|ps| - 1];
      if i < |ps| - 1 {
        IndexOfAfterStatusChange(ps[..|ps| - 1], i, s, pid);
      }
    }
  }

  /** Verifying again changes nothing further: same answer, same table. */
  lemma VerifyIdempotent(ps: seq<Payment>, paymentId: string, transactionId: string, userId: Id, role: Role)
    requires Verify(ps, paymentId, transactionId, userId, role).result.Ok?
    ensures var first := Verify(ps, paymentId, transactionId, userId, role);
            Verify(first.payments, paymentId, transactionId, userId, role) == first
  {
    var i := IndexOfPayment(ps, paymentId).value;
    var first := Verify(ps, paymentId, transactionId, userId, role);
    assert first.payments == ps[i := ps[i].(status := SUCCESS)];
    IndexOfAfterStatusChange(ps, i, SUCCESS, paymentId);
    assert first.payments[i := first.payments[i].(status := SUCCESS)] == first.payments;
  }

  /** A last payment of another task does not affect the newest payment. */
  lemma NewestSkipsLast(ps: seq<Payment>, taskId: Id)
    requires ps != [] && ps[|ps| - 1].taskId != taskId
    ensures NewestPayment(ps, taskId) == NewestPayment(ps[..|ps| - 1], taskId)
  {
  }

  /** Nor does it affect which position holds the newest payment. */
  lemma NewestAtSkipsLast(ps: seq<Payment>, i: nat, taskId: Id)
    requires i < |ps| - 1 && ps[|ps| - 1].taskId != taskId
    ensures IsNewestAt(ps, i, taskId) <==> IsNewestAt(ps[..|ps| - 1], i, taskId)
  {
    if IsNewestAt(ps[..|ps| - 1], i, taskId) {
      forall j | i < j < |ps|
        ensures ps[j].taskId != taskId
      {
        if j < |ps| - 1 {
          assert ps[j] == ps[..|ps| - 1][j];
        }
      }
    }
  }

  /** Two payment sequences that differ at most at position i, where both
      hold a payment of the same task. */
  ghost predicate ReplacedAt(ps: seq<Payment>, qs: seq<Payment>, i: nat) {
    && |qs| == |ps| && i < |ps| && qs[i].taskId == ps[i].taskId
    && forall j :: 0 <= j < |ps| && j != i ==> qs[j] == ps[j]
  }

  /** When the last payment belongs to the task, it is the newest in both. */
  lemma NewestReplaceLastOfTask(ps: seq<Payment>, qs: seq<Payment>, i: nat, taskId: Id)
    requires |qs| == |ps| && i < |ps|
    requires ps[|ps| - 1].taskId == taskId && qs[|ps| - 1].taskId == taskId
    requires i < |ps| - 1 ==> qs[|ps| - 1] == ps[|ps| - 1]
    ensures NewestPayment(qs, taskId) == if IsNewestAt(ps, i, taskId) then Some(qs[i]) else NewestPayment(ps, taskId)
  {
    var n := |ps| - 1;
    assert NewestPayment(qs, taskId) == Some(qs[n]);
    assert NewestPayment(ps, taskId) == Some(ps[n]);
    if i < n {
      assert ps[n].taskId == taskId;
      assert !IsNewestAt(ps, i, taskId);
    } else {
      assert IsNewestAt(ps, i, taskId);
    }
  }

  /** Replacing the last payment, of another task, changes nothing. */
  lemma NewestReplaceLastOther(ps: seq<Payment>, qs: seq<Payment>, taskId: Id)
    requires ps != [] && ReplacedAt(ps, qs, |ps| - 1) && ps[|ps| - 1].taskId != taskId
    ensures NewestPayment(qs, taskId) == NewestPayment(ps, taskId)
  {
    var n := |ps| - 1;
    NewestSkipsLast(qs, taskId);
    NewestSkipsLast(ps, taskId);
    assert qs[..n] == ps[..n];
  }

  /** Replacing a payment by one for the same task changes the newest payment
      only when the replaced one was the newest. */
  lemma {:induction false} NewestAfterReplace(ps: seq<Payment>, qs: seq<Payment>, i: nat, taskId: Id)
    requires ReplacedAt(ps, qs, i)
    ensures NewestPayment(qs, taskId) == if IsNewestAt(ps, i, taskId) then Some(qs[i]) else NewestPayment(ps, taskId)
  {
    var n := |ps| - 1;
    if ps[n].taskId == taskId {
      assert qs[n].taskId == taskId && (i < n ==> qs[n] == ps[n]);
      NewestReplaceLastOfTask(ps, qs, i, taskId);
    } else if i == n {
      NewestReplaceLastOther(ps, qs, taskId);
      assert !IsNewestAt(ps, i, taskId);
    } else {
      assert qs[n] == ps[n];
      NewestSkipsLast(qs, taskId);
      NewestSkipsLast(ps, taskId);
      NewestAtSkipsLast(ps, i, taskId);
      assert ReplacedAt(ps[..n], qs[..n], i);
      NewestAfterReplace(ps[..n], qs[..n], i, taskId);
    }
  }

  /** Once the newest payment of a task is verified, the task's listing shows
      it paid and a client is no longer offered PAY. */
  lemma VerifiedNewestStopsPay(ps: seq<Payment>, paymentId: string, transactionId: string, userId: Id,
                               role: Role, task: Task)
    requires Verify(ps, paymentId, transactionId, userId, role).result.Ok?
    requires IsNewestAt(ps, IndexOfPayment(ps, paymentId).value, task.id)
    ensures var after := Verify(ps, paymentId, transactionId, userId, role).payments;
            var view := TaskService.FormatTaskResponse(task, TaskService.NewestOnly(after, task.id), USER);
            view.paymentStatus == TaskService.Paid(SUCCESS) && view.allowedActions == []
  {
    var i := IndexOfPayment(ps, paymentId).value;
    NewestAfterReplace(ps, ps[i := ps[i].(status := SUCCESS)], i, task.id);
  }

  datatype RazorpayResult = RazorpayResult(success: bool, message: string)
  datatype StripeResult = StripeResult(received: bool, message: string)

  /** The disabled Razorpay handler: a failure, whatever it is given. */
  function VerifyRazorpayPayment(body: string, signature: string): (r: RazorpayResult)
    ensures !r.success && r.message == "Razorpay webhooks disabled. Using manual UPI verification."
  {
    RazorpayResult(false, "Razorpay webhooks disabled. Using manual UPI verification.")
  }

  /** The disabled Stripe handler: "not received", whatever it is given. */
  function HandleStripeWebhook(payload: string, signature: string): (r: StripeResult)
    ensures !r.received && r.message == "Stripe webhooks disabled. Using manual UPI verification."
  {
    StripeResult(false, "Stripe webhooks disabled. Using manual UPI verification.")
  }

  // ---------------------------------------------------------------------
  // The service's state-changing operations
  // ---------------------------------------------------------------------

  /** Creates a payment intent. The payment id is built from the `stamp`
      (clock) and `random` parts it is given. */
  method CreatePaymentIntent(db: Database, userId: Id, taskId: Id, stamp: string, random: string, fmt: Formatting)
    returns (r: Result<PaymentIntent>)
    requires db.Valid()
    modifies db`payments
    ensures db.Valid()
    ensures IntentUpdate(r, db.payments)
            == Intent(db.users, db.tasks, old(db.payments), userId, taskId, PaymentIdOf(stamp, random), fmt)
  {
    if taskId == "" {
      return Err(BadRequest("taskId is required"));
    }
    if userId !in db.users {
      return Err(BadRequest("User not found"));
    }
    if taskId !in db.tasks {
      return Err(BadRequest("Task not found"));
    }
    var task := db.tasks[taskId];
    var amount := task.suggestedBudget;
    var currency := task.currency;
    var paymentId := PaymentIdOf(stamp, random);
    var upiLink := UpiLink(task, fmt);
    if ProviderIdUsed(db.payments, paymentId) {
      return Err(StoreError(UNIQUE_VIOLATION));
    }
    db.payments := db.payments + [Payment(taskId, userId, amount, currency, "upi", paymentId, PENDING)];
    r := Ok(PaymentIntent("upi", paymentId, UPI_ID, UPI_NAME, upiLink, amount, currency, INTENT_MESSAGE));
  }

  /** Verifies a payment by hand; only the payment table can change. */
  method VerifyManualPayment(db: Database, paymentId: string, transactionId: string, userId: Id, role: Role)
    returns (r: Result<VerifyResult>)
    requires db.Valid()
    modifies db`payments
    ensures db.Valid()
    ensures VerifyUpdate(r, db.payments) == Verify(old(db.payments), paymentId, transactionId, userId, role)
  {
    var found := IndexOfPayment(db.payments, paymentId);
    if found.None? {
      return Err(PAYMENT_NOT_FOUND);
    }
    var i := found.value;
    var payment := db.payments[i];
    var isAdmin := role == ADMIN;
    var isOwner := payment.clientId == userId;
    if !isAdmin && !isOwner {
      return Err(NOT_ADMIN_OR_OWNER);
    }
    if !IsValidTransaction(transactionId) {
      return Err(INVALID_TRANSACTION);
    }
    db.payments := db.payments[i := payment.(status := SUCCESS)];
    r := Ok(VerifyResult(true, "Payment verified successfully", transactionId));
  }
}
