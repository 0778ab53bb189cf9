/** Task lifecycle and access rules: task creation, the administrator's
    status transitions, the owner-or-admin guard in front of every task and
    file read, and the derived view (payment status and allowed actions)
    returned by the read paths. */
module TaskService {
  import opened Common
  import opened Store

  // ---------------------------------------------------------------------
  // The derived view
  // ---------------------------------------------------------------------

  /** Actions the client interface may offer for a task. */
  datatype Action = ACCEPT | COUNTER | REJECT | COMPLETE | PAY

  /** The payment status shown with a task: the status of a payment, or
      UNPAID when the task has none. */
  datatype PaymentView = UNPAID | Paid(status: PaymentStatus)

  /** The status of the first payment of the list handed to the view, or
      UNPAID for an empty list. */
  function PaymentStatusOf(payments: seq<Payment>): (v: PaymentView)
    ensures payments == [] <==> v == UNPAID
    ensures payments != [] ==> v == Paid(payments[0].status)
  {
    if payments == [] then UNPAID else Paid(payments[0].status)
  }

  predicate IsAdminAction(a: Action) {
    a == ACCEPT || a == COUNTER || a == REJECT || a == COMPLETE
  }

  /** The allowed actions for a caller's role, a task status and the shown
      payment status. Administrators get the negotiation actions on a
      submitted task and the completion action on an accepted or running one;
      everybody else gets PAY exactly when nothing has been paid or the
      payment failed. */
  function AllowedActions(role: Role, status: TaskStatus, pay: PaymentView): (r: seq<Action>)
    ensures role == ADMIN && status == SUBMITTED ==> r == [ACCEPT, COUNTER, REJECT]
    ensures role == ADMIN && (status == ACCEPTED || status == IN_PROGRESS) ==> r == [COMPLETE]
    ensures role == ADMIN && status !in {SUBMITTED, ACCEPTED, IN_PROGRESS} ==> r == []
    ensures role != ADMIN ==> (r == [PAY] <==> pay in {UNPAID, Paid(FAILED)})
    ensures role != ADMIN ==> (r == [] <==> pay !in {UNPAID, Paid(FAILED)})
  {
    var actions: seq<Action> := [];
    if role == ADMIN then
      var a1 := if status == SUBMITTED then actions + [ACCEPT, COUNTER, REJECT] else actions;
      if status == ACCEPTED || status == IN_PROGRESS then a1 + [COMPLETE] else a1
    else
      if pay == UNPAID || pay == Paid(FAILED) then actions + [PAY] else actions
  }

  /** PAY is never offered together with an administrator action: PAY only
      to non-administrators, administrator actions only to administrators. */
  lemma PayNeverWithAdminActions(role: Role, status: TaskStatus, pay: PaymentView)
    ensures PAY in AllowedActions(role, status, pay) ==> role != ADMIN
    ensures forall a :: a in AllowedActions(role, status, pay) && IsAdminAction(a) ==> role == ADMIN
    ensures !(PAY in AllowedActions(role, status, pay)
              && exists a :: a in AllowedActions(role, status, pay) && IsAdminAction(a))
  {
  }

  /** A task as the read paths return it. */
  datatype TaskView = TaskView(task: Task, paymentStatus: PaymentView, allowedActions: seq<Action>)

  /** The view of a task given the payment list the query fetched with it. */
  function FormatTaskResponse(task: Task, payments: seq<Payment>, role: Role): (v: TaskView)
    ensures v.task == task
    ensures v.paymentStatus == PaymentStatusOf(payments)
    ensures v.allowedActions == AllowedActions(role, task.status, PaymentStatusOf(payments))
  {
    var paymentStatus := PaymentStatusOf(payments);
    TaskView(task, paymentStatus, AllowedActions(role, task.status, paymentStatus))
  }

  /** The payment list fetched by the list queries: the newest payment only. */
  function NewestOnly(ps: seq<Payment>, taskId: Id): (r: seq<Payment>)
    ensures |r| <= 1
    ensures r == [] <==> forall i :: 0 <= i < |ps| ==> ps[i].taskId != taskId
    ensures r != [] ==> Some(r[0]) == NewestPayment(ps, taskId) && NewestIs(ps, taskId, r[0])
  {
    NewestPaymentIsNewest(ps, taskId);
    match NewestPayment(ps, taskId)
    case None => []
    case Some(p) => [p]
  }

  // ---------------------------------------------------------------------
  // The access guard and the read paths
  // ---------------------------------------------------------------------

  /** The owner-or-admin guard: a missing task is NotFound, checked first;
      a caller who is neither an administrator nor the task's client is
      Forbidden with the given message. */
  function Authorize(tasks: map<Id, Task>, taskId: Id, userId: Id, role: Role, denied: string): (r: Result<Task>)
    ensures taskId !in tasks <==> r == Err(NotFound("Task not found"))
    ensures r.Ok? <==> taskId in tasks && (role == ADMIN || tasks[taskId].clientId == userId)
    ensures r.Ok? ==> r.value == tasks[taskId]
    ensures r.Err? && taskId in tasks ==> r.error == Forbidden(denied)
  {
    if taskId !in tasks then Err(NotFound("Task not found"))
    else if role != ADMIN && tasks[taskId].clientId != userId then Err(Forbidden(denied))
    else Ok(tasks[taskId])
  }

  /** The message of a Forbidden exception built without one: empty, so
      that the framework supplies its default description. */
  const NO_MESSAGE: string := ""
  const ACCESS_DENIED: string := "Access denied"

  predicate Visible(t: Task, userId: Id, role: Role) {
    role == ADMIN || t.clientId == userId
  }

  /** All tasks an administrator may see, or the caller's own tasks, each
      with its newest payment. Ordering of the result is the store's. */
  function FindAll(tasks: map<Id, Task>, ps: seq<Payment>, userId: Id, role: Role): (r: map<Id, TaskView>)
    ensures role == ADMIN ==> r.Keys == tasks.Keys
    ensures role != ADMIN ==> forall id :: id in r <==> id in tasks && tasks[id].clientId == userId
    ensures forall id :: id in r ==> r[id] == FormatTaskResponse(tasks[id], NewestOnly(ps, id), role)
  {
    map id | id in tasks && Visible(tasks[id], userId, role) :: FormatTaskResponse(tasks[id], NewestOnly(ps, id), role)
  }

  /** The caller's own tasks, always viewed with the client role. */
  function FindUserTasks(tasks: map<Id, Task>, ps: seq<Payment>, userId: Id): (r: map<Id, TaskView>)
    ensures forall id :: id in r <==> id in tasks && tasks[id].clientId == userId
    ensures forall id :: id in r ==> r[id] == FormatTaskResponse(tasks[id], NewestOnly(ps, id), USER)
  {
    map id | id in tasks && tasks[id].clientId == userId :: FormatTaskResponse(tasks[id], NewestOnly(ps, id), USER)
  }

  /** The own-task listing is the client's view of the general listing, even
      when the caller is an administrator. */
  lemma UserTasksAreClientListing(tasks: map<Id, Task>, ps: seq<Payment>, userId: Id)
    ensures FindUserTasks(tasks, ps, userId) == FindAll(tasks, ps, userId, USER)
  {
  }

  /** One task with all of its payments, behind the access guard. */
  function FindOne(tasks: map<Id, Task>, ps: seq<Payment>, id: Id, userId: Id, role: Role): (r: Result<TaskView>)
    ensures id !in tasks ==> r == Err(NotFound("Task not found"))
    ensures id in tasks && !Visible(tasks[id], userId, role) ==> r == Err(Forbidden(NO_MESSAGE))
    ensures id in tasks && Visible(tasks[id], userId, role) ==>
              r == Ok(FormatTaskResponse(tasks[id], PaymentsOf(ps, id), role))
  {
    var t :- Authorize(tasks, id, userId, role, NO_MESSAGE);
    Ok(FormatTaskResponse(t, PaymentsOf(ps, id), role))
  }

  /** A file as listed or returned after upload. */
  datatype FileInfo = FileInfo(id: Id, fileName: string, mimeType: string, size: int, createdAt: int, downloadUrl: string)

  function DownloadUrl(taskId: Id, fileId: Id): string {
    "/tasks/" + taskId + "/files/" + fileId + "/download"
  }

  function InfoOf(f: TaskFile): FileInfo {
    FileInfo(f.id, f.fileName, f.mimeType, f.size, f.createdAt, DownloadUrl(f.taskId, f.id))
  }

  /** The files of a task, behind the access guard. */
  function GetTaskFiles(tasks: map<Id, Task>, files: map<Id, TaskFile>, taskId: Id, userId: Id, role: Role)
    : (r: Result<map<Id, FileInfo>>)
    ensures r.Err? <==> Authorize(tasks, taskId, userId, role, ACCESS_DENIED).Err?
    ensures r.Err? ==> r.error == Authorize(tasks, taskId, userId, role, ACCESS_DENIED).error
    ensures r.Ok? ==> forall fid :: fid in r.value <==> fid in files && files[fid].taskId == taskId
    ensures r.Ok? ==> forall fid :: fid in r.value ==> r.value[fid] == InfoOf(files[fid])
  {
    var _ :- Authorize(tasks, taskId, userId, role, ACCESS_DENIED);
    Ok(map fid | fid in files && files[fid].taskId == taskId :: InfoOf(files[fid]))
  }

  /** A file of a task, behind the access guard: it must match both the file
      id and the task id. */
  function DownloadFile(tasks: map<Id, Task>, files: map<Id, TaskFile>, taskId: Id, fileId: Id, userId: Id, role: Role)
    : (r: Result<TaskFile>)
    ensures taskId !in tasks ==> r == Err(NotFound("Task not found"))
    ensures taskId in tasks && !Visible(tasks[taskId], userId, role) ==> r == Err(Forbidden(ACCESS_DENIED))
    ensures r.Ok? <==> Authorize(tasks, taskId, userId, role, ACCESS_DENIED).Ok?
                       && fileId in files && files[fileId].taskId == taskId
    ensures r.Ok? ==> r.value == files[fileId]
    ensures Authorize(tasks, taskId, userId, role, ACCESS_DENIED).Ok? && r.Err? ==> r.error == NotFound("File not found")
  {
    var _ :- Authorize(tasks, taskId, userId, role, ACCESS_DENIED);
    if fileId in files && files[fileId].taskId == taskId then Ok(files[fileId])
    else Err(NotFound("File not found"))
  }

  // ---------------------------------------------------------------------
  // Transitions, as functions of the task table
  // ---------------------------------------------------------------------

  /** The effect of one update: what is returned and the new task table. */
  datatype TaskUpdate = TaskUpdate(result: Result<Task>, tasks: map<Id, Task>)

  /** Two rows agree on everything but status and budget. */
  predicate SameTaskData(a: Task, b: Task) {
    a.(status := b.status, suggestedBudget := b.suggestedBudget) == b
  }

  /** Accepting: NotFound for a missing task; an accepted task is returned
      as it is; any other task becomes ACCEPTED, nothing else changing. No
      payment is consulted. */
  function Accept(tasks: map<Id, Task>, id: Id): (u: TaskUpdate)
    ensures id !in tasks ==> u == TaskUpdate(Err(NotFound("Task not found")), tasks)
    ensures id in tasks && tasks[id].status == ACCEPTED ==> u == TaskUpdate(Ok(tasks[id]), tasks)
    ensures id in tasks ==> u.result.Ok? && u.result.value.status == ACCEPTED
                            && u.result.value.suggestedBudget == tasks[id].suggestedBudget
                            && SameTaskData(u.result.value, tasks[id])
                            && u.tasks == tasks[id := u.result.value]
  {
    if id !in tasks then TaskUpdate(Err(NotFound("Task not found")), tasks)
    else if tasks[id].status == ACCEPTED then TaskUpdate(Ok(tasks[id]), tasks)
    else
      var t := tasks[id].(status := ACCEPTED);
      TaskUpdate(Ok(t), tasks[id := t])
  }

  /** A second accept returns the same task and leaves the table as the
      first one left it. */
  lemma AcceptIdempotent(tasks: map<Id, Task>, id: Id)
    ensures Accept(Accept(tasks, id).tasks, id) == TaskUpdate(Accept(tasks, id).result, Accept(tasks, id).tasks)
  {
  }

  /** Setting the status directly: the store's missing-record error for an
      absent task, otherwise exactly the given status with no transition
      check, nothing else changing. */
  function SetStatus(tasks: map<Id, Task>, id: Id, status: TaskStatus): (u: TaskUpdate)
    ensures id !in tasks ==> u == TaskUpdate(Err(StoreError(RECORD_MISSING)), tasks)
    ensures id in tasks ==> u.result.Ok? && u.result.value.status == status
                            && u.result.value.suggestedBudget == tasks[id].suggestedBudget
                            && SameTaskData(u.result.value, tasks[id])
                            && u.tasks == tasks[id := u.result.value]
  {
    if id !in tasks then TaskUpdate(Err(StoreError(RECORD_MISSING)), tasks)
    else
      var t := tasks[id].(status := status);
      TaskUpdate(Ok(t), tasks[id := t])
  }

  /** A counter-offer: the budget becomes the offered amount and the task is
      SUBMITTED again, whatever its status was. The amount is read from the
      request body unchecked; when it is absent the store keeps the old
      budget and the status still changes. */
  function Counter(tasks: map<Id, Task>, id: Id, amount: Option<int>): (u: TaskUpdate)
    ensures id !in tasks ==> u == TaskUpdate(Err(StoreError(RECORD_MISSING)), tasks)
    ensures id in tasks ==> u.result.Ok? && u.result.value.status == SUBMITTED
                            && (amount.Some? ==> u.result.value.suggestedBudget == amount.value)
                            && (amount.None? ==> u.result.value.suggestedBudget == tasks[id].suggestedBudget)
                            && SameTaskData(u.result.value, tasks[id])
                            && u.tasks == tasks[id := u.result.value]
  {
    if id !in tasks then TaskUpdate(Err(StoreError(RECORD_MISSING)), tasks)
    else
      var budget := if amount.Some? then amount.value else tasks[id].suggestedBudget;
      var t := tasks[id].(suggestedBudget := budget, status := SUBMITTED);
      TaskUpdate(Ok(t), tasks[id := t])
  }

  /** After a counter-offer an administrator is offered accept, counter and
      reject again, whatever the task's status was. */
  lemma CounterReopensNegotiation(tasks: map<Id, Task>, ps: seq<Payment>, id: Id, amount: Option<int>, adminId: Id)
    requires id in tasks
    ensures var view := FindOne(Counter(tasks, id, amount).tasks, ps, id, adminId, ADMIN);
            view.Ok? && view.value.allowedActions == [ACCEPT, COUNTER, REJECT]
  {
  }

  /** The client's fields of a task to be created. */
  datatype CreateTaskDto = CreateTaskDto(
    title: string, description: string, budget: int,
    currency: string, urgency: string, targetDate: Option<int>)

  /** The row a creation inserts: SUBMITTED, owned by the caller, with the
      given budget and a target date seven days from now when none is given. */
  function NewTask(id: Id, clientId: Id, dto: CreateTaskDto, now: int): (t: Task)
    ensures t.id == id && t.status == SUBMITTED && t.clientId == clientId
    ensures t.suggestedBudget == dto.budget && t.title == dto.title && t.description == dto.description
    ensures t.currency == dto.currency && t.urgency == dto.urgency && t.createdAt == now
    ensures t.targetDate == (if dto.targetDate.Some? then dto.targetDate.value else now + SEVEN_DAYS_MS)
  {
    var targetDate := match dto.targetDate
      case Some(d) => d
      case None => now + SEVEN_DAYS_MS;
    Task(id, dto.title, dto.description, dto.budget, dto.currency, dto.urgency,
         targetDate, SUBMITTED, clientId, now)
  }

  // ---------------------------------------------------------------------
  // The service's state-changing operations
  // ---------------------------------------------------------------------

  /** Creates a task. `newId` is the id the store assigns; the optional task
      analysis is not invoked. */
  method Create(db: Database, clientId: Id, dto: CreateTaskDto, now: int, newId: Id) returns (t: Task)
    requires db.Valid() && newId !in db.tasks
    requires dto.title != "" && dto.description != ""
    modifies db`tasks
    ensures db.Valid()
    ensures t == NewTask(newId, clientId, dto, now)
    ensures db.tasks == old(db.tasks)[newId := t]
  {
    t := NewTask(newId, clientId, dto, now);
    db.tasks := db.tasks[newId := t];
  }

  /** Administrator accepts a task. */
  method AcceptTask(db: Database, id: Id, callerRole: Role) returns (r: Result<Task>)
    requires callerRole == ADMIN
    requires db.Valid()
    modifies db`tasks
    ensures db.Valid()
    ensures r == Accept(old(db.tasks), id).result
    ensures db.tasks == Accept(old(db.tasks), id).tasks
  {
    if id !in db.tasks {
      return Err(NotFound("Task not found"));
    }
    var task := db.tasks[id];
    if task.status == ACCEPTED {
      return Ok(task);
    }
    var updated := task.(status := ACCEPTED);
    db.tasks := db.tasks[id := updated];
    r := Ok(updated);
  }

  /** Administrator proposes a new budget. */
  method CounterOffer(db: Database, id: Id, amount: Option<int>, callerRole: Role) returns (r: Result<Task>)
    requires callerRole == ADMIN
    requires db.Valid()
    modifies db`tasks
    ensures db.Valid()
    ensures r == Counter(old(db.tasks), id, amount).result
    ensures db.tasks == Counter(old(db.tasks), id, amount).tasks
  {
    if id !in db.tasks {
      return Err(StoreError(RECORD_MISSING));
    }
    var budget := db.tasks[id].suggestedBudget;
    if amount.Some? {
      budget := amount.value;
    }
    var updated := db.tasks[id].(suggestedBudget := budget, status := SUBMITTED);
    db.tasks := db.tasks[id := updated];
    r := Ok(updated);
  }

  /** Administrator sets any status, with no transition check. */
  method UpdateStatus(db: Database, id: Id, status: TaskStatus, callerRole: Role) returns (r: Result<Task>)
    requires callerRole == ADMIN
    requires db.Valid()
    modifies db`tasks
    ensures db.Valid()
    ensures r == SetStatus(old(db.tasks), id, status).result
    ensures db.tasks == SetStatus(old(db.tasks), id, status).tasks
  {
    if id !in db.tasks {
      return Err(StoreError(RECORD_MISSING));
    }
    var updated := db.tasks[id].(status := status);
    db.tasks := db.tasks[id := updated];
    r := Ok(updated);
  }

  /** Administrator marks a task completed, from any status. */
  method CompleteTask(db: Database, id: Id, callerRole: Role) returns (r: Result<Task>)
    requires callerRole == ADMIN
    requires db.Valid()
    modifies db`tasks
    ensures db.Valid()
    ensures r == SetStatus(old(db.tasks), id, COMPLETED).result
    ensures db.tasks == SetStatus(old(db.tasks), id, COMPLETED).tasks
  {
    if id !in db.tasks {
      return Err(StoreError(RECORD_MISSING));
    }
    var updated := db.tasks[id].(status := COMPLETED);
    db.tasks := db.tasks[id := updated];
    r := Ok(updated);
  }

  /** An uploaded multipart file. */
  datatype Upload = Upload(originalname: string, mimetype: string, size: int, buffer: seq<bv8>)

  /** The storage key of an uploaded file: the task id, a slash, a random
      name, a dash and the original file name. */
  function FileKey(taskId: Id, random: string, originalname: string): (k: string)
    ensures |k| == |taskId| + |random| + |originalname| + 2
    ensures k[..|taskId| + 1] == taskId + "/"
    ensures k[|k| - |originalname|..] == originalname
  {
    taskId + "/" + random + "-" + originalname
  }

  predicate KeyInUse(files: map<Id, TaskFile>, key: string) {
    exists fid :: fid in files && files[fid].fileKey == key
  }

  /** Uploads a file to a task. A missing file is rejected before any
      lookup; then the access guard applies. `random` is the generated
      name part of the key and `newFileId` the id the store assigns. */
  method UploadFile(db: Database, taskId: Id, file: Option<Upload>, userId: Id, role: Role,
                    random: string, newFileId: Id, now: int) returns (r: Result<FileInfo>)
    requires db.Valid() && newFileId !in db.taskFiles
    modifies db`taskFiles
    ensures db.Valid()
    ensures file.None? ==> r == Err(BadRequest("No file provided"))
    ensures file.Some? && Authorize(db.tasks, taskId, userId, role, ACCESS_DENIED).Err? ==>
              r == Err(Authorize(db.tasks, taskId, userId, role, ACCESS_DENIED).error)
    ensures file.Some? && Authorize(db.tasks, taskId, userId, role, ACCESS_DENIED).Ok?
            && KeyInUse(old(db.taskFiles), FileKey(taskId, random, file.value.originalname)) ==>
              r == Err(StoreError(UNIQUE_VIOLATION))
    ensures r.Ok? <==> file.Some? && Authorize(db.tasks, taskId, userId, role, ACCESS_DENIED).Ok?
                       && !KeyInUse(old(db.taskFiles), FileKey(taskId, random, file.value.originalname))
    ensures r.Err? ==> db.taskFiles == old(db.taskFiles)
    ensures r.Ok? ==>
              && file.Some?
              && var f := TaskFile(newFileId, taskId, file.value.originalname,
                                   FileKey(taskId, random, file.value.originalname),
                                   file.value.mimetype, file.value.size, file.value.buffer, now);
                 db.taskFiles == old(db.taskFiles)[newFileId := f] && r.value == InfoOf(f)
  {
    if file.None? {
      return Err(BadRequest("No file provided"));
    }
    var access := Authorize(db.tasks, taskId, userId, role, ACCESS_DENIED);
    if access.Err? {
      return Err(access.error);
    }
    var upload := file.value;
    var fileKey := FileKey(taskId, random, upload.originalname);
    if KeyInUse(db.taskFiles, fileKey) {
      return Err(StoreError(UNIQUE_VIOLATION));
    }
    var taskFile := TaskFile(newFileId, taskId, upload.originalname, fileKey,
                             upload.mimetype, upload.size, upload.buffer, now);
    db.taskFiles := db.taskFiles[newFileId := taskFile];
    r := Ok(FileInfo(taskFile.id, taskFile.fileName, taskFile.mimeType, taskFile.size,
                     taskFile.createdAt, DownloadUrl(taskId, taskFile.id)));
  }
}
