/** The life of image tasks: submission, workers, resumed polls, clean-up and restart. */
module ImageTasks {
  import opened Sequences

  datatype Status = Queued | Running | Success | Error

  const DETAIL_KEYS: set<string> := {
    "error_code", "failure_scope", "failure_capability", "failure_retryable", "failure_account_failure",
    "failure_retry_after", "status_code", "error_type", "raw_error", "upstream_error", "upstream_error_type",
    "upstream_request_id", "can_resume_poll", "raw_upstream_message", "raw_upstream_message_len",
    "raw_upstream_message_truncated", "upstream_message_preview", "upstream_message_len",
    "upstream_message_truncated", "tool_invoked", "terminal_message", "blocked", "diagnosis", "poll_attempts",
    "poll_timeout_secs", "stream_timeout_secs", "last_task_error"}

  /** The stored codes that stand for a poll timeout: the code and its alias. */
  const POLL_TIMEOUT_CODES: set<string> := {"image_poll_timeout", "upstream_timeout"}

  /** A task; the details are the failure fields that are present. */
  datatype Task = Task(owner: string, id: string, status: Status, error: string, conversation: string,
                       details: map<string, string>, updatedAt: int)

  type Tasks = map<string, Task>

  predicate IsFinished(s: Status) {
    s == Success || s == Error
  }

  // ---- Keys ----

  function Key(owner: string, id: string): string {
    owner + ":" + id
  }

  /** Keys tell tasks apart when owner ids contain no colon. */
  lemma KeyIsInjective(owner: string, id: string, other: string, otherId: string)
    requires ':' !in owner && ':' !in other && Key(owner, id) == Key(other, otherId)
    ensures owner == other && id == otherId
  {
    FirstColonSplits(owner, id, other, otherId);
  }

  /** Two tasks of different owners share a key if and only if one owner id is the other one with a colon
      and a beginning of the other task's id behind it. */
  lemma OwnersCollideIff(owner: string, id: string, other: string, otherId: string)
    requires owner != other
    ensures Key(owner, id) == Key(other, otherId) <==>
            || (exists m :: other == owner + ":" + m && id == m + ":" + otherId)
            || (exists m :: owner == other + ":" + m && otherId == m + ":" + id)
  {
    ColonJoinsAlikeIff(owner, id, other, otherId);
  }

  // ---- Updating a task ----

  /** The fields of an update; a blank detail removes the field. */
  datatype Change = Change(status: Option<Status>, error: Option<string>, conversation: Option<string>, details: map<string, string>)

  function Patched(details: map<string, string>, patch: map<string, string>): map<string, string> {
    map k | k in details.Keys + patch.Keys && (k in patch ==> patch[k] != "") :: if k in patch then patch[k] else details[k]
  }

  function Changed(t: Task, c: Change, now: int): Task {
    Task(t.owner, t.id,
         if c.status.Some? then c.status.value else t.status,
         if c.error.Some? then c.error.value else t.error,
         if c.conversation.Some? then c.conversation.value else t.conversation,
         Patched(t.details, c.details), now)
  }

  function Updated(tasks: Tasks, key: string, c: Change, now: int): Tasks {
    if key in tasks then tasks[key := Changed(tasks[key], c, now)] else tasks
  }

  /** `_task_detail_fields`. */
  function DetailsIn(fields: map<string, string>): map<string, string> {
    map k | k in fields && k in DETAIL_KEYS :: fields[k]
  }

  function NoDetails(): map<string, string> {
    map k | k in DETAIL_KEYS :: ""
  }

  // ---- Clean-up, loading, recovery ----

  predicate Expired(t: Task, cutoff: int) {
    IsFinished(t.status) && t.updatedAt < cutoff
  }

  function Cleaned(tasks: Tasks, cutoff: int): Tasks {
    map k | k in tasks && !Expired(tasks[k], cutoff) :: tasks[k]
  }

  function Cutoff(now: int, retentionDays: int): int {
    now - Max(1, retentionDays) * 86400
  }

  /** The retention of the task is over: it is finished, and was last heard of longer ago than the days of the
      retention, one day at least. */
  predicate IsOver(t: Task, now: int, retentionDays: int) {
    IsFinished(t.status) && now - t.updatedAt > 24 * 60 * 60 * if retentionDays < 1 then 1 else retentionDays
  }

  lemma OverIsExpired(t: Task, now: int, retentionDays: int)
    ensures Expired(t, Cutoff(now, retentionDays)) <==> IsOver(t, now, retentionDays)
  {
  }

  /** A task as it is read back: blank details and the conversation id do not survive. */
  function Loaded(t: Task): Task {
    t.(conversation := "", details := map k | k in t.details && k in DETAIL_KEYS && t.details[k] != "" :: t.details[k])
  }

  function LoadAll(items: seq<Task>): Tasks {
    if items == [] then map[]
    else
      var t := items[|items| - 1];
      var so := LoadAll(items[..|items| - 1]);
      if t.id == "" || t.owner == "" then so else so[Key(t.owner, t.id) := Loaded(t)]
  }

  const INTERRUPTED := "interrupted by a restart"

  function Interrupted(details: map<string, string>): Change {
    Change(Some(Error), Some(INTERRUPTED), None, DetailsIn(details))
  }

  function Recovered(tasks: Tasks, details: map<string, string>, now: int): Tasks {
    map k | k in tasks :: if IsFinished(tasks[k].status) then tasks[k] else Changed(tasks[k], Interrupted(details), now)
  }

  // ---- Steps ----

  /** The tasks, the key of every worker thread, and the saved file. */
  datatype Store = Store(tasks: Tasks, workers: multiset<string>, file: seq<Task>)

  datatype Event =
    | Submit(owner: string, id: string, now: int, retentionDays: int)
    | Begin(key: string, now: int)
    | Progress(key: string, now: int)
    | Succeed(key: string, now: int)
    | Fail(key: string, error: string, conversation: string, details: map<string, string>, now: int)
    | Resume(owner: string, id: string, now: int)
    | ListTasks(now: int, retentionDays: int)
    | Restart(details: map<string, string>, now: int, retentionDays: int)

  function Fresh(owner: string, id: string, now: int): Task {
    Task(owner, id, Queued, "", "", map[], now)
  }

  predicate CanResume(tasks: Tasks, key: string) {
    && key in tasks && tasks[key].status == Error
    && "error_code" in tasks[key].details && tasks[key].details["error_code"] in POLL_TIMEOUT_CODES
    && tasks[key].conversation != ""
  }

  /** What an event makes of the tasks. */
  function TasksAfter(s: Store, e: Event): Tasks {
    match e
    case Submit(owner, id, now, days) =>
      if id == "" then s.tasks
      else
        var so := Cleaned(s.tasks, Cutoff(now, days));
        if Key(owner, id) in so then so else so[Key(owner, id) := Fresh(owner, id, now)]
    case Begin(key, now) => Updated(s.tasks, key, Change(Some(Running), Some(""), None, map[]), now)
    case Progress(key, now) => Updated(s.tasks, key, Change(None, None, None, map[]), now)
    case Succeed(key, now) => Updated(s.tasks, key, Change(Some(Success), Some(""), None, NoDetails()), now)
    case Fail(key, error, conversation, details, now) =>
      Updated(s.tasks, key, Change(Some(Error), Some(error), if conversation != "" then Some(conversation) else None, DetailsIn(details)), now)
    case Resume(owner, id, now) =>
      if CanResume(s.tasks, Key(owner, id)) then Updated(s.tasks, Key(owner, id), Change(Some(Running), Some(""), None, NoDetails()), now)
      else s.tasks
    case ListTasks(now, days) => Cleaned(s.tasks, Cutoff(now, days))
    case Restart(details, now, days) => Cleaned(Recovered(LoadAll(s.file), details, now), Cutoff(now, days))
  }

  /** What it makes of the workers: a new task and a resumed poll start one, success and failure end it. */
  function WorkersAfter(s: Store, e: Event): multiset<string> {
    match e
    case Submit(owner, id, now, days) =>
      if id == "" || Key(owner, id) in Cleaned(s.tasks, Cutoff(now, days)) then s.workers else s.workers + multiset{Key(owner, id)}
    case Succeed(key, now) => s.workers - multiset{key}
    case Fail(key, error, conversation, details, now) => s.workers - multiset{key}
    case Resume(owner, id, now) => if CanResume(s.tasks, Key(owner, id)) then s.workers + multiset{Key(owner, id)} else s.workers
    case Restart(details, now, days) => multiset{}
    case _ => s.workers
  }

  /** The file lists the tasks, in some order, as far as they are read back. */
  ghost predicate IsSaved(tasks: Tasks, file: seq<Task>) {
    && (forall t :: t in file ==> Key(t.owner, t.id) in tasks && Loaded(tasks[Key(t.owner, t.id)]) == Loaded(t))
    && (forall k :: k in tasks ==> exists t :: t in file && Key(t.owner, t.id) == k)
  }

  ghost predicate IsStep(s: Store, e: Event, t: Store) {
    t.tasks == TasksAfter(s, e) && t.workers == WorkersAfter(s, e) && IsSaved(t.tasks, t.file)
  }

  /** Worker events come from a worker of that task; only details of the known kinds are given. */
  ghost predicate Enabled(s: Store, e: Event) {
    match e
    case Submit(owner, id, now, days) => owner != ""
    case Begin(key, now) => key in s.workers
    case Progress(key, now) => key in s.workers
    case Succeed(key, now) => key in s.workers
    case Fail(key, error, conversation, details, now) => key in s.workers
    case _ => true
  }

  // ---- The invariant ----

  /** One worker for every unfinished task and none besides; only failed tasks carry failure details; the
      key of a task is made of its owner and id; the file is up to date. */
  ghost predicate TaskInv(s: Store) {
    && WorkersMatch(s)
    && (forall k :: k in s.tasks ==> TaskOk(k, s.tasks[k]))
    && IsSaved(s.tasks, s.file)
  }

  ghost predicate TaskOk(key: string, t: Task) {
    && key == Key(t.owner, t.id) && t.id != "" && t.owner != ""
    && t.details.Keys <= DETAIL_KEYS && (t.status != Error ==> t.details == map[])
  }

  // ---- Every step keeps it ----

  lemma UpdateKeeps(tasks: Tasks, key: string, c: Change, now: int)
    requires forall k :: k in tasks ==> TaskOk(k, tasks[k])
    requires c.details.Keys <= DETAIL_KEYS
    requires key in tasks && Changed(tasks[key], c, now).status != Error ==> tasks[key].status != Error || c.details == NoDetails()
    requires key in tasks && Changed(tasks[key], c, now).status != Error ==> c.details == map[] || c.details == NoDetails()
    ensures forall k :: k in Updated(tasks, key, c, now) ==> TaskOk(k, Updated(tasks, key, c, now)[k])
  {
    if key in tasks {
      var t := tasks[key];
      assert TaskOk(key, t);
      assert TaskOk(key, Changed(t, c, now));
    }
  }

  lemma {:induction false} LoadedTasks(items: seq<Task>, key: string)
    requires key in LoadAll(items)
    ensures exists t :: t in items && key == Key(t.owner, t.id) && t.id != "" && t.owner != "" && LoadAll(items)[key] == Loaded(t)
  {
    var t := items[|items| - 1];
    var init := items[..|items| - 1];
    if t.id != "" && t.owner != "" && key == Key(t.owner, t.id) {
      assert t in items;
    } else {
      LoadedTasks(init, key);
      var u :| u in init && key == Key(u.owner, u.id) && u.id != "" && u.owner != "" && LoadAll(init)[key] == Loaded(u);
      assert u in items;
    }
  }

  /** After a restart, from any file, nothing is unfinished, no poll can be resumed and no worker runs. */
  lemma AfterRestart(s: Store, details: map<string, string>, now: int, days: int, key: string)
    requires key in TasksAfter(s, Restart(details, now, days))
    ensures var t := TasksAfter(s, Restart(details, now, days))[key];
            IsFinished(t.status) && t.conversation == ""
    ensures !CanResume(TasksAfter(s, Restart(details, now, days)), key)
    ensures WorkersAfter(s, Restart(details, now, days)) == multiset{}
  {
    LoadedTasks(s.file, key);
  }

  lemma RestartKeeps(s: Store, details: map<string, string>, now: int, days: int, key: string)
    requires TaskInv(s) && key in TasksAfter(s, Restart(details, now, days))
    ensures TaskOk(key, TasksAfter(s, Restart(details, now, days))[key])
  {
    LoadedTaskOk(s, key);
    RecoveredOk(LoadAll(s.file), key, details, now);
  }

  lemma LoadedTaskOk(s: Store, key: string)
    requires TaskInv(s) && key in LoadAll(s.file)
    ensures TaskOk(key, LoadAll(s.file)[key])
  {
    LoadedTasks(s.file, key);
    var t :| t in s.file && key == Key(t.owner, t.id) && LoadAll(s.file)[key] == Loaded(t);
    assert TaskOk(key, s.tasks[key]);
    LoadedIsOk(key, s.tasks[key]);
  }

  lemma LoadedIsOk(key: string, t: Task)
    requires TaskOk(key, t)
    ensures TaskOk(key, Loaded(t))
  {
  }

  lemma RecoveredOk(tasks: Tasks, key: string, details: map<string, string>, now: int)
    requires key in tasks && TaskOk(key, tasks[key])
    ensures TaskOk(key, Recovered(tasks, details, now)[key])
  {
  }

  lemma StepKeepsTaskOk(s: Store, e: Event)
    requires TaskInv(s) && Enabled(s, e)
    ensures forall k :: k in TasksAfter(s, e) ==> TaskOk(k, TasksAfter(s, e)[k])
  {
    match e
    case Submit(owner, id, now, days) =>
    case Begin(key, now) => UpdateKeeps(s.tasks, key, Change(Some(Running), Some(""), None, map[]), now);
    case Progress(key, now) => UpdateKeeps(s.tasks, key, Change(None, None, None, map[]), now);
    case Succeed(key, now) => UpdateKeeps(s.tasks, key, Change(Some(Success), Some(""), None, NoDetails()), now);
    case Fail(key, error, conversation, details, now) =>
      UpdateKeeps(s.tasks, key, Change(Some(Error), Some(error), if conversation != "" then Some(conversation) else None, DetailsIn(details)), now);
    case Resume(owner, id, now) =>
      if CanResume(s.tasks, Key(owner, id)) {
        UpdateKeeps(s.tasks, Key(owner, id), Change(Some(Running), Some(""), None, NoDetails()), now);
      }
    case ListTasks(now, days) =>
    case Restart(details, now, days) =>
      forall k | k in TasksAfter(s, e) ensures TaskOk(k, TasksAfter(s, e)[k]) {
        RestartKeeps(s, details, now, days, k);
      }
  }

  predicate Unfinished(tasks: Tasks, k: string) {
    k in tasks && !IsFinished(tasks[k].status)
  }

  ghost predicate WorkersMatch(s: Store) {
    forall k :: s.workers[k] == if Unfinished(s.tasks, k) then 1 else 0
  }

  /** An update ends or starts the one worker of its task with the task's change of status. */
  lemma UpdateKeepsWorkers(tasks: Tasks, key: string, c: Change, now: int, k: string)
    ensures Unfinished(Updated(tasks, key, c, now), k) <==>
            if k == key && k in tasks && c.status.Some? then !IsFinished(c.status.value) else Unfinished(tasks, k)
  {
  }

  lemma SubmitKeepsWorkers(s: Store, owner: string, id: string, now: int, days: int, k: string)
    requires WorkersMatch(s)
    ensures WorkersAfter(s, Submit(owner, id, now, days))[k] == if Unfinished(TasksAfter(s, Submit(owner, id, now, days)), k) then 1 else 0
  {
    assert s.workers[k] == if Unfinished(s.tasks, k) then 1 else 0;
  }

  lemma WorkerStepKeepsWorkers(s: Store, e: Event, k: string)
    requires WorkersMatch(s) && Enabled(s, e) && (e.Begin? || e.Progress? || e.Succeed?)
    ensures WorkersAfter(s, e)[k] == if Unfinished(TasksAfter(s, e), k) then 1 else 0
  {
    assert s.workers[k] == if Unfinished(s.tasks, k) then 1 else 0;
    match e
    case Begin(key, now) => UpdateKeepsWorkers(s.tasks, key, Change(Some(Running), Some(""), None, map[]), now, k);
    case Progress(key, now) => UpdateKeepsWorkers(s.tasks, key, Change(None, None, None, map[]), now, k);
    case Succeed(key, now) => UpdateKeepsWorkers(s.tasks, key, Change(Some(Success), Some(""), None, NoDetails()), now, k);
  }

  lemma FailKeepsWorkers(s: Store, e: Event, k: string)
    requires WorkersMatch(s) && Enabled(s, e) && e.Fail?
    ensures WorkersAfter(s, e)[k] == if Unfinished(TasksAfter(s, e), k) then 1 else 0
  {
    assert s.workers[k] == if Unfinished(s.tasks, k) then 1 else 0;
    var c := Change(Some(Error), Some(e.error), if e.conversation != "" then Some(e.conversation) else None, DetailsIn(e.details));
    UpdateKeepsWorkers(s.tasks, e.key, c, e.now, k);
  }

  lemma ResumeKeepsWorkers(s: Store, owner: string, id: string, now: int, k: string)
    requires WorkersMatch(s)
    ensures WorkersAfter(s, Resume(owner, id, now))[k] == if Unfinished(TasksAfter(s, Resume(owner, id, now)), k) then 1 else 0
  {
    assert s.workers[k] == if Unfinished(s.tasks, k) then 1 else 0;
    UpdateKeepsWorkers(s.tasks, Key(owner, id), Change(Some(Running), Some(""), None, NoDetails()), now, k);
  }

  lemma StepKeepsWorkers(s: Store, e: Event, k: string)
    requires WorkersMatch(s) && Enabled(s, e) && !e.Restart?
    ensures WorkersAfter(s, e)[k] == if Unfinished(TasksAfter(s, e), k) then 1 else 0
  {
    match e
    case Submit(owner, id, now, days) => SubmitKeepsWorkers(s, owner, id, now, days, k);
    case Fail(_, _, _, _, _) => FailKeepsWorkers(s, e, k);
    case Resume(owner, id, now) => ResumeKeepsWorkers(s, owner, id, now, k);
    case ListTasks(now, days) => assert s.workers[k] == if Unfinished(s.tasks, k) then 1 else 0;
    case _ => WorkerStepKeepsWorkers(s, e, k);
  }

  lemma StepKeepsTasks(s: Store, e: Event, t: Store)
    requires TaskInv(s) && Enabled(s, e) && IsStep(s, e, t)
    ensures TaskInv(t)
  {
    StepKeepsTaskOk(s, e);
    forall k ensures t.workers[k] == if Unfinished(t.tasks, k) then 1 else 0 {
      if e.Restart? {
        if k in t.tasks {
          AfterRestart(s, e.details, e.now, e.retentionDays, k);
        }
      } else {
        StepKeepsWorkers(s, e, k);
      }
    }
  }

  // ---- Runs ----

  ghost predicate IsRun(stores: seq<Store>, events: seq<Event>) {
    && |stores| == |events| + 1
    && stores[0] == Store(map[], multiset{}, [])
    && forall i :: 0 <= i < |events| ==> Enabled(stores[i], events[i]) && IsStep(stores[i], events[i], stores[i + 1])
  }

  /** In every run, restarts included: one worker for every unfinished task, none for any other, no failure
      details but on failed tasks. */
  lemma {:induction false} TasksInEveryRun(stores: seq<Store>, events: seq<Event>, n: nat)
    requires IsRun(stores, events) && n < |stores|
    ensures TaskInv(stores[n])
  {
    if n > 0 {
      TasksInEveryRun(stores, events, n - 1);
      StepKeepsTasks(stores[n - 1], events[n - 1], stores[n]);
    }
  }

  lemma {:induction false} AllItemsAreLoaded(items: seq<Task>, t: Task)
    requires t in items && t.id != "" && t.owner != ""
    ensures Key(t.owner, t.id) in LoadAll(items)
  {
    if t in items[..|items| - 1] {
      AllItemsAreLoaded(items[..|items| - 1], t);
    } else {
      assert t == items[|items| - 1];
    }
  }

  /** What a restart keeps: a saved task is gone afterwards if and only if it had failed or succeeded long ago;
      an unfinished one has become an interrupted failure. */
  lemma RestartKeepsIff(s: Store, details: map<string, string>, now: int, days: int, key: string)
    requires TaskInv(s) && key in s.tasks
    ensures var after := TasksAfter(s, Restart(details, now, days));
            && (key in after <==> !IsOver(s.tasks[key], now, days))
            && (key in after ==> after[key].status == if s.tasks[key].status == Success then Success else Error)
  {
    OverIsExpired(s.tasks[key], now, days);
    RestartDrops(s, details, now, days, key);
  }

  lemma RestartDrops(s: Store, details: map<string, string>, now: int, days: int, key: string)
    requires TaskInv(s) && key in s.tasks
    ensures var after := TasksAfter(s, Restart(details, now, days));
            && (key in after <==> !Expired(s.tasks[key], Cutoff(now, days)))
            && (key in after ==> after[key].status == if s.tasks[key].status == Success then Success else Error)
  {
    ReadBack(s, key);
  }

  lemma ReadBack(s: Store, key: string)
    requires TaskInv(s) && key in s.tasks
    ensures key in LoadAll(s.file) && LoadAll(s.file)[key] == Loaded(s.tasks[key])
  {
    assert TaskOk(key, s.tasks[key]);
    var t :| t in s.file && Key(t.owner, t.id) == key;
    assert Loaded(t).owner == t.owner && Loaded(t).id == t.id;
    AllItemsAreLoaded(s.file, t);
    LoadedTasks(s.file, key);
  }

  /** A file that was just read lists what was read. */
  lemma LoadedIsSaved(s: Store)
    requires TaskInv(s)
    ensures IsSaved(LoadAll(s.file), s.file)
  {
    var tasks := LoadAll(s.file);
    forall t | t in s.file ensures Key(t.owner, t.id) in tasks && Loaded(tasks[Key(t.owner, t.id)]) == Loaded(t) {
      ReadBack(s, Key(t.owner, t.id));
    }
    forall k | k in tasks ensures exists t :: t in s.file && Key(t.owner, t.id) == k {
      LoadedTasks(s.file, k);
    }
  }

  /** The one way out of a failure: a failed task that is still kept and is no longer failed was resumed, with
      a stored poll timeout and a conversation id. Restarts are no way out. */
  lemma OnlyResumeLeavesError(s: Store, e: Event, key: string)
    requires TaskInv(s) && Enabled(s, e)
    requires key in s.tasks && s.tasks[key].status == Error
    requires e.Submit? ==> !IsOver(s.tasks[key], e.now, e.retentionDays)
    requires key in TasksAfter(s, e) && TasksAfter(s, e)[key].status != Error
    ensures e.Resume? && key == Key(e.owner, e.id) && CanResume(s.tasks, key)
  {
    if e.Restart? {
      RestartKeepsIff(s, e.details, e.now, e.retentionDays, key);
    } else {
      assert s.workers[key] == 0;
    }
  }

  /** A step only ever removes finished tasks whose retention is over, restarts included. */
  lemma OnlyFinishedTasksAreRemoved(s: Store, e: Event, key: string)
    requires TaskInv(s) && key in s.tasks && key !in TasksAfter(s, e)
    ensures (e.Submit? || e.ListTasks? || e.Restart?) && IsOver(s.tasks[key], e.now, e.retentionDays)
  {
    if e.Restart? {
      RestartKeepsIff(s, e.details, e.now, e.retentionDays, key);
    }
  }

  /** Submitting a task again while it is kept changes neither the task nor the workers. */
  lemma ResubmissionStartsNothing(s: Store, owner: string, id: string, now: int, days: int)
    requires TaskInv(s) && Key(owner, id) in s.tasks && !IsOver(s.tasks[Key(owner, id)], now, days)
    ensures TasksAfter(s, Submit(owner, id, now, days)) == Cleaned(s.tasks, Cutoff(now, days)) || id == ""
    ensures WorkersAfter(s, Submit(owner, id, now, days)) == s.workers
    ensures TasksAfter(s, Submit(owner, id, now, days))[Key(owner, id)] == s.tasks[Key(owner, id)]
  {
  }

  // ---- What a task is told ----

  /** The event ends, resumes or starts anew what the key stands for: a restart, a resumed poll, or a clean-up
      after its retention. */
  predicate Clears(s: Store, e: Event, key: string)
    requires key in s.tasks
  {
    || e.Restart?
    || (e.Resume? && Key(e.owner, e.id) == key)
    || ((e.ListTasks? || (e.Submit? && e.id != "")) && IsOver(s.tasks[key], e.now, e.retentionDays))
  }

  /** A worker reports a poll timeout, and the conversation is known, from this report or an earlier one. */
  predicate ReportsTimeout(s: Store, e: Event, key: string) {
    && e.Fail? && e.key == key && key in s.tasks
    && "error_code" in e.details && e.details["error_code"] in POLL_TIMEOUT_CODES
    && (e.conversation != "" || s.tasks[key].conversation != "")
  }

  lemma FailedTask(s: Store, e: Event, key: string)
    requires TaskInv(s) && Enabled(s, e) && e.Fail? && e.key == key
    ensures key in s.tasks && s.tasks[key].details == map[]
    ensures var t := TasksAfter(s, e)[key];
            && t.status == Error && t.error == e.error
            && t.conversation == (if e.conversation != "" then e.conversation else s.tasks[key].conversation)
            && (forall k :: k in t.details <==> k in e.details && k in DETAIL_KEYS && e.details[k] != "")
            && (forall k :: k in t.details ==> t.details[k] == e.details[k])
  {
    assert s.workers[key] == if Unfinished(s.tasks, key) then 1 else 0;
    assert TaskOk(key, s.tasks[key]);
  }

  lemma FailureResumesIff(s: Store, e: Event, key: string)
    requires TaskInv(s) && Enabled(s, e) && e.Fail? && e.key == key
    ensures CanResume(TasksAfter(s, e), key) <==> ReportsTimeout(s, e, key)
  {
    FailedTask(s, e, key);
    assert "error_code" in DETAIL_KEYS;
  }

  /** The event leaves the task as resumable as it was, unless it clears it. */
  ghost predicate KeepsResumable(s: Store, e: Event, key: string) {
    CanResume(TasksAfter(s, e), key) <==> CanResume(s.tasks, key) && !Clears(s, e, key)
  }

  lemma WorkerKeepsResumable(s: Store, e: Event, key: string)
    requires TaskInv(s) && Enabled(s, e) && (e.Begin? || e.Progress? || e.Succeed? || e.Fail?)
    requires e.Fail? ==> e.key != key
    ensures KeepsResumable(s, e, key)
  {
    if e.key == key {
      assert s.workers[key] == if Unfinished(s.tasks, key) then 1 else 0;
    }
  }

  lemma CleaningKeepsResumable(s: Store, e: Event, key: string)
    requires e.Submit? || e.ListTasks?
    ensures KeepsResumable(s, e, key)
  {
  }

  lemma ResumingKeepsResumable(s: Store, e: Event, key: string)
    requires e.Resume?
    ensures KeepsResumable(s, e, key)
  {
  }

  lemma ResumableStep(s: Store, e: Event, key: string)
    requires TaskInv(s) && Enabled(s, e)
    ensures CanResume(TasksAfter(s, e), key) <==> ReportsTimeout(s, e, key) || (CanResume(s.tasks, key) && !Clears(s, e, key))
  {
    if e.Fail? && e.key == key {
      FailureResumesIff(s, e, key);
      assert s.workers[key] == if Unfinished(s.tasks, key) then 1 else 0;
    } else if e.Restart? {
      if key in TasksAfter(s, e) {
        AfterRestart(s, e.details, e.now, e.retentionDays, key);
      }
    } else if e.Submit? || e.ListTasks? {
      CleaningKeepsResumable(s, e, key);
    } else if e.Resume? {
      ResumingKeepsResumable(s, e, key);
    } else {
      WorkerKeepsResumable(s, e, key);
    }
  }

  /** Between the two steps nothing clears the task, which is there throughout. */
  ghost predicate Uncleared(stores: seq<Store>, events: seq<Event>, key: string, i: nat, n: nat)
    requires |events| < |stores| && n <= |events|
  {
    forall j :: i <= j < n ==> key in stores[j].tasks && !Clears(stores[j], events[j], key)
  }

  lemma UnclearedStep(stores: seq<Store>, events: seq<Event>, key: string, i: nat, m: nat, n: nat)
    requires |events| < |stores| && n <= |events| && i <= m && n == m + 1
    ensures Uncleared(stores, events, key, i, n) <==>
            Uncleared(stores, events, key, i, m) && key in stores[m].tasks && !Clears(stores[m], events[m], key)
  {
  }

  /** The poll of a task was reported to have timed out, and nothing cleared the task since. */
  ghost predicate TimedOutSince(stores: seq<Store>, events: seq<Event>, key: string, n: nat)
    requires |events| < |stores| && n <= |events|
  {
    exists i: nat :: i < n && ReportsTimeout(stores[i], events[i], key) && Uncleared(stores, events, key, i + 1, n)
  }

  lemma TimedOutStep(stores: seq<Store>, events: seq<Event>, key: string, m: nat, n: nat)
    requires |events| < |stores| && n <= |events| && n == m + 1
    requires TimedOutSince(stores, events, key, m) ==> key in stores[m].tasks
    ensures TimedOutSince(stores, events, key, n) <==>
            || ReportsTimeout(stores[m], events[m], key)
            || (TimedOutSince(stores, events, key, m) && !Clears(stores[m], events[m], key))
  {
    if i: nat :| i < n && ReportsTimeout(stores[i], events[i], key) && Uncleared(stores, events, key, i + 1, n) {
      if i < m {
        UnclearedStep(stores, events, key, i + 1, m, n);
      }
    }
    if i: nat :| i < m && ReportsTimeout(stores[i], events[i], key) && Uncleared(stores, events, key, i + 1, m) {
      UnclearedStep(stores, events, key, i + 1, m, n);
    }
    if ReportsTimeout(stores[m], events[m], key) {
      assert Uncleared(stores, events, key, m + 1, n);
    }
  }

  /** In every run, a poll can be resumed if and only if its timeout was reported while the conversation was
      known, and since then the task was neither resumed nor cleaned up nor read back after a restart. */
  lemma {:induction false} ResumableIff(stores: seq<Store>, events: seq<Event>, key: string, n: nat)
    requires IsRun(stores, events) && n < |stores|
    ensures CanResume(stores[n].tasks, key) <==> TimedOutSince(stores, events, key, n)
  {
    if n > 0 {
      var m: nat := n - 1;
      ResumableIff(stores, events, key, m);
      TasksInEveryRun(stores, events, m);
      ResumableStep(stores[m], events[m], key);
      TimedOutStep(stores, events, key, m, n);
    }
  }

  /** What is said of a task: its status, its error text, and when it was last heard of. */
  datatype Report = Report(status: Status, error: string, at: int)

  function ReportOf(t: Task): Report {
    Report(t.status, t.error, t.updatedAt)
  }

  /** What an event says of the task of a key, if it says anything. */
  function Said(s: Store, e: Event, key: string): Option<Report> {
    match e
    case Begin(k, now) => if k == key then Some(Report(Running, "", now)) else None
    case Progress(k, now) => if k == key && key in s.tasks then Some(Report(s.tasks[key].status, s.tasks[key].error, now)) else None
    case Succeed(k, now) => if k == key then Some(Report(Success, "", now)) else None
    case Fail(k, error, _, _, now) => if k == key then Some(Report(Error, error, now)) else None
    case Resume(owner, id, now) => if Key(owner, id) == key && CanResume(s.tasks, key) then Some(Report(Running, "", now)) else None
    case Submit(owner, id, now, days) =>
      if Key(owner, id) == key && id != "" && (key !in s.tasks || IsOver(s.tasks[key], now, days)) then Some(Report(Queued, "", now)) else None
    case Restart(_, now, _) => if key in s.tasks && !IsFinished(s.tasks[key].status) then Some(Report(Error, INTERRUPTED, now)) else None
    case _ => None
  }

  /** What the run last said of the task. */
  ghost function LastSaid(stores: seq<Store>, events: seq<Event>, key: string, n: nat): Option<Report>
    requires |events| < |stores| && n <= |events|
  {
    if n == 0 then None
    else
      var said := Said(stores[n - 1], events[n - 1], key);
      if said.Some? then said else LastSaid(stores, events, key, n - 1)
  }

  /** The event leaves the task as it says, or says nothing and leaves it as it was. */
  ghost predicate IsSaid(s: Store, e: Event, key: string) {
    key in TasksAfter(s, e) ==>
      var said := Said(s, e, key);
      if said.Some? then ReportOf(TasksAfter(s, e)[key]) == said.value
      else key in s.tasks && ReportOf(TasksAfter(s, e)[key]) == ReportOf(s.tasks[key])
  }

  lemma WorkerSays(s: Store, e: Event, key: string)
    requires e.Begin? || e.Progress? || e.Succeed? || e.Fail?
    ensures IsSaid(s, e, key)
  {
  }

  lemma CallerSays(s: Store, e: Event, key: string)
    requires e.Submit? || e.ListTasks? || e.Resume?
    ensures IsSaid(s, e, key)
  {
  }

  lemma RestartSays(s: Store, details: map<string, string>, now: int, days: int, key: string)
    requires TaskInv(s) && key in TasksAfter(s, Restart(details, now, days))
    ensures key in s.tasks
    ensures ReportOf(TasksAfter(s, Restart(details, now, days))[key]) ==
            if IsFinished(s.tasks[key].status) then ReportOf(s.tasks[key]) else Report(Error, INTERRUPTED, now)
  {
    LoadedTasks(s.file, key);
    var t :| t in s.file && key == Key(t.owner, t.id) && t.id != "" && t.owner != "" && LoadAll(s.file)[key] == Loaded(t);
    ReadBack(s, key);
  }

  /** A restart that finds a task unfinished stores the failure details it is given, as far as they are of the
      known kinds and not blank, and nothing else. */
  lemma InterruptedTask(s: Store, details: map<string, string>, now: int, days: int, key: string)
    requires TaskInv(s) && key in s.tasks && !IsFinished(s.tasks[key].status)
    ensures key in TasksAfter(s, Restart(details, now, days))
    ensures var t := TasksAfter(s, Restart(details, now, days))[key];
            && t.owner == s.tasks[key].owner && t.id == s.tasks[key].id && t.conversation == ""
            && (forall k :: k in t.details <==> k in details && k in DETAIL_KEYS && details[k] != "")
            && (forall k :: k in t.details ==> t.details[k] == details[k])
  {
    ReadBack(s, key);
    assert TaskOk(key, s.tasks[key]);
    RestartKeepsIff(s, details, now, days, key);
  }

  lemma StepSays(s: Store, e: Event, key: string)
    requires TaskInv(s) && Enabled(s, e)
    ensures IsSaid(s, e, key)
  {
    if e.Restart? {
      if key in TasksAfter(s, e) {
        RestartSays(s, e.details, e.now, e.retentionDays, key);
      }
    } else if e.Submit? || e.ListTasks? || e.Resume? {
      CallerSays(s, e, key);
    } else {
      WorkerSays(s, e, key);
    }
  }

  /** In every run, restarts included, a task is what was last said of it: queued when it was submitted, running
      when its worker began or its poll was resumed, then what its worker reported, or an interrupted failure
      if a restart found it unfinished; with the error text of that failure or none, and the time of the last
      word about it. */
  lemma {:induction false} TaskIsLastSaid(stores: seq<Store>, events: seq<Event>, key: string, n: nat)
    requires IsRun(stores, events) && n < |stores| && key in stores[n].tasks
    ensures LastSaid(stores, events, key, n) == Some(ReportOf(stores[n].tasks[key]))
  {
    if n > 0 {
      var m: nat := n - 1;
      TasksInEveryRun(stores, events, m);
      StepSays(stores[m], events[m], key);
      if Said(stores[m], events[m], key).None? {
        TaskIsLastSaid(stores, events, key, m);
      }
    }
  }
}
