/** The image task service: the task table, its worker threads and its file, changed in place. */
module ImageTaskService {
  import opened Sequences
  import opened ImageTasks

  /** A task put into a list sorted by its last update, newest first. */
  function InsertNewest(s: seq<Task>, t: Task): (r: seq<Task>)
    ensures forall x :: x in r <==> x in s || x == t
  {
    if s == [] || s[0].updatedAt < t.updatedAt then [t] + s else [s[0]] + InsertNewest(s[1..], t)
  }

  lemma PatchOne(details: map<string, string>, done: map<string, string>, k: string, text: string)
    requires k !in done
    ensures Patched(details, done[k := text]) ==
            if text == "" then Patched(details, done) - {k} else Patched(details, done)[k := text]
  {
  }

  /** The loop over the fields of an update; blank details are removed. */
  method Patch(details: map<string, string>, patch: map<string, string>) returns (r: map<string, string>)
    ensures r == Patched(details, patch)
  {
    r := details;
    var todo := patch.Keys;
    ghost var done: map<string, string> := map[];
    while todo != {}
      invariant todo <= patch.Keys && done == map k | k in patch && k !in todo :: patch[k]
      invariant r == Patched(details, done)
      decreases todo
    {
      var k :| k in todo;
      todo := todo - {k};
      PatchOne(details, done, k, patch[k]);
      done := done[k := patch[k]];
      if patch[k] == "" {
        r := r - {k};
      } else {
        r := r[k := patch[k]];
      }
    }
    assert done == patch;
  }

  /** The fields of an update written over a task. */
  method ChangeTask(t: Task, c: Change, now: int) returns (task: Task)
    ensures task == Changed(t, c, now)
  {
    task := t;
    var details := Patch(task.details, c.details);
    if c.status.Some? {
      task := task.(status := c.status.value);
    }
    if c.error.Some? {
      task := task.(error := c.error.value);
    }
    if c.conversation.Some? {
      task := task.(conversation := c.conversation.value);
    }
    task := task.(details := details, updatedAt := now);
  }

  class ImageTaskService {
    var tasks: Tasks
    var workers: multiset<string>
    var file: seq<Task>

    function State(): Store
      reads this
    {
      Store(tasks, workers, file)
    }

    constructor ()
      ensures State() == Store(map[], multiset{}, []) && TaskInv(State())
    {
      tasks, workers, file := map[], multiset{}, [];
    }

    /** `_save_locked`. */
    method Save()
      requires forall k :: k in tasks ==> k == Key(tasks[k].owner, tasks[k].id)
      modifies this`file
      ensures IsSaved(tasks, file)
    {
      var items: seq<Task> := [];
      var todo := tasks.Keys;
      while todo != {}
        invariant todo <= tasks.Keys
        invariant forall t :: t in items ==> Key(t.owner, t.id) in tasks && tasks[Key(t.owner, t.id)] == t
        invariant forall k :: k in tasks && k !in todo ==> tasks[k] in items && Key(tasks[k].owner, tasks[k].id) == k
        decreases todo
      {
        var k :| k in todo;
        todo := todo - {k};
        items := InsertNewest(items, tasks[k]);
      }
      file := items;
    }

    /** `_update_task`. */
    method Update(key: string, c: Change, now: int)
      requires TaskInv(State())
      modifies this`tasks, this`file
      ensures tasks == Updated(old(tasks), key, c, now)
      ensures IsSaved(tasks, file)
    {
      if key !in tasks {
        return;
      }
      var task := ChangeTask(tasks[key], c, now);
      forall k | k in tasks ensures k == Key(tasks[k].owner, tasks[k].id) {
        assert TaskOk(k, tasks[k]);
      }
      tasks := tasks[key := task];
      Save();
    }

    /** `_cleanup_locked`. */
    method Cleanup(cutoff: int) returns (removed: bool)
      modifies this`tasks
      ensures tasks == Cleaned(old(tasks), cutoff)
      ensures removed <==> tasks != old(tasks)
    {
      var gone := set k | k in tasks && Expired(tasks[k], cutoff);
      tasks := tasks - gone;
      removed := gone != {};
    }

    /** The locked part of `_submit`, and the start of the new task's thread. */
    method SubmitLocked(owner: string, id: string, now: int, cutoff: int) returns (started: bool)
      requires forall k :: k in tasks ==> k == Key(tasks[k].owner, tasks[k].id)
      requires IsSaved(tasks, file)
      modifies this
      ensures started <==> Key(owner, id) !in Cleaned(old(tasks), cutoff)
      ensures tasks == if started then Cleaned(old(tasks), cutoff)[Key(owner, id) := Fresh(owner, id, now)] else Cleaned(old(tasks), cutoff)
      ensures workers == if started then old(workers) + multiset{Key(owner, id)} else old(workers)
      ensures IsSaved(tasks, file)
    {
      var removed := Cleanup(cutoff);
      var key := Key(owner, id);
      started := key !in tasks;
      if started {
        tasks := tasks[key := Fresh(owner, id, now)];
        Save();
        workers := workers + multiset{key};
      } else if removed {
        Save();
      }
    }

    /** `_submit`. */
    method Submit(owner: string, id: string, now: int, retentionDays: int) returns (started: bool)
      requires TaskInv(State()) && owner != ""
      modifies this
      ensures IsStep(old(State()), ImageTasks.Submit(owner, id, now, retentionDays), State())
      ensures TaskInv(State())
      ensures started <==> id != "" && Key(owner, id) !in Cleaned(old(tasks), Cutoff(now, retentionDays))
    {
      ghost var was := State();
      KeysMatch(was);
      started := false;
      if id != "" {
        started := SubmitLocked(owner, id, now, Cutoff(now, retentionDays));
      }
      StepKeepsTasks(was, ImageTasks.Submit(owner, id, now, retentionDays), State());
    }

    /** The first update of a worker, and its progress reports. */
    method Report(key: string, begin: bool, now: int)
      requires TaskInv(State()) && key in workers
      modifies this
      ensures IsStep(old(State()), if begin then Begin(key, now) else Progress(key, now), State())
      ensures TaskInv(State())
    {
      ghost var was := State();
      if begin {
        Update(key, Change(Some(Running), Some(""), None, map[]), now);
        StepKeepsTasks(was, Begin(key, now), State());
      } else {
        Update(key, Change(None, None, None, map[]), now);
        StepKeepsTasks(was, Progress(key, now), State());
      }
    }

    /** The last update of a worker that has a result. */
    method Finish(key: string, now: int)
      requires TaskInv(State()) && key in workers
      modifies this
      ensures IsStep(old(State()), Succeed(key, now), State()) && TaskInv(State())
    {
      ghost var was := State();
      Update(key, Change(Some(Success), Some(""), None, NoDetails()), now);
      workers := workers - multiset{key};
      StepKeepsTasks(was, Succeed(key, now), State());
    }

    /** The last update of a worker that failed. */
    method GiveUp(key: string, error: string, conversation: string, details: map<string, string>, now: int)
      requires TaskInv(State()) && key in workers
      modifies this
      ensures IsStep(old(State()), Fail(key, error, conversation, details, now), State()) && TaskInv(State())
    {
      ghost var was := State();
      Update(key, Change(Some(Error), Some(error), if conversation != "" then Some(conversation) else None, DetailsIn(details)), now);
      workers := workers - multiset{key};
      StepKeepsTasks(was, Fail(key, error, conversation, details, now), State());
    }

    /** `resume_poll`; false stands for the errors it raises. */
    method ResumePoll(owner: string, id: string, now: int) returns (resumed: bool)
      requires TaskInv(State())
      modifies this
      ensures IsStep(old(State()), Resume(owner, id, now), State()) && TaskInv(State())
      ensures resumed <==> CanResume(old(tasks), Key(owner, id))
    {
      ghost var was := State();
      var key := Key(owner, id);
      resumed := false;
      if key in tasks && tasks[key].status == Error {
        var code := if "error_code" in tasks[key].details then tasks[key].details["error_code"] else "";
        if code in POLL_TIMEOUT_CODES && tasks[key].conversation != "" {
          Update(key, Change(Some(Running), Some(""), None, NoDetails()), now);
          workers := workers + multiset{key};
          resumed := true;
        }
      }
      StepKeepsTasks(was, Resume(owner, id, now), State());
    }

    /** `list_tasks`, as far as it changes anything. */
    method List(now: int, retentionDays: int)
      requires TaskInv(State())
      modifies this
      ensures IsStep(old(State()), ListTasks(now, retentionDays), State()) && TaskInv(State())
    {
      ghost var was := State();
      KeysMatch(was);
      var removed := Cleanup(Cutoff(now, retentionDays));
      if removed {
        Save();
      }
      StepKeepsTasks(was, ListTasks(now, retentionDays), State());
    }

    /** `_recover_unfinished_locked`. */
    method Recover(details: map<string, string>, now: int) returns (changed: bool)
      modifies this`tasks
      ensures tasks == Recovered(old(tasks), details, now)
      ensures !changed ==> tasks == old(tasks)
    {
      changed := false;
      var todo := tasks.Keys;
      while todo != {}
        invariant todo <= tasks.Keys == old(tasks).Keys
        invariant forall k :: k in tasks ==> tasks[k] == if k in todo then old(tasks)[k] else Recovered(old(tasks), details, now)[k]
        invariant !changed ==> tasks == old(tasks)
        decreases todo
      {
        var k :| k in todo;
        todo := todo - {k};
        if !IsFinished(tasks[k].status) {
          tasks := tasks[k := Changed(tasks[k], Interrupted(details), now)];
          changed := true;
        }
      }
    }

    /** `_load_locked`. */
    method Load()
      modifies this`tasks
      ensures tasks == LoadAll(file)
    {
      tasks := map[];
      for i := 0 to |file|
        invariant tasks == LoadAll(file[..i])
      {
        assert file[..i + 1][..i] == file[..i];
        var item := file[i];
        if item.id != "" && item.owner != "" {
          tasks := tasks[Key(item.owner, item.id) := Loaded(item)];
        }
      }
      assert file[..|file|] == file;
    }

    /** A restart of the process: the threads are gone, the constructor loads, recovers and cleans up. */
    method StartUp(details: map<string, string>, now: int, retentionDays: int)
      requires TaskInv(State())
      modifies this
      ensures IsStep(old(State()), Restart(details, now, retentionDays), State()) && TaskInv(State())
      ensures forall k :: k in tasks ==> IsFinished(tasks[k].status)
    {
      ghost var was := State();
      workers := multiset{};
      Load();
      var recovered := Recover(details, now);
      var removed := Cleanup(Cutoff(now, retentionDays));
      StepKeepsTaskOk(was, Restart(details, now, retentionDays));
      assert tasks == TasksAfter(was, Restart(details, now, retentionDays));
      forall k | k in tasks ensures k == Key(tasks[k].owner, tasks[k].id) && IsFinished(tasks[k].status) {
        assert TaskOk(k, tasks[k]);
        AfterRestart(was, details, now, retentionDays, k);
      }
      if recovered || removed {
        Save();
      } else {
        LoadedIsSaved(was);
      }
      StepKeepsTasks(was, Restart(details, now, retentionDays), State());
    }
  }

  lemma KeysMatch(s: Store)
    requires TaskInv(s)
    ensures forall k :: k in s.tasks ==> k == Key(s.tasks[k].owner, s.tasks[k].id)
  {
    forall k | k in s.tasks ensures k == Key(s.tasks[k].owner, s.tasks[k].id) {
      assert TaskOk(k, s.tasks[k]);
    }
  }
}
