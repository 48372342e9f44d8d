/** The life of jobs: submitted, started, paused, continued, retried, finished, kept in a
    store, and swept when a process starts again. */
module Jobs {
  import opened Text

  /** Stands for the generated unique names; a later job has a greater one. */
  type Id = nat

  datatype Status = Pending | Queued | Created | Running | Paused | Completing | Finished | Error | Cancelled | Failed
                  | Interrupted | NeedsContinuation

  datatype Checkpoint = Checkpoint(step: nat, planId: string, completed: seq<string>)

  datatype Job = Job(task: string, status: Status, strategy: string, checkpoint: Option<Checkpoint>,
                     retryCount: nat, maxRetries: int, error: string, result: string,
                     resumedFrom: Option<Id>, retryOf: Option<Id>, reopened: bool)

  /** How a job came to be. */
  datatype Link = Submitted | Retried(parent: Id) | Continued(parent: Id)

  /** jobs is the manager's memory, store the files on disk, links the history of the run. */
  datatype State = State(jobs: map<Id, Job>, store: map<Id, Job>, links: map<Id, Link>, next: Id, saves: nat)

  const DEFAULT_RETRIES := 2

  predicate Terminal(s: Status) {
    s in {Finished, Error, Failed, Cancelled, Interrupted}
  }

  /** Finished for good: unlike Interrupted, not to be continued. */
  predicate Dead(s: Status) {
    s in {Finished, Error, Failed, Cancelled}
  }

  predicate Interruptible(s: Status) {
    s in {Running, Completing, Created, Pending, Queued}
  }

  predicate CanResume(j: Job) {
    j.status in {Paused, NeedsContinuation} && j.checkpoint.Some?
  }

  // ---- the operations, on values ----

  /** saved(k): whether the k-th save succeeds; a failed save is only logged. */
  function Save(s: State, id: Id, saved: nat -> bool): State
    requires id in s.jobs
  {
    s.(store := if saved(s.saves) then s.store[id := s.jobs[id]] else s.store, saves := s.saves + 1)
  }

  function Update(s: State, id: Id, j: Job, saved: nat -> bool): State {
    Save(s.(jobs := s.jobs[id := j]), id, saved)
  }

  function Create(s: State, j: Job, link: Link, saved: nat -> bool): State {
    Save(s.(jobs := s.jobs[s.next := j], links := s.links[s.next := link], next := s.next + 1), s.next, saved)
  }

  function Fresh(task: string, strategy: string, maxRetries: int, status: Status): Job {
    Job(task, status, strategy, None, 0, maxRetries, "", "", None, None, false)
  }

  function ResumedJob(j: Job, id: Id): Job {
    Job(j.task, Queued, j.strategy, j.checkpoint, 0, DEFAULT_RETRIES, "", "", Some(id), j.retryOf, j.reopened)
  }

  function ReopenedJob(j: Job, id: Id): Job {
    Job(j.task, Queued, j.strategy, j.checkpoint, 0, j.maxRetries, "", "", Some(id), j.retryOf, true)
  }

  function RetriedJob(j: Job, id: Id): Job {
    Job(j.task, Queued, j.strategy, None, j.retryCount + 1, j.maxRetries, "", "", j.resumedFrom, Some(id), j.reopened)
  }

  function With(j: Job, checkpoint: Option<Checkpoint>): Job {
    if checkpoint.Some? then j.(checkpoint := checkpoint) else j
  }

  function Swept(j: Job): Job {
    if Interruptible(j.status) then j.(status := Interrupted) else j
  }

  /** mark_interrupted over the listed ids. */
  function Sweep(store: map<Id, Job>, saves: nat, ids: seq<Id>, saved: nat -> bool): (map<Id, Job>, nat)
    decreases |ids|
  {
    if ids == [] then (store, saves)
    else
      var (next, spent) := SweepOne(store, saves, ids[0], saved);
      Sweep(next, spent, ids[1..], saved)
  }

  function SweepOne(store: map<Id, Job>, saves: nat, id: Id, saved: nat -> bool): (map<Id, Job>, nat) {
    if id !in store || !Interruptible(store[id].status) then (store, saves)
    else (if saved(saves) then store[id := Swept(store[id])] else store, saves + 1)
  }

  datatype Op = Submit(task: string, strategy: string, maxRetries: int, status: Status)
              | Start(id: Id) | Pause(id: Id, checkpoint: Option<Checkpoint>) | Resume(id: Id) | Reopen(id: Id)
              | Cancel(id: Id) | Retry(id: Id) | Complete(id: Id, result: string, error: string)
              | Fail(id: Id, error: string)
              | Progress(id: Id, checkpoint: Option<Checkpoint>) | Restart(listing: seq<Id>)

  /** The job a reopen starts from: the one in memory, else the stored one. */
  function Original(s: State, id: Id): Option<Job> {
    if id in s.jobs then Some(s.jobs[id]) else if id in s.store then Some(s.store[id]) else None
  }

  function Apply(s: State, op: Op, saved: nat -> bool): State {
    match op
    case Submit(task, strategy, maxRetries, status) =>
      Create(s, Fresh(task, strategy, maxRetries, status), Submitted, saved)
    case Start(id) =>
      if id in s.jobs && s.jobs[id].status in {Pending, Queued, Created} then
        Update(s, id, s.jobs[id].(status := Running), saved)
      else s
    case Pause(id, checkpoint) =>
      if id in s.jobs && s.jobs[id].status == Running then
        Update(s, id, With(s.jobs[id].(status := Paused), checkpoint), saved)
      else s
    case Resume(id) =>
      if id in s.jobs && s.jobs[id].status == Paused && CanResume(s.jobs[id]) then
        Create(s, ResumedJob(s.jobs[id], id), Continued(id), saved)
      else s
    case Reopen(id) =>
      var original := Original(s, id);
      if original.Some? && !Dead(original.value.status) && original.value.checkpoint.Some? then
        Create(s, ReopenedJob(original.value, id), Continued(id), saved)
      else s
    case Cancel(id) =>
      if id in s.jobs && !Terminal(s.jobs[id].status) then Update(s, id, s.jobs[id].(status := Cancelled), saved) else s
    case Retry(id) =>
      if id in s.jobs && s.jobs[id].retryCount < s.jobs[id].maxRetries then
        Create(s, RetriedJob(s.jobs[id], id), Retried(id), saved)
      else s
    case Complete(id, result, error) =>
      if id in s.jobs then
        Update(s, id, if error != "" then s.jobs[id].(status := Error, error := error, result := result)
                      else s.jobs[id].(status := Finished, result := result), saved)
      else s
    case Fail(id, error) =>
      if id in s.jobs then
        Update(s, id, s.jobs[id].(status := Failed, error := if error != "" then error else s.jobs[id].error), saved)
      else s
    case Progress(id, checkpoint) =>
      if id in s.jobs then Update(s, id, With(s.jobs[id], checkpoint), saved) else s
    case Restart(listing) =>
      var (store, saves) := Sweep(s.store, s.saves, listing, saved);
      s.(jobs := map[], store := store, saves := saves)
  }

  function RunAll(s: State, ops: seq<Op>, saved: nat -> bool): State
    decreases |ops|
  {
    if ops == [] then s else RunAll(Apply(s, ops[0], saved), ops[1..], saved)
  }

  const START := State(map[], map[], map[], 0, 0)

  predicate NoRestart(ops: seq<Op>) {
    forall i :: 0 <= i < |ops| ==> !ops[i].Restart?
  }

  // ---- terminal jobs stay terminal ----

  lemma {:induction false} TerminalStays(s: State, ops: seq<Op>, saved: nat -> bool, id: Id)
    requires id in s.jobs && id < s.next && Terminal(s.jobs[id].status) && NoRestart(ops)
    ensures var t := RunAll(s, ops, saved); id in t.jobs && Terminal(t.jobs[id].status)
    decreases |ops|
  {
    if ops != [] {
      TerminalStep(s, ops[0], saved, id);
      TerminalStays(Apply(s, ops[0], saved), ops[1..], saved, id);
    }
  }

  lemma TerminalStep(s: State, op: Op, saved: nat -> bool, id: Id)
    requires id in s.jobs && id < s.next && Terminal(s.jobs[id].status) && !op.Restart?
    ensures var t := Apply(s, op, saved); id in t.jobs && id < t.next && Terminal(t.jobs[id].status)
  {
  }

  /** A job the store holds as terminal is terminal in memory too, if memory has it. */
  ghost predicate MemoryFollows(s: State) {
    && (forall id :: id in s.jobs || id in s.store ==> id < s.next)
    && (forall id :: id in s.store && id in s.jobs && Terminal(s.store[id].status) ==> Terminal(s.jobs[id].status))
  }

  /** One operation, a restart included: what the store holds as terminal it goes on holding
      as terminal. */
  predicate StoreKeeps(s: State, t: State) {
    forall id :: id in s.store && Terminal(s.store[id].status) ==> id in t.store && Terminal(t.store[id].status)
  }

  lemma {:induction false} SweepTerminal(store: map<Id, Job>, saves: nat, ids: seq<Id>, saved: nat -> bool)
    ensures var swept := Sweep(store, saves, ids, saved).0;
            && swept.Keys == store.Keys
            && forall id :: id in store && id in swept && Terminal(store[id].status) ==> swept[id] == store[id]
    decreases |ids|
  {
    if ids != [] {
      var (next, spent) := SweepOne(store, saves, ids[0], saved);
      SweepTerminal(next, spent, ids[1..], saved);
    }
  }

  lemma StoreStep(s: State, op: Op, saved: nat -> bool)
    requires MemoryFollows(s)
    ensures var t := Apply(s, op, saved); MemoryFollows(t) && StoreKeeps(s, t)
  {
    hide Sweep;
    if op.Restart? {
      SweepTerminal(s.store, s.saves, op.listing, saved);
    }
  }

  lemma {:induction false} StoreRun(s: State, ops: seq<Op>, saved: nat -> bool)
    requires MemoryFollows(s)
    ensures var t := RunAll(s, ops, saved); MemoryFollows(t) && StoreKeeps(s, t)
    decreases |ops|
  {
    hide Apply, MemoryFollows;
    if ops != [] {
      StoreStep(s, ops[0], saved);
      StoreRun(Apply(s, ops[0], saved), ops[1..], saved);
    }
  }

  /** Over every run, with restarts, sweeps and failed saves anywhere: a job that the store
      once holds as terminal is terminal in the store ever after. */
  lemma StoredTerminalStays(before: seq<Op>, after: seq<Op>, saved: nat -> bool, id: Id)
    requires var s := RunAll(START, before, saved); id in s.store && Terminal(s.store[id].status)
    ensures var t := RunAll(RunAll(START, before, saved), after, saved); id in t.store && Terminal(t.store[id].status)
  {
    hide RunAll, Terminal;
    StoreRun(START, before, saved);
    StoreRun(RunAll(START, before, saved), after, saved);
  }

  /** The move an operation makes on a job of the memory that it names. */
  function Move(op: Op, from: Status): Option<Status> {
    match op
    case Start(_) => if from in {Pending, Queued, Created} then Some(Running) else None
    case Pause(_, _) => if from == Running then Some(Paused) else None
    case Cancel(_) => if from in {Finished, Error, Failed, Cancelled, Interrupted} then None else Some(Cancelled)
    case Complete(_, _, error) => Some(if error == "" then Finished else Error)
    case Fail(_, _) => Some(Failed)
    case _ => None
  }

  predicate Names(op: Op, id: Id) {
    !op.Submit? && !op.Restart? && op.id == id
  }

  /** The checkpoint an operation hands over for a job it names. */
  function Given(op: Op, from: Status): Option<Checkpoint> {
    if op.Progress? || (op.Pause? && from == Running) then op.checkpoint else None
  }

  /** One operation changes no job but the one it names. That one makes its move, if the
      operation has one for it, takes over the checkpoint, result and error it is given, and
      keeps everything else. */
  lemma MovesOnly(s: State, op: Op, saved: nat -> bool, id: Id)
    requires id in s.jobs && id < s.next && !op.Restart?
    ensures var t := Apply(s, op, saved);
            && id in t.jobs
            && (!Names(op, id) ==> t.jobs[id] == s.jobs[id])
            && (Names(op, id) ==>
                  var j, k := s.jobs[id], t.jobs[id];
                  && k.status == (if Move(op, j.status).Some? then Move(op, j.status).value else j.status)
                  && k.checkpoint == (if Given(op, j.status).Some? then Given(op, j.status) else j.checkpoint)
                  && k.result == (if op.Complete? then op.result else j.result)
                  && k.error == (if (op.Complete? || op.Fail?) && op.error != "" then op.error else j.error)
                  && k.(status := j.status, checkpoint := j.checkpoint, result := j.result, error := j.error) == j)
  {
    hide Fresh, ResumedJob, ReopenedJob, RetriedJob, Dead, CanResume, Original;
  }

  /** A submitted job is as it was asked for, with nothing behind it yet; no other changes. */
  lemma SubmittedAsGiven(s: State, task: string, strategy: string, maxRetries: int, status: Status, saved: nat -> bool)
    requires s.next !in s.jobs
    ensures var t := Apply(s, Submit(task, strategy, maxRetries, status), saved);
            && t.jobs.Keys == s.jobs.Keys + {s.next} && t.next == s.next + 1
            && (forall id :: id in s.jobs ==> t.jobs[id] == s.jobs[id])
            && var j := t.jobs[s.next];
               && j.task == task && j.strategy == strategy && j.maxRetries == maxRetries && j.status == status
               && j.checkpoint == None && j.retryCount == 0 && j.error == "" && j.result == "" && !j.reopened
               && j.resumedFrom == None && j.retryOf == None && t.links == s.links[s.next := Submitted]
  {
  }

  /** The job of the memory that an operation saves: the new one or the one it names. */
  function Touched(s: State, t: State, op: Op): Id {
    if t.next != s.next || op.Submit? || op.Restart? then s.next else op.id
  }

  /** An operation that does nothing saves nothing. Every other one saves the one job it
      touched, as the memory has it then; when that fails the store stays as it was. */
  lemma OneSave(s: State, op: Op, saved: nat -> bool)
    requires !op.Restart?
    ensures var t := Apply(s, op, saved); var id := Touched(s, t, op);
            t == s ||
            (&& t.saves == s.saves + 1 && id in t.jobs && t.jobs.Keys <= s.jobs.Keys + {id}
             && t.store == if saved(s.saves) then s.store[id := t.jobs[id]] else s.store)
  {
  }

  // ---- continuing and retrying ----

  /** A continued or retried job is a new one for the same task, its parent is left as it
      was, and a continuation starts from the parent's checkpoint. */
  lemma AttemptsAreNew(s: State, op: Op, saved: nat -> bool)
    requires op.Resume? || op.Reopen? || op.Retry?
    requires s.next !in s.jobs && op.id != s.next
    ensures var t := Apply(s, op, saved);
            t == s ||
            (&& t.jobs.Keys == s.jobs.Keys + {s.next} && t.next == s.next + 1
             && (forall other :: other in s.jobs ==> t.jobs[other] == s.jobs[other])
             && (forall other :: other in s.store && other != s.next ==>
                 other in t.store && t.store[other] == s.store[other])
             && Original(s, op.id).Some? && var parent := Original(s, op.id).value; var job := t.jobs[s.next];
                && job.task == parent.task && job.strategy == parent.strategy && job.status == Queued
                && job.error == "" && job.result == ""
                && t.links == s.links[s.next := if op.Retry? then Retried(op.id) else Continued(op.id)]
                && job.reopened == (op.Reopen? || parent.reopened)
                && (op.Retry? ==>
                    job.retryOf == Some(op.id) && job.checkpoint == None && job.retryCount == parent.retryCount + 1
                                   && job.maxRetries == parent.maxRetries && job.resumedFrom == parent.resumedFrom)
                && (!op.Retry? ==>
                    job.resumedFrom == Some(op.id) && job.checkpoint == parent.checkpoint && job.checkpoint.Some?
                                   && job.checkpoint.value.step == parent.checkpoint.value.step && job.retryCount == 0
                                   && job.retryOf == parent.retryOf
                                   && job.maxRetries == if op.Reopen? then parent.maxRetries else DEFAULT_RETRIES))
  {
  }

  /** Which jobs can be continued or tried again: a paused one with a checkpoint, any that is
      not over for good and has one (in memory, or else in the store), and one with retries left. */
  lemma ContinuedIff(s: State, op: Op, saved: nat -> bool)
    requires op.Resume? || op.Reopen? || op.Retry?
    ensures var parent := if op.id in s.jobs then Some(s.jobs[op.id])
                          else if op.id in s.store then Some(s.store[op.id]) else None;
            Apply(s, op, saved) != s <==>
              match op
              case Resume(id) => id in s.jobs && s.jobs[id].status == Paused && s.jobs[id].checkpoint.Some?
              case Reopen(_) =>
                parent.Some? && parent.value.checkpoint.Some?
                    && parent.value.status in {Pending, Queued, Created, Running, Paused, Completing, Interrupted,
                                               NeedsContinuation}
              case _ => op.id in s.jobs && s.jobs[op.id].retryCount < s.jobs[op.id].maxRetries
  {
    var t := Apply(s, op, saved);
    assert t != s ==> t.next == s.next + 1;
    var original := Original(s, op.id);
    if original.Some? {
      NotDead(original.value.status);
    }
  }

  lemma NotDead(status: Status)
    ensures !Dead(status) <==> status in {Pending, Queued, Created, Running, Paused, Completing, Interrupted,
                                          NeedsContinuation}
  {
  }

  // ---- the retry budget ----

  /** The number of retries in a row that led to a job. */
  function RetryDepth(links: map<Id, Link>, id: Id): nat
    decreases id
  {
    if id in links && links[id].Retried? && links[id].parent < id then RetryDepth(links, links[id].parent) + 1 else 0
  }

  lemma {:induction false} DepthKept(links: map<Id, Link>, id: Id, fresh_: Id, link: Link)
    requires id < fresh_
    ensures RetryDepth(links[fresh_ := link], id) == RetryDepth(links, id)
    decreases id
  {
    if id in links && links[id].Retried? && links[id].parent < id {
      DepthKept(links, links[id].parent, fresh_, link);
    }
  }

  predicate Counted(links: map<Id, Link>, id: Id, j: Job) {
    j.retryCount == RetryDepth(links, id) && (j.retryCount == 0 || j.retryCount <= j.maxRetries)
  }

  predicate BudgetInv(s: State) {
    AllCounted(s, s.jobs) && AllCounted(s, s.store)
  }

  predicate AllCounted(s: State, jobs: map<Id, Job>) {
    forall id :: id in jobs ==> id < s.next && Counted(s.links, id, jobs[id])
  }

  lemma CreateBudget(s: State, j: Job, link: Link, saved: nat -> bool)
    requires BudgetInv(s) && Counted(s.links[s.next := link], s.next, j)
    ensures BudgetInv(Create(s, j, link, saved))
  {
    hide RetryDepth;
    forall id: Id | id < s.next ensures RetryDepth(s.links[s.next := link], id) == RetryDepth(s.links, id) {
      DepthKept(s.links, id, s.next, link);
    }
  }

  lemma UpdateBudget(s: State, id: Id, j: Job, saved: nat -> bool)
    requires BudgetInv(s) && id in s.jobs && j.retryCount == s.jobs[id].retryCount
             && j.maxRetries == s.jobs[id].maxRetries
    ensures BudgetInv(Update(s, id, j, saved))
  {
    hide RetryDepth;
  }

  lemma {:induction false} SweepBudget(s: State, store: map<Id, Job>, saves: nat, ids: seq<Id>, saved: nat -> bool)
    requires AllCounted(s, store)
    ensures AllCounted(s, Sweep(store, saves, ids, saved).0)
    decreases |ids|
  {
    hide AllCounted;
    if ids != [] {
      var (next, spent) := SweepOne(store, saves, ids[0], saved);
      if ids[0] in store {
        SweptCounted(s, store, ids[0]);
      }
      SweepBudget(s, next, spent, ids[1..], saved);
    }
  }

  lemma SweptCounted(s: State, store: map<Id, Job>, id: Id)
    requires AllCounted(s, store) && id in store
    ensures AllCounted(s, store[id := Swept(store[id])])
  {
    hide RetryDepth;
  }

  lemma ApplyBudget(s: State, op: Op, saved: nat -> bool)
    requires BudgetInv(s)
    ensures BudgetInv(Apply(s, op, saved))
  {
    hide Create, Update, BudgetInv, RetryDepth, Sweep;
    match op
    case Submit(task, strategy, maxRetries, status) =>
      FirstDepth(s.links, s.next, Submitted);
      CreateBudget(s, Fresh(task, strategy, maxRetries, status), Submitted, saved);
    case Restart(listing) =>
      RestartBudget(s, listing, saved);
    case Resume(id) =>
      FirstDepth(s.links, s.next, Continued(id));
      if id in s.jobs {
        CreateBudget(s, ResumedJob(s.jobs[id], id), Continued(id), saved);
      }
    case Reopen(id) =>
      FirstDepth(s.links, s.next, Continued(id));
      if Original(s, id).Some? {
        CreateBudget(s, ReopenedJob(Original(s, id).value, id), Continued(id), saved);
      }
    case Retry(id) =>
      if id in s.jobs && s.jobs[id].retryCount < s.jobs[id].maxRetries {
        NextDepth(s, id);
        CreateBudget(s, RetriedJob(s.jobs[id], id), Retried(id), saved);
      }
    case _ =>
      if op.id in s.jobs {
        var j := s.jobs[op.id];
        forall k: Job | k.retryCount == j.retryCount && k.maxRetries == j.maxRetries
            ensures BudgetInv(Update(s, op.id, k, saved)) {
          UpdateBudget(s, op.id, k, saved);
        }
      }
  }

  lemma FirstDepth(links: map<Id, Link>, id: Id, link: Link)
    requires !link.Retried?
    ensures RetryDepth(links[id := link], id) == 0
  {
  }

  lemma NextDepth(s: State, id: Id)
    requires BudgetInv(s) && id in s.jobs
    ensures RetryDepth(s.links[s.next := Retried(id)], s.next) == s.jobs[id].retryCount + 1
  {
    DepthKept(s.links, id, s.next, Retried(id));
  }

  lemma RestartBudget(s: State, listing: seq<Id>, saved: nat -> bool)
    requires BudgetInv(s)
    ensures BudgetInv(Apply(s, Restart(listing), saved))
  {
    hide RetryDepth, Sweep;
    var t := Apply(s, Restart(listing), saved);
    assert t.store == Sweep(s.store, s.saves, listing, saved).0;
    SweepBudget(s, s.store, s.saves, listing, saved);
  }

  /** Over every run, restarts and failed saves included: a job's retry count is the number
      of retries in a row behind it, and never more than its retry limit. */
  lemma {:induction false} RetriesBounded(s: State, ops: seq<Op>, saved: nat -> bool)
    requires BudgetInv(s)
    ensures BudgetInv(RunAll(s, ops, saved))
    decreases |ops|
  {
    hide Apply, BudgetInv;
    if ops != [] {
      ApplyBudget(s, ops[0], saved);
      RetriesBounded(Apply(s, ops[0], saved), ops[1..], saved);
    }
  }

  /** But a resume starts a budget of its own, whatever limit the paused job had. */
  lemma ResumeForgetsLimit(s: State, id: Id, saved: nat -> bool)
    requires id in s.jobs && s.jobs[id].status == Paused && s.jobs[id].checkpoint.Some?
    ensures Apply(s, Resume(id), saved).jobs[s.next].maxRetries == s.jobs[id].maxRetries
            <==> s.jobs[id].maxRetries == DEFAULT_RETRIES
  {
  }

  // ---- the store agrees with memory ----

  predicate Mirrored(s: State) {
    forall id :: id in s.jobs ==> id in s.store && s.store[id] == s.jobs[id]
  }

  /** While saves succeed the store holds every job of the memory as it is. */
  lemma {:induction false} StoreAgrees(s: State, ops: seq<Op>, saved: nat -> bool)
    requires Mirrored(s) && forall k :: saved(k)
    ensures Mirrored(RunAll(s, ops, saved))
    decreases |ops|
  {
    if ops != [] {
      StoreAgreesStep(s, ops[0], saved);
      StoreAgrees(Apply(s, ops[0], saved), ops[1..], saved);
    }
  }

  lemma StoreAgreesStep(s: State, op: Op, saved: nat -> bool)
    requires Mirrored(s) && forall k :: saved(k)
    ensures Mirrored(Apply(s, op, saved))
  {
    hide Sweep;
  }

  // ---- the startup sweep ----

  ghost predicate Lists(ids: seq<Id>, store: map<Id, Job>) {
    forall id :: id in ids <==> id in store
  }

  /** While saves succeed a sweep marks exactly the abandoned jobs interrupted and changes
      nothing else; so a second sweep changes nothing and saves nothing. */
  lemma {:induction false} SweepMarks(store: map<Id, Job>, saves: nat, ids: seq<Id>, saved: nat -> bool)
    requires forall k :: saved(k)
    ensures var swept := Sweep(store, saves, ids, saved).0;
            && swept.Keys == store.Keys
            && forall id :: id in store && id in swept ==>
                swept[id] == if id in ids && store[id].status in {Running, Completing, Created, Pending, Queued}
                             then store[id].(status := Interrupted) else store[id]
    decreases |ids|
  {
    if ids != [] {
      var (next, spent) := SweepOne(store, saves, ids[0], saved);
      SweepMarks(next, spent, ids[1..], saved);
      assert forall id :: id in ids <==> id == ids[0] || id in ids[1..];
    }
  }

  lemma {:induction false} SweepSettled(store: map<Id, Job>, saves: nat, ids: seq<Id>, saved: nat -> bool)
    requires forall id :: id in store ==> !Interruptible(store[id].status)
    ensures Sweep(store, saves, ids, saved) == (store, saves)
    decreases |ids|
  {
    if ids != [] {
      SweepSettled(store, saves, ids[1..], saved);
    }
  }

  lemma SweepIsIdempotent(store: map<Id, Job>, saves: nat, ids: seq<Id>, again: seq<Id>, saved: nat -> bool)
    requires Lists(ids, store) && forall k :: saved(k)
    ensures var (swept, spent) := Sweep(store, saves, ids, saved);
            && (forall id :: id in swept ==> !Interruptible(swept[id].status))
            && (forall id :: id in store && id in swept ==>
                  (store[id].status == Paused || Terminal(store[id].status) ==> swept[id] == store[id]))
            && Sweep(swept, spent, again, saved) == (swept, spent)
  {
    hide Sweep;
    SweepMarks(store, saves, ids, saved);
    var (swept, spent) := Sweep(store, saves, ids, saved);
    SweepSettled(swept, spent, again, saved);
  }

  // ---- the manager ----

  class JobManager {
    const saved: nat -> bool
    var jobs: map<Id, Job>
    var store: map<Id, Job>
    var links: map<Id, Link>
    var next: Id
    var saves: nat

    ghost function Now(): State
      reads this
    {
      State(jobs, store, links, next, saves)
    }

    constructor (saved: nat -> bool)
      ensures this.saved == saved && Now() == START
    {
      this.saved := saved;
      jobs, store, links, next, saves := map[], map[], map[], 0, 0;
    }

    method Persist(id: Id)
      requires id in jobs
      modifies this`store, this`saves
      ensures Now() == Save(old(Now()), id, saved)
    {
      if saved(saves) {
        store := store[id := jobs[id]];
      }
      saves := saves + 1;
    }

    method Register(job: Job, link: Link) returns (id: Id)
      modifies this
      ensures id == old(next) && Now() == Create(old(Now()), job, link, saved)
    {
      id := next;
      next := next + 1;
      links := links[id := link];
      jobs := jobs[id := job];
      Persist(id);
    }

    method SubmitJob(task: string, strategy: string, maxRetries: int, status: Status) returns (id: Id)
      modifies this
      ensures id == old(next) && Now() == Apply(old(Now()), Submit(task, strategy, maxRetries, status), saved)
    {
      id := Register(Job(task, status, strategy, None, 0, maxRetries, "", "", None, None, false), Submitted);
    }

    method StartJob(id: Id) returns (ok: bool)
      modifies this
      ensures Now() == Apply(old(Now()), Start(id), saved)
      ensures ok == (id in old(jobs) && old(jobs)[id].status in {Pending, Queued, Created})
    {
      if id !in jobs || jobs[id].status !in {Pending, Queued, Created} {
        return false;
      }
      jobs := jobs[id := jobs[id].(status := Running)];
      Persist(id);
      return true;
    }

    method PauseJob(id: Id, checkpoint: Option<Checkpoint>) returns (ok: bool)
      modifies this
      ensures Now() == Apply(old(Now()), Pause(id, checkpoint), saved)
      ensures ok == (id in old(jobs) && old(jobs)[id].status == Running)
    {
      if id !in jobs || jobs[id].status != Running {
        return false;
      }
      var job := jobs[id].(status := Paused);
      if checkpoint.Some? {
        job := job.(checkpoint := checkpoint);
      }
      jobs := jobs[id := job];
      Persist(id);
      return true;
    }

    method ResumeJob(id: Id) returns (job: Option<Id>)
      modifies this
      ensures Now() == Apply(old(Now()), Resume(id), saved)
      ensures job.Some? <==> id in old(jobs) && old(jobs)[id].status == Paused && old(jobs)[id].checkpoint.Some?
      ensures job.Some? ==> job.value == old(next)
    {
      if id !in jobs || jobs[id].status != Paused || !CanResume(jobs[id]) {
        return None;
      }
      var original := jobs[id];
      var new_ := Register(Job(original.task, Queued, original.strategy, original.checkpoint,
                               0, DEFAULT_RETRIES, "", "",
                               Some(id), original.retryOf, original.reopened), Continued(id));
      return Some(new_);
    }

    method ReopenJob(id: Id) returns (job: Option<Id>)
      modifies this
      ensures Now() == Apply(old(Now()), Reopen(id), saved)
      ensures job.Some? <==> var original := Original(old(Now()), id);
                             original.Some? && !Dead(original.value.status) && original.value.checkpoint.Some?
      ensures job.Some? ==> job.value == old(next)
    {
      var original: Job;
      if id in jobs {
        original := jobs[id];
      } else if id in store {
        original := store[id];
      } else {
        return None;
      }
      if Dead(original.status) || original.checkpoint.None? {
        return None;
      }
      var new_ := Register(Job(original.task, Queued, original.strategy, original.checkpoint,
                               0, original.maxRetries, "", "",
                               Some(id), original.retryOf, true), Continued(id));
      return Some(new_);
    }

    method CancelJob(id: Id) returns (ok: bool)
      modifies this
      ensures Now() == Apply(old(Now()), Cancel(id), saved)
      ensures ok == (id in old(jobs) && !Terminal(old(jobs)[id].status))
    {
      if id !in jobs || Terminal(jobs[id].status) {
        return false;
      }
      jobs := jobs[id := jobs[id].(status := Cancelled)];
      Persist(id);
      return true;
    }

    method RetryJob(id: Id) returns (job: Option<Id>)
      modifies this
      ensures Now() == Apply(old(Now()), Retry(id), saved)
      ensures job.Some? <==> id in old(jobs) && old(jobs)[id].retryCount < old(jobs)[id].maxRetries
      ensures job.Some? ==> job.value == old(next)
    {
      if id !in jobs || jobs[id].retryCount >= jobs[id].maxRetries {
        return None;
      }
      var original := jobs[id];
      var new_ := Register(Job(original.task, Queued, original.strategy, None,
                               original.retryCount + 1, original.maxRetries, "", "",
                               original.resumedFrom, Some(id), original.reopened), Retried(id));
      return Some(new_);
    }

    method CompleteJob(id: Id, result: string, error: string) returns (ok: bool)
      modifies this
      ensures Now() == Apply(old(Now()), Complete(id, result, error), saved) && ok == (id in old(jobs))
    {
      if id !in jobs {
        return false;
      }
      var job := jobs[id];
      if error != "" {
        job := job.(status := Error);
        job := job.(error := error);
      } else {
        job := job.(status := Finished);
      }
      job := job.(result := result);
      jobs := jobs[id := job];
      Persist(id);
      return true;
    }

    method FailJob(id: Id, error: string) returns (ok: bool)
      modifies this
      ensures Now() == Apply(old(Now()), Fail(id, error), saved) && ok == (id in old(jobs))
    {
      if id !in jobs {
        return false;
      }
      var job := jobs[id].(status := Failed);
      if error != "" {
        job := job.(error := error);
      }
      jobs := jobs[id := job];
      Persist(id);
      return true;
    }

    method CheckpointJob(id: Id, checkpoint: Option<Checkpoint>) returns (ok: bool)
      modifies this
      ensures Now() == Apply(old(Now()), Progress(id, checkpoint), saved) && ok == (id in old(jobs))
    {
      if id !in jobs {
        return false;
      }
      if checkpoint.Some? {
        jobs := jobs[id := jobs[id].(checkpoint := checkpoint)];
      }
      ghost var same := jobs[id := jobs[id]];
      assert same == jobs;
      Persist(id);
      return true;
    }

    method MarkOne(id: Id) returns (row: Option<(Id, nat)>)
      modifies this`store, this`saves
      ensures (store, saves) == SweepOne(old(store), old(saves), id, saved) && SameCheckpoints(old(store), store)
      ensures row.Some? ==> NextStep(old(store), row.value)
    {
      if id !in store || !Interruptible(store[id].status) {
        return None;
      }
      var job := store[id].(status := Interrupted);
      row := Some((id, if job.checkpoint.Some? then job.checkpoint.value.step else 0));
      if saved(saves) {
        store := store[id := job];
      }
      saves := saves + 1;
    }

    /** A new process: the memory is empty, and the sweep marks what the old one abandoned.
        Each row carries the step to continue from, the checkpoint's own. */
    method RestartAndSweep(listing: seq<Id>) returns (marked: seq<(Id, nat)>)
      modifies this
      ensures Now() == Apply(old(Now()), Restart(listing), saved)
      ensures forall i :: 0 <= i < |marked| ==> NextStep(old(store), marked[i])
    {
      hide NextStep, SweepOne;
      jobs := map[];
      marked := [];
      assert listing[0..] == listing;
      for i := 0 to |listing|
        invariant jobs == map[] && links == old(links) && next == old(next)
        invariant Sweep(store, saves, listing[i..], saved) == Sweep(old(store), old(saves), listing, saved)
        invariant SameCheckpoints(old(store), store)
        invariant forall k :: 0 <= k < |marked| ==> NextStep(old(store), marked[k])
      {
        assert listing[i..][0] == listing[i] && listing[i..][1..] == listing[i + 1..];
        ghost var before := store;
        var row := MarkOne(listing[i]);
        if row.Some? {
          RowIsHonest(old(store), before, row.value);
          marked := marked + [row.value];
        }
      }
      assert listing[|listing|..] == [];
    }
  }

  /** A row of the sweep: a stored job and the checkpoint step unchanged, 0 without one. */
  predicate NextStep(store: map<Id, Job>, row: (Id, nat)) {
    row.0 in store && var cp := store[row.0].checkpoint; row.1 == if cp.Some? then cp.value.step else 0
  }

  predicate SameCheckpoints(a: map<Id, Job>, b: map<Id, Job>) {
    a.Keys == b.Keys && forall id :: id in a && id in b ==> a[id].checkpoint == b[id].checkpoint
  }

  lemma RowIsHonest(a: map<Id, Job>, b: map<Id, Job>, row: (Id, nat))
    requires SameCheckpoints(a, b) && NextStep(b, row)
    ensures NextStep(a, row)
  {
  }
}
