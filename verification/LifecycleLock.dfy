/**
 The per-account lock of jarvis.service.ts: runLifecycle over every interleaving of jobs. The inner run is suspended
 at its awaits; when it settles, well or not, its `finally` handler removes the lock and the job returns.
 */
module LifecycleLock {
  import opened JsText

  datatype Phase = Running | Ended

  datatype Job = Job(accountId: string, phase: Phase)

  datatype State = State(locks: map<string, nat>, jobs: map<nat, Job>)

  datatype Event = Enqueued(job: nat, accountId: string) | Settled(job: nat)

  function Step(s: State, e: Event): State {
    match e
    case Enqueued(j, accountId) =>
      if j in s.jobs then s
      else if Normalize(accountId) in s.locks then s.(jobs := s.jobs[j := Job(accountId, Ended)])
      else State(s.locks[Normalize(accountId) := j], s.jobs[j := Job(accountId, Running)])
    case Settled(j) =>
      if j in s.jobs && s.jobs[j].phase.Running?
      then State(s.locks - {Normalize(s.jobs[j].accountId)}, s.jobs[j := s.jobs[j].(phase := Ended)])
      else s
  }

  class JarvisService {
    var lifecycleLocks: map<string, nat>
    var jobs: map<nat, Job>

    function Current(): State
      reads this
    { State(lifecycleLocks, jobs) }

    constructor ()
      ensures Current() == State(map[], map[])
    { lifecycleLocks, jobs := map[], map[]; }

    /** runLifecycle up to its first await. */
    method RunLifecycle(job: nat, accountId: string)
      requires job !in jobs
      modifies this
      ensures Current() == Step(old(Current()), Enqueued(job, accountId))
    {
      var normalizedAccountId := Normalize(accountId);
      if normalizedAccountId in lifecycleLocks {
        jobs := jobs[job := Job(accountId, Ended)];
        return;
      }
      jobs := jobs[job := Job(accountId, Running)];
      lifecycleLocks := lifecycleLocks[normalizedAccountId := job];
    }

    /** The `finally` handler of the inner run. */
    method Settle(job: nat)
      requires job in jobs && jobs[job].phase.Running?
      modifies this
      ensures Current() == Step(old(Current()), Settled(job))
    {
      lifecycleLocks := lifecycleLocks - {Normalize(jobs[job].accountId)};
      jobs := jobs[job := jobs[job].(phase := Ended)];
    }
  }

  function RunAll(events: seq<Event>): State {
    if events == [] then State(map[], map[]) else Step(RunAll(events[..|events| - 1]), events[|events| - 1])
  }

  /** The locks are exactly the running jobs, under their normalised accounts. */
  ghost predicate Inv(s: State) {
    && (forall a :: a in s.locks ==>
          s.locks[a] in s.jobs && s.jobs[s.locks[a]].phase.Running? && Normalize(s.jobs[s.locks[a]].accountId) == a)
    && forall j :: j in s.jobs && s.jobs[j].phase.Running? ==>
         Normalize(s.jobs[j].accountId) in s.locks && s.locks[Normalize(s.jobs[j].accountId)] == j
  }

  lemma {:induction false} RunKeepsInv(events: seq<Event>)
    ensures Inv(RunAll(events))
  {
    hide Normalize;
    if events != [] { RunKeepsInv(events[..|events| - 1]); }
  }

  /** However an account id is spelled, at most one job runs for it, and it is locked exactly while that job runs. */
  lemma OneLifecyclePerAccount(events: seq<Event>, i: nat, j: nat)
    requires var s := RunAll(events);
             i in s.jobs && j in s.jobs && s.jobs[i].phase.Running?
             && Normalize(s.jobs[i].accountId) == Normalize(s.jobs[j].accountId)
    ensures var s := RunAll(events);
            && (s.jobs[j].phase.Running? ==> i == j)
            && Normalize(s.jobs[j].accountId) in s.locks
            && Normalize(s.jobs[i].accountId) !in Step(s, Settled(i)).locks
  {
    hide Normalize;
    RunKeepsInv(events);
  }

  /** A new job runs exactly when no job for the same account, however spelled, is running. */
  lemma RunsExactlyWhenFree(events: seq<Event>, j: nat, accountId: string)
    requires j !in RunAll(events).jobs
    ensures var s := RunAll(events); var t := Step(s, Enqueued(j, accountId));
            && j in t.jobs && t.jobs[j].accountId == accountId
            && (t.jobs[j].phase.Running? <==>
                  !exists i :: i in s.jobs && s.jobs[i].phase.Running?
                               && Normalize(s.jobs[i].accountId) == Normalize(accountId))
            && forall i :: i in s.jobs ==> i in t.jobs && t.jobs[i] == s.jobs[i]
  {
    hide Normalize;
    RunKeepsInv(events);
    var s := RunAll(events);
    if Normalize(accountId) in s.locks { var i := s.locks[Normalize(accountId)]; assert s.jobs[i].phase.Running?; }
  }
}
