/** Which plans the scheduler is handed: each is the plan of a prompt it asked for itself, with the span that prompt's
    lookup promises, and is never changed afterwards. */
module ProtocolPlans {
  import opened Wrappers
  import opened Hashing
  import opened Types
  import opened Matching
  import opened StoreModel
  import opened StoreInvariants
  import opened ProtocolModel
  import opened Protocol
  import opened ProtocolSteps
  import opened ProtocolRuns

  // ---------------------------------------------------------------- what one step files

  /** A step files at most one result: the running lookup's, under its own ticket, and for the segments it returned if
      it is accepted and not cancelled; otherwise an empty plan behind the prefix. */
  ghost predicate FilesRightly(s: Sys, a: Action, s': Sys) {
    && (forall t :: t in s.results ==> t in s'.results && s'.results[t] == s.results[t])
    && (forall t :: t in s'.results && t !in s.results ==>
          && s.worker.LooksUp() && t == s.worker.ticket
          && s'.results[t].WellFormed() && s'.results[t].allocationEnd < |s.worker.job.prompt|
          && IsPlanOf(s.worker.job, s.chunkSize, if Accepts(s, a) then s.worker.segments else [], s.sparse,
                      s'.results[t]))
    && (Accepts(s, a) ==> s.worker.ticket in s'.results)
  }

  predicate Accepts(s: Sys, a: Action) {
    a == Decide(true) && s.worker.Returned? && s.worker.job.request !in s.cancelled
  }

  lemma ResultsAreFiledRightly(s: Sys, a: Action)
    requires SysInv(s)
    ensures FilesRightly(s, a, Step(s, a))
  {
    if a.Decide? {
      DecideFilesRightly(s, a.accept);
    } else {
      hide SysInv;
      OthersFileNothing(s, a);
    }
  }

  /** Steps of ranks and rounds: they belong to no request's bookkeeping. */
  predicate IsQuiet(a: Action) {
    !a.GetMatched? && !a.Cleanup? && !a.Dequeue? && !a.Decide?
  }

  /** Such a step keeps the books, the settings and the worker's task. */
  ghost predicate SameOffice(s: Sys, s': Sys) {
    SameBooks(s, s') && s'.sparse == s.sparse && SameTask(s.worker, s'.worker)
  }

  lemma RankStepFrame(s: Sys, rank: nat, op: Op)
    ensures SameOffice(s, DoRankOp(s, rank, op)) && SameOffice(s, DoCancelRank(s, rank))
  {
    hide Apply, Release;
  }

  lemma SearchStepFrame(s: Sys)
    ensures SameOffice(s, DoSearch(s)) && SameOffice(s, DoConfirm(s))
  {
    hide Scan, Validate, Shift;
  }

  lemma RoundStepFrame(s: Sys, rank: nat)
    ensures SameOffice(s, DoValidateRank(s, rank)) && SameOffice(s, DoPrefetchRank(s, rank))
  {
    hide Validate, Pin;
  }

  lemma QuietStepFrame(s: Sys, a: Action)
    requires IsQuiet(a)
    ensures SameOffice(s, Step(s, a))
  {
    hide DoRankOp, DoCancelRank, DoSearch, DoConfirm, DoValidateRank, DoPrefetchRank, SameOffice;
    match a
    case RankOp(rank, op) => RankStepFrame(s, rank, op);
    case CancelRank(rank) => RankStepFrame(s, rank, OpTick(0));
    case Search => SearchStepFrame(s);
    case Confirm => SearchStepFrame(s);
    case ValidateRank(rank) => RoundStepFrame(s, rank);
    case PrefetchRank(rank) => RoundStepFrame(s, rank);
  }

  lemma OthersFileNothing(s: Sys, a: Action)
    requires !a.Decide?
    ensures Step(s, a).results == s.results
  {
    if IsQuiet(a) {
      QuietStepFrame(s, a);
      hide Step;
    } else {
      hide WithoutTicket, Queued;
    }
  }

  lemma DecideFilesRightly(s: Sys, accept: bool)
    requires SysInv(s)
    ensures FilesRightly(s, Decide(accept), DoDecide(s, accept))
  {
    hide DoDecide, RanksOk, StatusOk;
    DecideShape(s, accept);
    if s.worker.LooksUp() {
      FiledPlanIsRight(s, accept);
      if Accepts(s, Decide(accept)) { AcceptedIsFiled(s); }
    }
  }

  lemma FiledPlanIsRight(s: Sys, accept: bool)
    requires SysInv(s) && s.worker.LooksUp()
    ensures var plan := FiledPlan(s, accept);
            && plan.WellFormed() && plan.allocationEnd < |s.worker.job.prompt|
            && IsPlanOf(s.worker.job, s.chunkSize, if Accepts(s, Decide(accept)) then s.worker.segments else [],
                        s.sparse, plan)
  {
    hide RanksOk, StatusOk, Planable, PlanFor;
    if Accepts(s, Decide(accept)) {
      ReturnedPlan(s.worker.job, s.chunkSize, s.worker.segments, s.sparse);
    }
  }

  lemma AcceptedIsFiled(s: Sys)
    requires Accepts(s, Decide(true))
    ensures DoDecide(s, true) == Finish(s, FiledPlan(s, true))
  {
    hide PlanFor;
  }

  // ---------------------------------------------------------------- asking for a prompt

  /** Asking for a prompt keeps a plan that is there, picks up a finished lookup, waits for a pending one, gives a
      prompt of at most one chunk behind the prefix an empty plan, and queues a lookup for any other. */
  lemma AskedPrompt(s: Sys, job: Job, cacheable: bool)
    requires SysInv(s)
    ensures var s', r := DoGetMatched(s, job, cacheable), job.request;
            && s'.results == s.results && s'.worker == s.worker && s'.ranks == s.ranks
            && (forall q :: q != r ==>
                  (q in s'.plans <==> q in s.plans) && (q in s.plans ==> s'.plans[q] == s.plans[q]))
            && (!cacheable || r in s.plans || (r in s.futures && s.futures[r] !in s.results) ==>
                  s'.plans == s.plans && s'.futures == s.futures && s'.queue == s.queue)
            && (cacheable && r in s.futures && s.futures[r] in s.results ==>
                  r in s'.plans && s'.plans[r] == s.results[s.futures[r]] && s'.queue == s.queue && r !in s'.futures)
            && (cacheable && r !in s.plans && r !in s.futures && |job.prompt| <= job.apc + s.chunkSize ==>
                  r in s'.plans && IsPlanOf(job, s.chunkSize, [], s.sparse, s'.plans[r]) && s'.queue == s.queue)
            && (cacheable && r !in s.plans && r !in s.futures && |job.prompt| > job.apc + s.chunkSize ==>
                  && r !in s'.plans && r in s'.futures && s'.queue == s.queue + [Lookup(s'.futures[r], job)]
                  && s'.futures[r] !in s.results && forall q :: q in s.futures ==> s.futures[q] != s'.futures[r])
  {
    hide RanksOk, StatusOk, PhaseOk, QueueOk, WorkerOk;
  }

  // ---------------------------------------------------------------- over whole runs

  /** The plan of one of these prompts, asked for under this request. */
  ghost predicate AskedFor(s: Sys, jobs: seq<Job>, r: RequestId, plan: BlendPlan) {
    exists i :: 0 <= i < |jobs| && jobs[i].request == r && PlansPrompt(s, jobs[i], plan)
  }

  ghost predicate PlansPrompt(s: Sys, job: Job, plan: BlendPlan) {
    IsPlanOf(job, s.chunkSize, plan.segments, s.sparse, plan) && Planable(job, s.chunkSize, plan.segments)
  }

  /** Every lookup under way and every plan handed over is for a prompt that was asked for. */
  ghost predicate AllAsked(s: Sys, jobs: seq<Job>) {
    && (forall i :: 0 <= i < |s.queue| && s.queue[i].Lookup? ==> s.queue[i].job in jobs)
    && (s.worker.LooksUp() ==> s.worker.job in jobs)
    && (forall r :: r in s.plans ==> AskedFor(s, jobs, r, s.plans[r]))
    && (forall r :: r in s.futures && s.futures[r] in s.results ==> AskedFor(s, jobs, r, s.results[s.futures[r]]))
  }

  /** The prompts a run asks for. */
  function Jobs(actions: seq<Action>): seq<Job> {
    if actions == [] then []
    else (if actions[0].GetMatched? then [actions[0].job] else []) + Jobs(actions[1..])
  }

  lemma AskedForMore(s: Sys, s': Sys, jobs: seq<Job>, more: seq<Job>, r: RequestId, plan: BlendPlan)
    requires AskedFor(s, jobs, r, plan) && s'.chunkSize == s.chunkSize && s'.sparse == s.sparse
    ensures AskedFor(s', jobs + more, r, plan)
  {
    hide IsPlanOf, Planable;
    var i :| 0 <= i < |jobs| && jobs[i].request == r && PlansPrompt(s, jobs[i], plan);
    assert (jobs + more)[i] == jobs[i] && PlansPrompt(s', jobs[i], plan);
  }

  lemma AskedForThis(s: Sys, jobs: seq<Job>, job: Job, plan: BlendPlan)
    requires job in jobs && PlansPrompt(s, job, plan)
    ensures AskedFor(s, jobs, job.request, plan)
  {
    var i :| 0 <= i < |jobs| && jobs[i] == job;
  }

  /** A step that moves the same task on, and no plan, keeps the picture. */
  lemma SameTaskAsks(s: Sys, s': Sys, jobs: seq<Job>)
    requires AllAsked(s, jobs) && SameBooks(s, s') && s'.sparse == s.sparse
    requires s'.worker.Idle? || SameTask(s.worker, s'.worker)
    ensures AllAsked(s', jobs)
  {
    hide AskedFor;
    forall r, plan | AskedFor(s, jobs, r, plan) ensures AskedFor(s', jobs, r, plan) {
      AskedForMore(s, s', jobs, [], r, plan);
      assert jobs + [] == jobs;
    }
  }

  lemma EmptyPlanIsPlanable(s: Sys, job: Job, plan: BlendPlan)
    requires IsPlanOf(job, s.chunkSize, [], s.sparse, plan)
    ensures PlansPrompt(s, job, plan)
  {
  }

  /** Adding a prompt to those asked for loses nothing. */
  lemma MoreAsked(s: Sys, jobs: seq<Job>, more: seq<Job>)
    requires AllAsked(s, jobs)
    ensures AllAsked(s, jobs + more)
  {
    hide AskedFor;
    forall r, plan | AskedFor(s, jobs, r, plan) ensures AskedFor(s, jobs + more, r, plan) {
      AskedForMore(s, s, jobs, more, r, plan);
    }
  }

  ghost predicate SameSettings(s: Sys, s': Sys) {
    s'.chunkSize == s.chunkSize && s'.sparse == s.sparse
  }

  lemma AskedForAlike(s: Sys, s': Sys, jobs: seq<Job>)
    requires SameSettings(s, s')
    ensures forall r, plan :: AskedFor(s, jobs, r, plan) ==> AskedFor(s', jobs, r, plan)
  {
    hide AskedFor;
    forall r, plan | AskedFor(s, jobs, r, plan) ensures AskedFor(s', jobs, r, plan) {
      AskedForMore(s, s', jobs, [], r, plan);
      assert jobs + [] == jobs;
    }
  }

  lemma PickUpAsks(s: Sys, jobs: seq<Job>, r: RequestId)
    requires AllAsked(s, jobs) && r in s.futures && s.futures[r] in s.results
    ensures AllAsked(s.(futures := s.futures - {r}, plans := s.plans[r := s.results[s.futures[r]]]), jobs)
  {
    var s' := s.(futures := s.futures - {r}, plans := s.plans[r := s.results[s.futures[r]]]);
    AskedForAlike(s, s', jobs);
    hide AskedFor;
  }

  lemma EmptyAsks(s: Sys, jobs: seq<Job>, job: Job)
    requires AllAsked(s, jobs) && job in jobs
    ensures AllAsked(s.(plans := s.plans[job.request := EmptyPlan(job.apc)]), jobs)
  {
    var s' := s.(plans := s.plans[job.request := EmptyPlan(job.apc)]);
    AskedForAlike(s, s', jobs);
    EmptyPlanIsPlanable(s', job, EmptyPlan(job.apc));
    AskedForThis(s', jobs, job, EmptyPlan(job.apc));
    hide AskedFor;
  }

  lemma EnqueueAsks(s: Sys, jobs: seq<Job>, job: Job)
    requires AllAsked(s, jobs) && job in jobs && s.nextTicket !in s.results
    ensures AllAsked(s.(futures := s.futures[job.request := s.nextTicket],
                        queue := s.queue + [Lookup(s.nextTicket, job)],
                        nextTicket := s.nextTicket + 1), jobs)
  {
    var s' := s.(futures := s.futures[job.request := s.nextTicket], queue := s.queue + [Lookup(s.nextTicket, job)],
                 nextTicket := s.nextTicket + 1);
    AskedForAlike(s, s', jobs);
    hide AskedFor;
  }

  lemma GreetedAsks(s: Sys, jobs: seq<Job>, r: RequestId)
    requires AllAsked(s, jobs)
    ensures AllAsked(Greeted(s, r), jobs)
  {
    AskedForAlike(s, Greeted(s, r), jobs);
    hide AskedFor;
  }

  lemma GetMatchedAsks(s: Sys, jobs: seq<Job>, job: Job, cacheable: bool)
    requires BooksOk(s) && AllAsked(s, jobs)
    ensures AllAsked(DoGetMatched(s, job, cacheable), jobs + [job])
  {
    var r, g := job.request, Greeted(s, job.request);
    MoreAsked(s, jobs, [job]);
    GreetedAsks(s, jobs + [job], r);
    assert g.nextTicket !in g.results;
    hide AllAsked, BooksOk;
    if cacheable && r !in g.plans {
      if r in g.futures {
        if g.futures[r] in g.results { PickUpAsks(g, jobs + [job], r); }
      } else if |job.prompt| - job.apc <= g.chunkSize {
        EmptyAsks(g, jobs + [job], job);
      } else {
        EnqueueAsks(g, jobs + [job], job);
      }
    }
  }

  lemma CleanupAsks(s: Sys, jobs: seq<Job>, r: RequestId)
    requires BooksOk(s) && AllAsked(s, jobs)
    ensures AllAsked(DoCleanup(s, r), jobs)
  {
    var s' := DoCleanup(s, r);
    AskedForAlike(s, s', jobs);
    PrunedHasNoLookup(s, r);
    hide AskedFor, BooksOk;
    assert s'.queue == Pruned(s, r) + [Cancel(r)];
    forall i | 0 <= i < |s'.queue| && s'.queue[i].Lookup? ensures s'.queue[i].job in jobs {
      assert s'.queue[i] in Pruned(s, r);
    }
  }

  lemma DequeueAsks(s: Sys, jobs: seq<Job>)
    requires AllAsked(s, jobs)
    ensures AllAsked(DoDequeue(s), jobs)
  {
    AskedForAlike(s, DoDequeue(s), jobs);
    hide AskedFor;
  }

  lemma FinishAsks(s: Sys, jobs: seq<Job>, plan: BlendPlan)
    requires BooksOk(s) && AllAsked(s, jobs) && s.worker.LooksUp() && PlansPrompt(s, s.worker.job, plan)
    ensures AllAsked(Finish(s, plan), jobs)
  {
    AskedForAlike(s, Finish(s, plan), jobs);
    AskedForThis(s, jobs, s.worker.job, plan);
    hide AskedFor, PlansPrompt, QueueOk;
  }

  lemma DecideAsks(s: Sys, jobs: seq<Job>, accept: bool)
    requires SysInv(s) && AllAsked(s, jobs)
    ensures AllAsked(DoDecide(s, accept), jobs)
  {
    hide DoDecide, AllAsked, RanksOk, StatusOk;
    DecideShape(s, accept);
    var s' := DoDecide(s, accept);
    if s.worker.LooksUp() && s' == Finish(s, FiledPlan(s, accept)) {
      FiledPlanIsRight(s, accept);
      FiledPlanIsPlanable(s, accept);
      FinishAsks(s, jobs, FiledPlan(s, accept));
    } else if s' == s.(worker := s'.worker) && SameTask(s.worker, s'.worker) {
      SameTaskAsks(s, s', jobs);
    } else {
      DrainedAsks(s, jobs);
    }
  }

  lemma DrainedAsks(s: Sys, jobs: seq<Job>)
    requires AllAsked(s, jobs) && s.worker.Draining?
    ensures AllAsked(s.(worker := Idle, cancelled := s.cancelled - {s.worker.request}), jobs)
  {
    AskedForAlike(s, s.(worker := Idle, cancelled := s.cancelled - {s.worker.request}), jobs);
    hide AskedFor;
  }

  lemma FiledPlanIsPlanable(s: Sys, accept: bool)
    requires SysInv(s) && s.worker.LooksUp()
    ensures PlansPrompt(s, s.worker.job, FiledPlan(s, accept))
  {
    hide RanksOk, StatusOk, PlanFor;
    FiledPlanIsRight(s, accept);
  }

  /** A step inside a lookup, or of a rank, changes neither plans nor tasks. */
  lemma QuietStepAsks(s: Sys, jobs: seq<Job>, a: Action)
    requires AllAsked(s, jobs) && IsQuiet(a)
    ensures AllAsked(Step(s, a), jobs)
  {
    hide AllAsked, Step;
    QuietStepFrame(s, a);
    SameTaskAsks(s, Step(s, a), jobs);
  }

  lemma StepAsks(s: Sys, jobs: seq<Job>, a: Action)
    requires SysInv(s) && AllAsked(s, jobs)
    ensures AllAsked(Step(s, a), jobs + (if a.GetMatched? then [a.job] else []))
  {
    hide AllAsked, DoGetMatched, DoCleanup, DoDequeue, DoDecide, DoSearch, DoConfirm, DoValidateRank, DoPrefetchRank,
      DoCancelRank, DoRankOp;
    assert jobs + [] == jobs;
    match a
    case GetMatched(job, cacheable) => GetMatchedAsks(s, jobs, job, cacheable);
    case Cleanup(r) => CleanupAsks(s, jobs, r);
    case Dequeue => DequeueAsks(s, jobs);
    case Decide(accept) => DecideAsks(s, jobs, accept);
    case _ => QuietStepAsks(s, jobs, a);
  }

  lemma {:induction false} RunAsks(s: Sys, jobs: seq<Job>, actions: seq<Action>)
    requires SysInv(s) && AllAsked(s, jobs)
    ensures AllAsked(RunSys(s, actions), jobs + Jobs(actions))
    decreases |actions|
  {
    hide SysInv, AllAsked, Step;
    if actions == [] {
      assert jobs + [] == jobs;
    } else {
      var a := actions[0];
      StepAsks(s, jobs, a);
      StepKeeps(s, a);
      var now := if a.GetMatched? then [a.job] else [];
      RunAsks(Step(s, a), jobs + now, actions[1..]);
      assert jobs + now + Jobs(actions[1..]) == jobs + (now + Jobs(actions[1..]));
    }
  }

  /** Every plan the scheduler holds, at any moment of any run, is the plan of a prompt it asked for under that request:
      its segments are disjoint chunks of that prompt behind the prefix, and its span ends where that prompt's plan
      ends. */
  lemma HeldPlansAreOfAskedPrompts(n: nat, chunkSize: nat, limits: seq<nat>, sparse: bool, actions: seq<Action>,
                                   r: RequestId) returns (job: Job)
    requires n > 0 && chunkSize > 0 && |limits| == n
    requires r in RunSys(Start(n, chunkSize, limits, sparse), actions).plans
    ensures job in Jobs(actions) && job.request == r
    ensures var s := RunSys(Start(n, chunkSize, limits, sparse), actions);
            && IsPlanOf(job, chunkSize, s.plans[r].segments, sparse, s.plans[r])
            && Planable(job, chunkSize, s.plans[r].segments)
  {
    hide SysInv, RunSys, IsPlanOf, Planable;
    var start := Start(n, chunkSize, limits, sparse);
    var s := RunSys(start, actions);
    StartIsSound(n, chunkSize, limits, sparse);
    RunAsks(start, [], actions);
    SettingsStay(start, actions);
    assert [] + Jobs(actions) == Jobs(actions);
    assert AskedFor(s, Jobs(actions), r, s.plans[r]);
    var i :| 0 <= i < |Jobs(actions)| && Jobs(actions)[i].request == r && PlansPrompt(s, Jobs(actions)[i], s.plans[r]);
    job := Jobs(actions)[i];
  }

  lemma StepKeepsSettings(s: Sys, a: Action)
    ensures SameSettings(s, Step(s, a))
  {
    if IsQuiet(a) {
      QuietStepFrame(s, a);
      hide Step;
    } else {
      hide WithoutTicket, Queued, DoDecide;
      if a.Decide? { DecideShape(s, a.accept); }
    }
  }

  lemma {:induction false} SettingsStay(s: Sys, actions: seq<Action>)
    ensures SameSettings(s, RunSys(s, actions))
    decreases |actions|
  {
    hide Step;
    if actions != [] {
      StepKeepsSettings(s, actions[0]);
      SettingsStay(Step(s, actions[0]), actions[1..]);
    }
  }

  // ---------------------------------------------------------------- cleaning up

  /** Cleaning up forgets the request's plan and future, takes a lookup that has not started out of the queue, marks one
      that has, and queues a cancel behind everything else; all other requests keep what they have. */
  lemma CleanedUp(s: Sys, r: RequestId)
    ensures var s' := DoCleanup(s, r);
            && r !in s'.plans && r !in s'.futures && r !in s'.live
            && s'.queue != [] && s'.queue[|s'.queue| - 1] == Cancel(r)
            && (forall t :: t in s'.queue[..|s'.queue| - 1] <==>
                  t in s.queue && !(t.Lookup? && r in s.futures && t.ticket == s.futures[r]))
            && (r in s'.cancelled <==>
                  r in s.cancelled || (r in s.futures && forall t :: t in s.queue && t.Lookup? ==>
                    t.ticket != s.futures[r]))
            && (forall q :: q != r ==>
                  (q in s'.plans <==> q in s.plans) && (q in s.plans ==> s'.plans[q] == s.plans[q]))
            && (forall q :: q != r ==> (q in s'.cancelled <==> q in s.cancelled))
            && s'.results == s.results && s'.worker == s.worker && s'.ranks == s.ranks
  {
    var s' := DoCleanup(s, r);
    assert s'.queue == Pruned(s, r) + [Cancel(r)];
    if r in s.futures {
      WithoutTicketElements(s.queue, s.futures[r]);
      QueuedElements(s.queue, s.futures[r]);
    }
  }

  lemma QueuedElements(queue: seq<Task>, ticket: nat)
    ensures Queued(queue, ticket) <==> exists t :: t in queue && t.Lookup? && t.ticket == ticket
  {
    if t :| t in queue && t.Lookup? && t.ticket == ticket {
      var i :| 0 <= i < |queue| && queue[i] == t;
    }
  }

  /** The lookup of a cleaned-up request is still running under its mark, or has filed an empty plan. */
  ghost predicate Abandoned(s: Sys, r: RequestId, ticket: nat) {
    if ticket in s.results then s.results[ticket].segments == []
    else s.worker.LooksUp() && s.worker.ticket == ticket && s.worker.job.request == r && r in s.cancelled
  }

  lemma StepAbandons(s: Sys, r: RequestId, ticket: nat, a: Action)
    requires SysInv(s) && Abandoned(s, r, ticket) && r !in s.futures && !(a.GetMatched? && a.job.request == r)
    ensures Abandoned(Step(s, a), r, ticket) && r !in Step(s, a).futures
  {
    hide SysInv, Step, IsPlanOf;
    ResultsAreFiledRightly(s, a);
    StepKeepsMark(s, r, a);
    if ticket in Step(s, a).results && ticket !in s.results {
      EmptyPlanHasNoSegments(s, s.worker.job, Step(s, a).results[ticket]);
    }
  }

  lemma EmptyPlanHasNoSegments(s: Sys, job: Job, plan: BlendPlan)
    requires IsPlanOf(job, s.chunkSize, [], s.sparse, plan)
    ensures plan.segments == []
  {
  }

  /** A step in a marked lookup keeps the lookup and its mark, or files its result. */
  lemma StepKeepsMark(s: Sys, r: RequestId, a: Action)
    requires r !in s.futures && !(a.GetMatched? && a.job.request == r)
    ensures r !in Step(s, a).futures
    ensures s.worker.LooksUp() && s.worker.job.request == r && r in s.cancelled ==>
              var s' := Step(s, a);
              || s.worker.ticket in s'.results
              || (s'.worker.LooksUp() && s'.worker.ticket == s.worker.ticket && s'.worker.job == s.worker.job
                   && r in s'.cancelled)
  {
    if IsQuiet(a) {
      QuietStepFrame(s, a);
      hide Step;
    } else {
      hide WithoutTicket, Queued, DoDecide;
      if a.Decide? { DecideShape(s, a.accept); }
    }
  }

  /** A lookup whose request is cleaned up while it runs never yields a plan: whatever it finds, and however long it
      goes on, the result it files is empty. */
  lemma {:induction false} AbandonedLookupFilesNothing(s: Sys, actions: seq<Action>, r: RequestId, ticket: nat)
    requires SysInv(s) && Abandoned(s, r, ticket) && r !in s.futures
    requires forall a :: a in actions ==> !(a.GetMatched? && a.job.request == r)
    ensures Abandoned(RunSys(s, actions), r, ticket)
    decreases |actions|
  {
    hide SysInv, Abandoned, Step;
    if actions != [] {
      StepAbandons(s, r, ticket, actions[0]);
      StepKeeps(s, actions[0]);
      AbandonedLookupFilesNothing(Step(s, actions[0]), actions[1..], r, ticket);
    }
  }

  lemma CleanedUpLookupFilesNothing(s: Sys, actions: seq<Action>, r: RequestId)
    requires SysInv(s) && CurrentLookup(s, r)
    requires forall a :: a in actions ==> !(a.GetMatched? && a.job.request == r)
    ensures var after, ticket := RunSys(Step(s, Cleanup(r)), actions), s.worker.ticket;
            if ticket in after.results then after.results[ticket].segments == []
            else after.worker.LooksUp() && after.worker.ticket == ticket && r in after.cancelled
  {
    hide RanksOk, PhaseOk, StatusOk, RunSys, DoCleanup;
    CleanedUp(s, r);
    LookupIsDequeued(s, r);
    StepKeeps(s, Cleanup(r));
    AbandonedLookupFilesNothing(Step(s, Cleanup(r)), actions, r, s.worker.ticket);
  }

  lemma LookupIsDequeued(s: Sys, r: RequestId)
    requires BooksOk(s) && CurrentLookup(s, r)
    ensures s.worker.ticket !in s.results
    ensures forall t :: t in s.queue && t.Lookup? ==> t.ticket != s.futures[r]
  {
    QueuedElements(s.queue, s.worker.ticket);
  }

  // ---------------------------------------------------------------- who is live, whose pins were given back

  /** A request is live from being asked for to being cleaned up, and counts as released from a worker process giving
      its pins back to the start of its next lookup. */
  lemma MarkersFollowSteps(s: Sys, a: Action, r: RequestId)
    ensures r in Step(s, a).live <==>
              (a.GetMatched? && a.job.request == r) || (r in s.live && a != Cleanup(r))
    ensures r in Step(s, a).released <==>
              || (a.RankOp? && a.rank < |s.ranks| && a.op == OpRelease(r))
              || (r in s.released && !(a.Dequeue? && s.worker.Idle? && s.queue != [] && IsLookup(s.queue[0], r)))
  {
    if a.RankOp? || !IsQuiet(a) {
      hide Apply, WithoutTicket, Queued, DoDecide;
      if a.Decide? { DecideShape(s, a.accept); }
    } else {
      RoundsKeepMarkers(s, a);
    }
  }

  lemma RoundsKeepMarkers(s: Sys, a: Action)
    requires IsQuiet(a) && !a.RankOp?
    ensures Step(s, a).live == s.live && Step(s, a).released == s.released
  {
    hide Scan, Validate, Pin, Release, Shift;
  }
}
