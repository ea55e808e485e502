/** The scheduler, its one-worker lookup queue and the rank stores as one transition system.
    Every RPC is one atomic step on one rank; everything else may happen in between. */
module ProtocolModel {
  import opened Wrappers
  import opened Hashing
  import opened Types
  import opened Matching
  import opened StoreModel

  /** The arguments of one lookup: a whole prompt and the length of the prefix already cached. */
  datatype Job = Job(request: RequestId, scope: string, prompt: seq<Token>, apc: nat)
  {
    /** The tokens sent to rank 0: the prompt without its last token, from the prefix on. */
    function Suffix(): seq<Token> {
      if apc < |prompt| then prompt[apc..|prompt| - 1] else []
    }
  }

  datatype Task = Lookup(ticket: nat, job: Job) | Cancel(request: RequestId)

  /** Where the single worker stands. `waiting` holds the ranks whose reply is outstanding. */
  datatype Worker =
    | Idle
    | Searching(ticket: nat, job: Job)
    | Confirming(ticket: nat, job: Job, found: seq<BlendSegment>)
    | Validating(ticket: nat, job: Job, candidates: seq<BlendSegment>, waiting: set<nat>, common: set<BlendSegment>)
    | Prefetching(ticket: nat, job: Job, final: seq<BlendSegment>, waiting: set<nat>, agreed: set<BlendSegment>)
    | Undoing(ticket: nat, job: Job, waiting: set<nat>, rejected: bool)
    | Returned(ticket: nat, job: Job, segments: seq<BlendSegment>)
    | Draining(request: RequestId, waiting: set<nat>)
  {
    predicate LooksUp() { !Idle? && !Draining? }

    predicate WorksFor(r: RequestId) {
      if Idle? then false else if Draining? then request == r else job.request == r
    }
  }

  /** `released` is history only: requests whose pins a worker process gave back since their lookup started. */
  datatype Sys = Sys(
    ranks: seq<Store>, sparse: bool, chunkSize: nat,
    queue: seq<Task>, worker: Worker,
    live: set<RequestId>, futures: map<RequestId, nat>, results: map<nat, BlendPlan>,
    plans: map<RequestId, BlendPlan>, cancelled: set<RequestId>,
    nextTicket: nat, released: set<RequestId>)
  {
    function AllRanks(): set<nat> {
      UpTo(|ranks|)
    }
  }

  function UpTo(n: nat): (ks: set<nat>)
    ensures forall k: nat :: k in ks <==> k < n
  {
    if n == 0 then {} else UpTo(n - 1) + {n - 1}
  }

  datatype Action =
    | RankOp(rank: nat, op: Op)
    | GetMatched(job: Job, cacheable: bool)
    | Cleanup(request: RequestId)
    | Dequeue
    | Search
    | Confirm
    | ValidateRank(rank: nat)
    | PrefetchRank(rank: nat)
    | CancelRank(rank: nat)
    | Decide(accept: bool)

  function EmptyPlan(apc: int): BlendPlan {
    BlendPlan(apc, apc, 0, [])
  }

  /** `from_segments`, stretched to the end of the searched prompt for the Sparse-Q strategies. */
  function PlanFor(job: Job, segments: seq<BlendSegment>, sparse: bool): BlendPlan {
    var plan := SpanOf(job.apc, SortByTarget(Distinct(segments)));
    if plan.segments != [] && sparse then plan.(allocationEnd := |job.prompt| - 1) else plan
  }

  function Elements(segments: seq<BlendSegment>): set<BlendSegment> {
    set s | s in segments
  }

  // ---------------------------------------------------------------- scheduler steps

  predicate IsLookup(task: Task, r: RequestId) {
    task.Lookup? && task.job.request == r
  }

  function WithoutTicket(queue: seq<Task>, ticket: nat): seq<Task> {
    if queue == [] then []
    else if queue[0].Lookup? && queue[0].ticket == ticket then WithoutTicket(queue[1..], ticket)
    else [queue[0]] + WithoutTicket(queue[1..], ticket)
  }

  predicate Queued(queue: seq<Task>, ticket: nat) {
    exists i :: 0 <= i < |queue| && queue[i].Lookup? && queue[i].ticket == ticket
  }

  function DoGetMatched(s: Sys, job: Job, cacheable: bool): Sys {
    var r := job.request;
    var s := s.(cancelled := s.cancelled - {r}, live := s.live + {r});
    if !cacheable || r in s.plans then s
    else if r in s.futures then
      var ticket := s.futures[r];
      if ticket in s.results then s.(futures := s.futures - {r}, plans := s.plans[r := s.results[ticket]]) else s
    else if |job.prompt| - job.apc <= s.chunkSize then s.(plans := s.plans[r := EmptyPlan(job.apc)])
    else s.(futures := s.futures[r := s.nextTicket], queue := s.queue + [Lookup(s.nextTicket, job)],
            nextTicket := s.nextTicket + 1)
  }

  /** A pending future is cancelled out of the queue; a running or finished one is only marked. */
  function DoCleanup(s: Sys, r: RequestId): Sys {
    var pending := r in s.futures && Queued(s.queue, s.futures[r]);
    var queue := if pending then WithoutTicket(s.queue, s.futures[r]) else s.queue;
    var cancelled := if r in s.futures && !pending then s.cancelled + {r} else s.cancelled;
    s.(queue := queue + [Cancel(r)], cancelled := cancelled, futures := s.futures - {r},
       plans := s.plans - {r}, live := s.live - {r})
  }

  // ---------------------------------------------------------------- worker steps

  function DoDequeue(s: Sys): Sys {
    if s.worker != Idle || s.queue == [] then s
    else
      match s.queue[0]
      case Lookup(ticket, job) =>
        s.(queue := s.queue[1..], worker := Searching(ticket, job), released := s.released - {job.request})
      case Cancel(r) =>
        s.(queue := s.queue[1..], worker := Draining(r, s.AllRanks()))
  }

  /** First locked region of rank 0's `store.match`. */
  function DoSearch(s: Sys): Sys {
    if !s.worker.Searching? || s.ranks == [] || s.chunkSize == 0 then s
    else
      var job := s.worker.job;
      s.(worker := Confirming(s.worker.ticket, job, Scan(s.ranks[0].matcher, s.chunkSize, job.scope, job.Suffix(), 0)))
  }

  /** Second locked region of rank 0's `store.match`, and the shift to prompt positions. */
  function DoConfirm(s: Sys): Sys {
    if !s.worker.Confirming? || s.ranks == [] then s
    else
      var w := s.worker;
      var (store, valid) := Validate(s.ranks[0], w.found);
      var candidates := Shift(valid, w.job.apc);
      s.(ranks := s.ranks[0 := store],
         worker := if candidates == [] then Returned(w.ticket, w.job, [])
                   else Validating(w.ticket, w.job, candidates, s.AllRanks() - {0}, Elements(candidates)))
  }

  function DoValidateRank(s: Sys, k: nat): Sys {
    if !s.worker.Validating? || k !in s.worker.waiting || k >= |s.ranks| then s
    else
      var w := s.worker;
      var (store, valid) := Validate(s.ranks[k], w.candidates);
      s.(ranks := s.ranks[k := store],
         worker := Validating(w.ticket, w.job, w.candidates, w.waiting - {k}, w.common * Elements(valid)))
  }

  function DoPrefetchRank(s: Sys, k: nat): Sys {
    if !s.worker.Prefetching? || k !in s.worker.waiting || k >= |s.ranks| then s
    else
      var w := s.worker;
      var (store, valid) := Pin(s.ranks[k], w.job.request, w.final);
      s.(ranks := s.ranks[k := store],
         worker := Prefetching(w.ticket, w.job, w.final, w.waiting - {k}, w.agreed * Elements(valid)))
  }

  function DoCancelRank(s: Sys, k: nat): Sys {
    if k >= |s.ranks| then s
    else
      match s.worker
      case Undoing(ticket, job, waiting, rejected) =>
        if k !in waiting then s
        else s.(ranks := s.ranks[k := Release(s.ranks[k], job.request)],
                worker := Undoing(ticket, job, waiting - {k}, rejected))
      case Draining(r, waiting) =>
        if k !in waiting then s
        else s.(ranks := s.ranks[k := Release(s.ranks[k], r)], worker := Draining(r, waiting - {k}))
      case _ => s
  }

  function Finish(s: Sys, plan: BlendPlan): Sys
    requires s.worker.LooksUp()
  {
    s.(results := s.results[s.worker.ticket := plan], worker := Idle)
  }

  /** What the worker does by itself once every awaited reply is in. */
  function DoDecide(s: Sys, accept: bool): Sys {
    match s.worker
    case Validating(ticket, job, candidates, waiting, common) =>
      if waiting != {} then s
      else
        var final := Keep(candidates, common);
        s.(worker := if final == [] then Returned(ticket, job, [])
          else Prefetching(ticket, job, final, s.AllRanks(), Elements(final)))
    case Prefetching(ticket, job, final, waiting, agreed) =>
      if waiting != {} then s
      else s.(worker := if agreed != Elements(final) then Undoing(ticket, job, s.AllRanks(), false)
        else Returned(ticket, job, final))
    case Undoing(ticket, job, waiting, rejected) =>
      if waiting != {} then s
      else if rejected then Finish(s, EmptyPlan(job.apc))
      else s.(worker := Returned(ticket, job, []))
    case Returned(ticket, job, segments) =>
      if job.request in s.cancelled then Finish(s, EmptyPlan(job.apc))
      else if accept then Finish(s, PlanFor(job, segments, s.sparse))
      else s.(worker := Undoing(ticket, job, s.AllRanks(), true))
    case Draining(r, waiting) =>
      if waiting != {} then s else s.(worker := Idle, cancelled := s.cancelled - {r})
    case _ => s
  }

  /** Operations other parties perform on a rank store: everything but pinning and clearing. */
  function DoRankOp(s: Sys, k: nat, op: Op): Sys {
    if k >= |s.ranks| || op.OpPin? || op.OpClear? then s
    else s.(ranks := s.ranks[k := Apply(s.ranks[k], op)],
            released := if op.OpRelease? then s.released + {op.request} else s.released)
  }

  function Step(s: Sys, a: Action): Sys {
    match a
    case RankOp(rank, op) => DoRankOp(s, rank, op)
    case GetMatched(job, cacheable) => DoGetMatched(s, job, cacheable)
    case Cleanup(r) => DoCleanup(s, r)
    case Dequeue => DoDequeue(s)
    case Search => DoSearch(s)
    case Confirm => DoConfirm(s)
    case ValidateRank(rank) => DoValidateRank(s, rank)
    case PrefetchRank(rank) => DoPrefetchRank(s, rank)
    case CancelRank(rank) => DoCancelRank(s, rank)
    case Decide(accept) => DoDecide(s, accept)
  }

  /** A disabled action changes nothing, so every sequence of actions is a run. */
  function RunSys(s: Sys, actions: seq<Action>): Sys
    decreases |actions|
  {
    if actions == [] then s else RunSys(Step(s, actions[0]), actions[1..])
  }

  function Start(n: nat, chunkSize: nat, limits: seq<nat>, sparse: bool): Sys
    requires |limits| == n
  {
    Sys(seq(n, k requires 0 <= k < n => Empty(chunkSize, limits[k])), sparse, chunkSize,
        [], Idle, {}, map[], map[], map[], {}, 0, {})
  }

  // ---------------------------------------------------------------- invariant

  ghost predicate RanksOk(s: Sys) {
    && s.chunkSize > 0 && |s.ranks| > 0
    && forall k :: 0 <= k < |s.ranks| ==> Inv(s.ranks[k]) && s.ranks[k].chunkSize == s.chunkSize
  }

  predicate NoPins(s: Sys, r: RequestId, k: nat)
    requires k < |s.ranks|
  {
    PinsOf(s.ranks[k], r) == []
  }

  ghost predicate Pinless(s: Sys, r: RequestId) {
    forall k :: 0 <= k < |s.ranks| ==> NoPins(s, r, k)
  }

  ghost predicate PinlessOutside(s: Sys, r: RequestId, waiting: set<nat>) {
    forall k :: 0 <= k < |s.ranks| && k !in waiting ==> NoPins(s, r, k)
  }

  /** Every rank holds exactly these segments for the request. */
  ghost predicate PinnedEverywhere(s: Sys, r: RequestId, segments: seq<BlendSegment>) {
    forall k :: 0 <= k < |s.ranks| ==> PinsOf(s.ranks[k], r) == SegmentIds(segments)
  }

  ghost predicate PinnedOutside(s: Sys, r: RequestId, segments: seq<BlendSegment>, waiting: set<nat>) {
    forall k :: 0 <= k < |s.ranks| && k !in waiting ==> PinsOf(s.ranks[k], r) == SegmentIds(segments)
  }

  /** A segment placed at a searched position whose id carries the hash of the prompt tokens there. */
  ghost predicate Claims(job: Job, chunkSize: nat, s: BlendSegment) {
    && s.Valid() && s.Length() == chunkSize && s.segmentId.modelScope == job.scope
    && job.apc <= s.targetStart && s.TargetEnd() <= |job.prompt| - 1
    && s.segmentId.contentHash == HashOf(job.prompt[s.targetStart..s.TargetEnd()])
  }

  ghost predicate Planable(job: Job, chunkSize: nat, segments: seq<BlendSegment>) {
    && Disjoint(segments)
    && forall i :: 0 <= i < |segments| ==> Claims(job, chunkSize, segments[i])
  }

  /** The same before the shift, for positions of the suffix. */
  ghost predicate SuffixPlanable(job: Job, chunkSize: nat, segments: seq<BlendSegment>) {
    && Disjoint(segments)
    && forall i :: 0 <= i < |segments| ==>
         segments[i].targetStart >= 0
         && Claims(job, chunkSize, segments[i].(targetStart := segments[i].targetStart + job.apc))
  }

  ghost predicate PhaseOk(s: Sys) {
    match s.worker
    case Idle => true
    case Searching(_, job) => Pinless(s, job.request)
    case Confirming(_, job, found) => Pinless(s, job.request) && SuffixPlanable(job, s.chunkSize, found)
    case Validating(_, job, candidates, _, common) => Pinless(s, job.request) && Planable(job, s.chunkSize, candidates)
    case Prefetching(_, job, final, waiting, agreed) =>
      && Planable(job, s.chunkSize, final) && final != []
      && (forall k :: k in waiting && k < |s.ranks| ==> NoPins(s, job.request, k))
      && agreed <= Elements(final)
      && (agreed == Elements(final) && job.request !in s.released ==> PinnedOutside(s, job.request, final, waiting))
    case Undoing(_, job, waiting, _) => PinlessOutside(s, job.request, waiting)
    case Returned(_, job, segments) =>
      && Planable(job, s.chunkSize, segments)
      && (segments == [] ==> Pinless(s, job.request))
      && (segments != [] && job.request !in s.released ==> PinnedEverywhere(s, job.request, segments))
    case Draining(r, waiting) => PinlessOutside(s, r, waiting)
  }

  /** A queued lookup's future is pending under its own ticket, and nothing later in the queue touches its request. */
  ghost predicate QueueOk(queue: seq<Task>, futures: map<RequestId, nat>, results: map<nat, BlendPlan>, nextTicket: nat)
  {
    && (forall i :: 0 <= i < |queue| && queue[i].Lookup? ==>
         && queue[i].ticket < nextTicket && queue[i].ticket !in results
         && queue[i].job.request in futures && futures[queue[i].job.request] == queue[i].ticket
         && queue[i].job.apc < |queue[i].job.prompt|)
    && (forall i, j :: 0 <= i < j < |queue| && queue[i].Lookup? ==>
         !IsLookup(queue[j], queue[i].job.request) && queue[j] != Cancel(queue[i].job.request))
  }

  /** The worker's ticket is unanswered, no longer queued, and only its own request waits for it. */
  ghost predicate WorkerOk(worker: Worker, queue: seq<Task>, futures: map<RequestId, nat>, results: map<nat, BlendPlan>,
                           nextTicket: nat)
  {
    worker.LooksUp() ==>
      && worker.ticket < nextTicket && worker.ticket !in results && worker.job.apc < |worker.job.prompt|
      && !Queued(queue, worker.ticket)
      && (forall r :: r in futures && futures[r] == worker.ticket ==> r == worker.job.request)
  }

  /** Futures and plans belong to live requests, each ticket to one of them. */
  ghost predicate TablesOk(s: Sys) {
    && (forall t :: t in s.results ==> t < s.nextTicket)
    && (forall r :: r in s.futures ==> s.futures[r] < s.nextTicket && r !in s.plans && r !in s.cancelled)
    && (forall r :: r in s.futures || r in s.plans ==> r in s.live)
    && (forall q, r :: q in s.futures && r in s.futures && s.futures[q] == s.futures[r] ==> q == r)
  }

  /** Bookkeeping of tickets, futures, plans and markers. */
  ghost predicate BooksOk(s: Sys) {
    && QueueOk(s.queue, s.futures, s.results, s.nextTicket)
    && WorkerOk(s.worker, s.queue, s.futures, s.results, s.nextTicket)
    && TablesOk(s)
  }

  ghost predicate CancelQueued(queue: seq<Task>, r: RequestId) {
    exists i :: 0 <= i < |queue| && queue[i] == Cancel(r)
  }

  /** A CANCEL of r is queued, ahead of any lookup of r that is still to start. */
  ghost predicate Covered(queue: seq<Task>, r: RequestId) {
    exists i :: 0 <= i < |queue| && queue[i] == Cancel(r) && forall j :: 0 <= j < i ==> !IsLookup(queue[j], r)
  }

  /** The worker is running the lookup whose future the scheduler still holds. */
  predicate CurrentLookup(s: Sys, r: RequestId) {
    s.worker.LooksUp() && s.worker.job.request == r && r in s.futures && s.futures[r] == s.worker.ticket
  }

  /** The non-empty plan the scheduler holds or is about to pick up for r, if any. */
  function SettledPlan(s: Sys, r: RequestId): Option<BlendPlan> {
    if r in s.plans && s.plans[r].segments != [] then Some(s.plans[r])
    else if r in s.futures && s.futures[r] in s.results && s.results[s.futures[r]].segments != []
      then Some(s.results[s.futures[r]])
    else None
  }

  ghost predicate Quiet(s: Sys, r: RequestId) {
    !s.worker.WorksFor(r) && Pinless(s, r)
  }

  ghost predicate BeingDrained(s: Sys, r: RequestId) {
    s.worker.Draining? && s.worker.request == r && PinlessOutside(s, r, s.worker.waiting)
  }

  ghost predicate StatusOk(s: Sys, r: RequestId) {
    if CurrentLookup(s, r) then !CancelQueued(s.queue, r)
    else if SettledPlan(s, r).Some? then
      && !CancelQueued(s.queue, r) && !s.worker.WorksFor(r)
      && (r !in s.released ==> PinnedEverywhere(s, r, SettledPlan(s, r).value.segments))
    else
      Covered(s.queue, r) || Quiet(s, r) || BeingDrained(s, r)
  }

  ghost predicate SysInv(s: Sys) {
    && RanksOk(s)
    && BooksOk(s)
    && PhaseOk(s)
    && forall r :: StatusOk(s, r)
  }
}
