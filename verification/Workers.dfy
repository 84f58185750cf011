/** Worker pools draining the queue, as a state machine of interleaved steps. A claim is a clock
    reading, a locking read and an update; a handler is its reads and its commits; `ack` is an
    update and `fail` a read and an update, made apart from the worker, which waits for them.
    Any worker may be cancelled, any number of times, or die between any two steps. */
module Workers {
  import opened Options
  import opened Lifecycle
  import opened Jobs

  /** How far a handler has got. */
  datatype Progress =
    | Fresh
    | Scored                       // extract_chunk: read the chunk as pending, model asked
    | Written(admitted: bool)      // extract_chunk: lifecycle committed, follow-up not enqueued
    | SeenAdmitted                 // append_buffer: read the chunk as admitted
    | Appended                     // append_buffer: chunk committed as buffered
    | Selected(sel: set<string>)   // seal: read these chunks as buffered, summary asked
    | Returned

  /** How far the `ack` or `fail` of a job has got. */
  datatype Ledger = Acking | Failing | Recorded(retries: nat) | Settled

  /** How the worker waits for it: behind the shield; directly, once a cancellation got past the
      shield; or, for the `fail` of an unknown kind, as part of itself and with no shield. */
  datatype Wait = Shielded | Direct | Unshielded

  /** What a locking read saw: the rows, and those some claim held. */
  datatype Pick = Pick(jobs: map<nat, Job>, locked: set<nat>)

  datatype Worker =
    | Idle
    | Polling(t: int)
    | Holding(t: int, job: nat, pick: Pick)
    | Running(job: nat, expires: int, progress: Progress)
    | Booking(job: nat, expires: int, ledger: Ledger, wait: Wait)
    | Stopped

  datatype Event = Claimed(job: nat, at: int, expires: int, pick: Pick) | Released(job: nat)

  datatype State = State(
    now: int,
    maxRetries: int,
    chunks: map<string, Stage>,
    jobs: map<nat, Job>,
    workers: map<string, Worker>,
    log: seq<Event>)

  datatype Action =
    | Tick(to: int)
    | Ingest(chunk: string)
    | Enqueue(task: Task, id: nat, runAfter: Option<int>)
    | BeginClaim(w: string)
    | SelectJob(w: string, job: nat)
    | SelectNone(w: string)
    | CommitClaim(w: string, leaseSeconds: nat)
    | ReadPending(w: string)
    | WriteExtraction(w: string, admit: bool)
    | EnqueueAppend(w: string, id: nat)
    | ReadAdmitted(w: string)
    | WriteBuffered(w: string)
    | SelectBuffered(w: string, sel: set<string>)
    | WriteSealed(w: string)
    | Return(w: string)
    | Raise(w: string)
    | Refuse(w: string)            // no handler for the kind
    | CommitAck(w: string)
    | ReadRetries(w: string)
    | CommitFail(w: string)
    | Resume(w: string)            // the wait for a settled ack or fail is over
    | BookkeepingError(w: string)  // it raised, which ends the worker's loop
    | Cancel(w: string)
    | Crash(w: string)
    | Start(w: string)

  predicate IsLocked(s: State, j: nat) {
    exists w :: w in s.workers && s.workers[w].Holding? && s.workers[w].job == j
  }

  function LockedRows(s: State): set<nat> {
    set j | j in s.jobs && IsLocked(s, j)
  }

  /** Still to write something under its lease. */
  predicate Active(k: Worker) {
    k.Running? || Unsettled(k)
  }

  predicate Unsettled(k: Worker) {
    k.Booking? && !k.ledger.Settled?
  }

  /** The lease a worker acts under still covers the clock. */
  predicate InLease(s: State, w: string)
    requires w in s.workers && Active(s.workers[w])
  {
    s.now <= s.workers[w].expires
  }

  function TaskOf(s: State, w: string): Task
    requires w in s.workers && Active(s.workers[w]) && s.workers[w].job in s.jobs
  {
    s.jobs[s.workers[w].job].task
  }

  function Accept(s: State, task: Task, id: nat, runAfter: Option<int>): map<nat, Job> {
    if exists j :: j in s.jobs && s.jobs[j].key == DedupeKey(task) then s.jobs
    else s.jobs[id := NewJob(task, DedupeKey(task), runAfter, s.now)]
  }

  predicate InStage(s: State, c: string, stage: Stage) {
    c in s.chunks && s.chunks[c] == stage
  }

  predicate At(s: State, w: string, p: Progress) {
    w in s.workers && s.workers[w].Running? && s.workers[w].progress == p && s.workers[w].job in s.jobs
  }

  predicate Running(s: State, w: string) {
    w in s.workers && s.workers[w].Running? && s.workers[w].job in s.jobs
  }

  predicate Waits(s: State, w: string) {
    w in s.workers && s.workers[w].Booking?
  }

  /** An update of a job row waits while a claim holds the row. */
  predicate CanUpdate(s: State, j: nat) {
    j in s.jobs && !IsLocked(s, j)
  }

  predicate Enabled(s: State, a: Action) {
    match a
    case Tick(to) => to >= s.now
    case Ingest(c) => c !in s.chunks
    case Enqueue(_, id, _) => id !in s.jobs
    case BeginClaim(w) => w in s.workers && s.workers[w].Idle?
    case SelectJob(w, j) =>
      && w in s.workers && s.workers[w].Polling?
      && j in s.jobs && Runnable(s.jobs[j], s.workers[w].t) && !IsLocked(s, j)
      && forall i | i in s.jobs && Runnable(s.jobs[i], s.workers[w].t) && !IsLocked(s, i) ::
           s.jobs[j].createdAt <= s.jobs[i].createdAt
    case SelectNone(w) =>
      && w in s.workers && s.workers[w].Polling?
      && forall i | i in s.jobs && Runnable(s.jobs[i], s.workers[w].t) :: IsLocked(s, i)
    case CommitClaim(w, _) => w in s.workers && s.workers[w].Holding? && s.workers[w].job in s.jobs
    case ReadPending(w) => At(s, w, Fresh) && TaskOf(s, w).ExtractChunk?
    case WriteExtraction(w, _) => At(s, w, Scored) && TaskOf(s, w).ExtractChunk?
    case EnqueueAppend(w, id) => At(s, w, Written(true)) && TaskOf(s, w).ExtractChunk? && id !in s.jobs
    case ReadAdmitted(w) => At(s, w, Fresh) && TaskOf(s, w).AppendBuffer?
    case WriteBuffered(w) => At(s, w, SeenAdmitted) && TaskOf(s, w).AppendBuffer?
    case SelectBuffered(w, sel) =>
      && ((At(s, w, Appended) && TaskOf(s, w).AppendBuffer?) || (At(s, w, Fresh) && TaskOf(s, w).Flush?))
      && forall c | c in sel :: InStage(s, c, Buffered)
    case WriteSealed(w) => Running(s, w) && s.workers[w].progress.Selected?
    case Return(w) =>
      && Running(s, w)
      && (match s.workers[w].progress
          case Fresh => TaskOf(s, w).Flush? || TaskOf(s, w).Other?
          case Written(admitted) => !admitted
          case Appended => true
          case Returned => true
          case _ => false)
    case Raise(w) => Running(s, w) && !TaskOf(s, w).Unknown?
    case Refuse(w) => At(s, w, Fresh) && TaskOf(s, w).Unknown?
    case CommitAck(w) => Waits(s, w) && s.workers[w].ledger.Acking? && CanUpdate(s, s.workers[w].job)
    case ReadRetries(w) => Waits(s, w) && s.workers[w].ledger.Failing? && s.workers[w].job in s.jobs
    case CommitFail(w) => Waits(s, w) && s.workers[w].ledger.Recorded? && CanUpdate(s, s.workers[w].job)
    case Resume(w) => Waits(s, w) && s.workers[w].ledger.Settled?
    case BookkeepingError(w) => Waits(s, w)
    case Cancel(w) => w in s.workers
    case Crash(w) => w in s.workers
    case Start(w) => w in s.workers && s.workers[w].Stopped?
  }

  function Set(s: State, w: string, k: Worker): State {
    s.(workers := s.workers[w := k])
  }

  function Next(s: State, a: Action): State
    requires Enabled(s, a)
  {
    match a
    case Tick(to) => s.(now := to)
    case Ingest(c) => s.(chunks := s.chunks[c := PendingExtraction])
    case Enqueue(task, id, runAfter) => s.(jobs := Accept(s, task, id, runAfter))
    case BeginClaim(w) => Set(s, w, Polling(s.now))
    case SelectJob(w, j) => Set(s, w, Holding(s.workers[w].t, j, Pick(s.jobs, LockedRows(s))))
    case SelectNone(w) => Set(s, w, Idle)
    case CommitClaim(w, leaseSeconds) =>
      var k := s.workers[w];
      var expires := k.t + leaseSeconds;
      Set(s, w, Worker.Running(k.job, expires, Fresh))
      .(jobs := s.jobs[k.job := LeaseTo(s.jobs[k.job], w, expires)],
        log := s.log + [Claimed(k.job, k.t, expires, k.pick)])
    case ReadPending(w) =>
      Advance(s, w, if InStage(s, TaskOf(s, w).chunk, PendingExtraction) then Scored else Returned)
    case WriteExtraction(w, admit) =>
      // the write does not look at the stage again
      var c := TaskOf(s, w).chunk;
      Advance(s, w, Written(admit)).(chunks := Put(s.chunks, c, if admit then Admitted else Dropped))
    case EnqueueAppend(w, id) =>
      Advance(s, w, Returned).(jobs := Accept(s, AppendBuffer(TaskOf(s, w).chunk), id, None))
    case ReadAdmitted(w) =>
      Advance(s, w, if InStage(s, TaskOf(s, w).chunk, Admitted) then SeenAdmitted else Returned)
    case WriteBuffered(w) =>
      Advance(s, w, Appended).(chunks := Put(s.chunks, TaskOf(s, w).chunk, Buffered))
    case SelectBuffered(w, sel) => Advance(s, w, Selected(sel))
    case WriteSealed(w) =>
      var sel := s.workers[w].progress.sel;
      Advance(s, w, Returned).(chunks := map c | c in s.chunks :: if c in sel then Sealed else s.chunks[c])
    case Return(w) => Set(s, w, Worker.Booking(s.workers[w].job, s.workers[w].expires, Acking, Shielded))
    case Raise(w) => Set(s, w, Worker.Booking(s.workers[w].job, s.workers[w].expires, Failing, Shielded))
    case Refuse(w) => Set(s, w, Worker.Booking(s.workers[w].job, s.workers[w].expires, Failing, Unshielded))
    case CommitAck(w) =>
      var j := s.workers[w].job;
      Enter(s, w, Settled).(jobs := s.jobs[j := Ack(s.jobs[j])], log := s.log + [Released(j)])
    case ReadRetries(w) => Enter(s, w, Recorded(s.jobs[s.workers[w].job].retryCount))
    case CommitFail(w) =>
      var k := s.workers[w];
      Enter(s, w, Settled)
      .(jobs := s.jobs[k.job := Fail(s.jobs[k.job], k.ledger.retries, s.now, s.maxRetries)],
        log := s.log + [Released(k.job)])
    case Resume(w) => Set(s, w, if s.workers[w].wait.Direct? then Stopped else Idle)
    case BookkeepingError(w) => Set(s, w, Stopped)
    case Cancel(w) =>
      // the shield takes the first cancellation; the next one reaches the ack or fail and undoes
      // what it has not committed, as does the first one where there is no shield
      var k := s.workers[w];
      Set(s, w, if k.Booking? && k.wait.Shielded? then k.(wait := Direct) else Stopped)
    case Crash(w) => Set(s, w, Stopped)
    case Start(w) => Set(s, w, Idle)
  }

  function Advance(s: State, w: string, p: Progress): State
    requires w in s.workers && s.workers[w].Running?
  {
    Set(s, w, s.workers[w].(progress := p))
  }

  function Enter(s: State, w: string, ledger: Ledger): State
    requires w in s.workers && s.workers[w].Booking?
  {
    Set(s, w, s.workers[w].(ledger := ledger))
  }

  /** An UPDATE of a missing row does nothing. */
  function Put(chunks: map<string, Stage>, c: string, stage: Stage): map<string, Stage> {
    if c in chunks then chunks[c := stage] else chunks
  }

  ghost predicate Initial(s: State) {
    s.chunks == map[] && s.jobs == map[] && s.log == [] && forall w | w in s.workers :: s.workers[w].Idle?
  }
}
