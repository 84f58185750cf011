/** What extraction hands on: its follow-up goes with the stage it wrote, and is enqueued unless the
    worker is interrupted first. */
module WorkersFollowUp {
  import opened Options
  import opened Lifecycle
  import opened Jobs
  import opened Workers
  import opened WorkersAllRuns
  import opened WorkersTimely

  /** Past its lifecycle commit, an extraction remembers what it wrote: an admitted chunk is at or past
      that stage, any other is dropped. */
  ghost predicate WrittenRightly(s: State) {
    forall w | Wrote(s, w) ::
      WroteStage(s, s.jobs[s.workers[w].job].task.chunk, s.workers[w].progress.admitted)
  }

  predicate Wrote(s: State, w: string) {
    && w in s.workers && s.workers[w].Running? && s.workers[w].progress.Written? && s.workers[w].job in s.jobs
    && s.jobs[s.workers[w].job].task.ExtractChunk?
  }

  predicate WroteStage(s: State, c: string, admitted: bool) {
    c in s.chunks && if admitted then s.chunks[c] in {Admitted, Buffered, Sealed} else s.chunks[c].Dropped?
  }

  lemma WroteStageStays(s: State, u: State, c: string, admitted: bool)
    requires WroteStage(s, c, admitted) && ChunksAdvance(s.chunks, u.chunks)
    ensures WroteStage(u, c, admitted)
  {
  }

  /** The commit itself writes the stage it remembers. */
  lemma NewlyWritten(s: State, a: Action)
    requires Orderly(s) && Enabled(s, a) && Timely(s, a) && a.WriteExtraction?
    ensures WroteStage(Next(s, a), TaskOf(s, a.w).chunk, a.admit)
    ensures Next(s, a).workers[a.w].progress == Written(a.admit)
    ensures TaskOf(s, a.w).ExtractChunk? && Next(s, a).jobs == s.jobs
  {
    assert LiveWorker(s, a.w);
  }

  lemma OnlyThere(s: State, a: Action, w: string)
    requires Enabled(s, a) && Wrote(Next(s, a), w)
    ensures a == WriteExtraction(w, Next(s, a).workers[w].progress.admitted)
      || (w in s.workers && s.workers[w] == Next(s, a).workers[w])
  {
    ClockMovesOn(s, a);
    if Actor(a) != Some(w) {
      OthersKeepState(s, a, w);
      hide Next, Enabled;
    }
  }

  lemma StepKeepsWritten(s: State, a: Action)
    requires Orderly(s) && Enabled(s, a) && Timely(s, a) && WrittenRightly(s)
    ensures WrittenRightly(Next(s, a))
  {
    var u := Next(s, a);
    StepKeepsOrderly(s, a);
    StepKeepsRows(s, a);
    if a.WriteExtraction? {
      NewlyWritten(s, a);
    }
    forall w | Wrote(u, w)
      ensures WroteStage(u, u.jobs[u.workers[w].job].task.chunk, u.workers[w].progress.admitted)
    {
      OnlyThere(s, a, w);
      hide Next, Enabled, Timely, ChunksAdvance, WroteStage;
      if w in s.workers && s.workers[w] == u.workers[w] {
        assert GoodClaimer(s, w);
        hide Orderly;
        WroteStageStays(s, u, u.jobs[u.workers[w].job].task.chunk, u.workers[w].progress.admitted);
      }
    }
  }

  lemma {:induction false} TimelyRunsWriteRightly(s: State, actions: seq<Action>)
    requires Orderly(s) && WrittenRightly(s) && TimelyRun(s, actions)
    ensures CanRun(s, actions) && WrittenRightly(Run(s, actions))
    decreases |actions|
  {
    TimelyRunsAreRuns(s, actions);
    if actions == [] {
    } else {
      StepKeepsOrderly(s, actions[0]);
      StepKeepsWritten(s, actions[0]);
      hide Next, Enabled, Timely, Orderly, WrittenRightly;
      TimelyRunsWriteRightly(Next(s, actions[0]), actions[1..]);
    }
  }

  /** In every timely run from an empty queue. */
  lemma WrittenFromStart(s: State, actions: seq<Action>)
    requires Initial(s) && s.maxRetries >= 1 && TimelyRun(s, actions)
    ensures CanRun(s, actions) && WrittenRightly(Run(s, actions))
  {
    InitialIsOrderly(s);
    TimelyRunsWriteRightly(s, actions);
  }

  ghost predicate HasKey(s: State, key: string) {
    exists j :: j in s.jobs && s.jobs[j].key == key
  }

  /** The step changes the worker. */
  predicate Moves(s: State, a: Action, w: string)
    requires Enabled(s, a)
  {
    w in s.workers && (w in Next(s, a).workers ==> Next(s, a).workers[w] != s.workers[w])
  }

  lemma AcceptedIsThere(s: State, task: Task, id: nat, runAfter: Option<int>)
    ensures exists j :: j in Accept(s, task, id, runAfter) && Accept(s, task, id, runAfter)[j].key == DedupeKey(task)
  {
    if j :| j in s.jobs && s.jobs[j].key == DedupeKey(task) {
      assert j in Accept(s, task, id, runAfter);
    } else {
      assert Accept(s, task, id, runAfter)[id].key == DedupeKey(task);
    }
  }

  /** A worker that has admitted its chunk and goes on from there, and is not cancelled, killed or
      stopped by an error, has enqueued the chunk's append job, which is there for good. */
  lemma FollowUpIsEnqueued(s: State, a: Action, w: string, actions: seq<Action>)
    requires Consistent(s) && Enabled(s, a) && At(s, w, Written(true)) && TaskOf(s, w).ExtractChunk?
    requires Moves(s, a, w) && a != Cancel(w) && a != Crash(w) && a != Raise(w)
    requires CanRun(Next(s, a), actions)
    ensures HasKey(Run(Next(s, a), actions), "buffer:" + TaskOf(s, w).chunk)
  {
    var t, key := Next(s, a), "buffer:" + TaskOf(s, w).chunk;
    assert a.EnqueueAppend? && a.w == w;
    AcceptedIsThere(s, AppendBuffer(TaskOf(s, w).chunk), a.id, None);
    assert HasKey(t, key);
    StepKeepsConsistent(s, a);
    hide Consistent, Next, Enabled;
    EveryRunIsConsistent(t, actions);
    var j :| j in t.jobs && t.jobs[j].key == key;
    assert j in Run(t, actions).jobs;
  }

  /** And one that dropped its chunk enqueues nothing for it. */
  lemma DroppedIsNotFollowed(s: State, a: Action, w: string)
    requires Enabled(s, a) && At(s, w, Written(false))
    ensures Actor(a) == Some(w) ==> Next(s, a).jobs == s.jobs && Next(s, a).chunks == s.chunks
  {
  }

  /** Keys tell the jobs of different chunks apart, and a chunk's extraction from its append. */
  lemma ChunkJobsAreApart(c: string, d: string)
    ensures DedupeKey(ExtractChunk(c)) == DedupeKey(ExtractChunk(d)) <==> c == d
    ensures DedupeKey(AppendBuffer(c)) == DedupeKey(AppendBuffer(d)) <==> c == d
    ensures DedupeKey(ExtractChunk(c)) != DedupeKey(AppendBuffer(d))
  {
    assert ("extract:" + c)[8..] == c && ("extract:" + d)[8..] == d;
    assert ("buffer:" + c)[7..] == c && ("buffer:" + d)[7..] == d;
    assert ("extract:" + c)[0] == 'e' && ("buffer:" + d)[0] == 'b';
  }
}
