/** Metered calls of many tenants at once: wait for the tenant's advisory lock, check, call the
    provider, record, unlock. The lock key is a hash of the tenant, so tenants may share a lock;
    nothing below depends on which. Any call may time out, fail or die between two steps. */
module MeteredCalls {
  import opened Options
  import opened Metering

  datatype Phase = Waiting | Locked | Cleared | Billed(cost: nat) | Recorded

  datatype Call = Call(tenant: string, kind: Kind, phase: Phase)

  /** `lockKey` stands for `hashtext`. */
  datatype State = State(cfg: Config, lockKey: string -> int, events: seq<UsageEvent>, calls: map<nat, Call>)

  datatype Action =
    | Arrive(i: nat, tenant: string, kind: Kind)
    | Acquire(i: nat)
    | TimeOut(i: nat)             // the lock wait ran out
    | Check(i: nat)               // refused calls unlock and end
    | ProviderReturns(i: nat, cost: nat)   // an ingest calls no provider and costs nothing
    | ProviderFails(i: nat)
    | Record(i: nat)
    | Unlock(i: nat)
    | Die(i: nat)                 // an error or a dead process; the session's lock goes with it

  predicate Holds(s: State, i: nat) {
    i in s.calls && !s.calls[i].phase.Waiting?
  }

  function HintOf(kind: Kind): Hint {
    match kind
    case Complete => Model("complete")
    case Embed(search) => if search then SearchEmbed else Model("embed")
    case Ingest => IngestRequest
  }

  predicate Enabled(s: State, a: Action) {
    match a
    case Arrive(i, tenant, kind) => i !in s.calls && (kind.Ingest? ==> tenant in s.cfg.signup)
    case Acquire(i) =>
      && i in s.calls && s.calls[i].phase.Waiting?
      && forall j | j in s.calls && Holds(s, j) :: s.lockKey(s.calls[j].tenant) != s.lockKey(s.calls[i].tenant)
    case TimeOut(i) => i in s.calls && s.calls[i].phase.Waiting?
    case Check(i) => i in s.calls && s.calls[i].phase.Locked?
    case ProviderReturns(i, cost) =>
      i in s.calls && s.calls[i].phase.Cleared? && (s.calls[i].kind.Ingest? ==> cost == 0)
    case ProviderFails(i) => i in s.calls && s.calls[i].phase.Cleared? && !s.calls[i].kind.Ingest?
    case Record(i) => i in s.calls && s.calls[i].phase.Billed?
    case Unlock(i) => i in s.calls && s.calls[i].phase.Recorded?
    case Die(i) => i in s.calls
  }

  function To(s: State, i: nat, phase: Phase): State
    requires i in s.calls
  {
    s.(calls := s.calls[i := s.calls[i].(phase := phase)])
  }

  function End(s: State, i: nat): State {
    s.(calls := s.calls - {i})
  }

  function Next(s: State, a: Action): State
    requires Enabled(s, a)
  {
    match a
    case Arrive(i, tenant, kind) => s.(calls := s.calls[i := Call(tenant, kind, Waiting)])
    case Acquire(i) => To(s, i, Locked)
    case TimeOut(i) => End(s, i)
    case Check(i) =>
      if Clears(s.cfg, s.events, s.calls[i].tenant, s.calls[i].kind) then To(s, i, Cleared) else End(s, i)
    case ProviderReturns(i, cost) => To(s, i, Billed(cost))
    case ProviderFails(i) => End(s, i)
    case Record(i) => To(s, i, Recorded).(events := s.events + [Charge(s.calls[i])])
    case Unlock(i) => End(s, i)
    case Die(i) => End(s, i)
  }

  function Charge(c: Call): UsageEvent
    requires c.phase.Billed?
  {
    UsageEvent(c.tenant, HintOf(c.kind), c.phase.cost)
  }

  // ------------------------------------------------------------- invariants

  /** Between check and record. */
  predicate InFlight(s: State, i: nat) {
    i in s.calls && (s.calls[i].phase.Cleared? || s.calls[i].phase.Billed?)
  }

  ghost predicate LocksExclude(s: State) {
    forall i, j | Holds(s, i) && Holds(s, j) && s.lockKey(s.calls[i].tenant) == s.lockKey(s.calls[j].tenant) :: i == j
  }

  /** What the check of a call found still holds of its own tenant while the call is in flight.
      (For the demo family it need not: relatives hold other locks.) */
  ghost predicate StillClear(s: State, i: nat)
    requires i in s.calls
  {
    var c := s.calls[i];
    && (!c.kind.Ingest? && c.tenant in s.cfg.caps ==> Spent(s.events, Tenant(c.tenant)) < s.cfg.caps[c.tenant])
    && (c.kind == Embed(true) ==> UnderLimit(s.cfg, s.events, c.tenant, SearchEmbed))
    && (c.kind.Ingest? ==> UnderLimit(s.cfg, s.events, c.tenant, IngestRequest))
    && (c.kind.Ingest? && c.phase.Billed? ==> c.phase.cost == 0)
  }

  ghost predicate LimitsHold(s: State) {
    forall tenant, hint: Hint | tenant in s.cfg.signup && (hint.SearchEmbed? || hint.IngestRequest?) ::
      Count(s.events, tenant, hint) == 0 || Count(s.events, tenant, hint) <= s.cfg.signupLimit
  }

  ghost predicate Metered(s: State) {
    && LocksExclude(s)
    && (forall i | InFlight(s, i) :: StillClear(s, i))
    && RecordedUnderCap(s.cfg, s.events)
    && LimitsHold(s)
  }

  lemma StepKeepsLocks(s: State, a: Action)
    requires LocksExclude(s) && Enabled(s, a)
    ensures LocksExclude(Next(s, a))
  {
    var u := Next(s, a);
    forall i, j | Holds(u, i) && Holds(u, j) && u.lockKey(u.calls[i].tenant) == u.lockKey(u.calls[j].tenant)
      ensures i == j
    {
      assert Holds(s, i) || a == Acquire(i);
      assert Holds(s, j) || a == Acquire(j);
    }
  }

  lemma StepKeepsClear(s: State, a: Action, i: nat)
    requires Metered(s) && Enabled(s, a) && InFlight(Next(s, a), i)
    ensures StillClear(Next(s, a), i)
  {
    var u := Next(s, a);
    if a.Record? {
      // another call in flight belongs to another tenant, so its sums do not move
      var e := Charge(s.calls[a.i]);
      var tenant := s.calls[i].tenant;
      assert Holds(s, i) && Holds(s, a.i);
      assert StillClear(s, i);
      SpentGrows(s.events, e, Tenant(tenant));
      CountGrows(s.events, e, tenant, SearchEmbed);
      CountGrows(s.events, e, tenant, IngestRequest);
    } else if a.i == i {
      assert InFlight(s, i) ==> StillClear(s, i);
    } else {
      assert InFlight(s, i) && StillClear(s, i);
    }
  }

  lemma StepKeepsRecord(s: State, a: Action)
    requires Metered(s) && Enabled(s, a)
    ensures RecordedUnderCap(Next(s, a).cfg, Next(s, a).events)
  {
    if a.Record? {
      var e := Charge(s.calls[a.i]);
      assert InFlight(s, a.i) && StillClear(s, a.i);
      forall k | 0 <= k < |s.events|
        ensures (s.events + [e])[k] == s.events[k] && (s.events + [e])[..k] == s.events[..k] {}
      assert (s.events + [e])[..|s.events|] == s.events;
    }
  }

  lemma StepKeepsLimits(s: State, a: Action)
    requires Metered(s) && Enabled(s, a)
    ensures LimitsHold(Next(s, a))
  {
    if a.Record? {
      var c := s.calls[a.i];
      assert InFlight(s, a.i) && StillClear(s, a.i);
      forall tenant, hint ensures Count(s.events + [Charge(c)], tenant, hint) ==
        Count(s.events, tenant, hint) + (if c.tenant == tenant && HintOf(c.kind) == hint then 1 else 0)
      {
        CountGrows(s.events, Charge(c), tenant, hint);
      }
    }
  }

  /** One step of any call keeps every guarantee. */
  lemma StepKeepsMetered(s: State, a: Action)
    requires Metered(s) && Enabled(s, a)
    ensures Metered(Next(s, a))
  {
    StepKeepsLocks(s, a);
    forall i | InFlight(Next(s, a), i) ensures StillClear(Next(s, a), i) {
      StepKeepsClear(s, a, i);
    }
    StepKeepsRecord(s, a);
    StepKeepsLimits(s, a);
  }

  /** Only a call whose provider returned is ever recorded. A call that fails, times out or dies
      records nothing, is gone, and leaves its tenant's lock to whoever waits for it; one that timed
      out had no lock to leave. */
  lemma FailedCallsLeaveNoTrace(s: State, a: Action, j: nat)
    requires Metered(s) && Enabled(s, a) && (a.ProviderFails? || a.Die? || a.TimeOut?)
    ensures Next(s, a).events == s.events && Next(s, a).calls == s.calls - {a.i}
    ensures a.TimeOut? ==> !Holds(s, a.i)
    ensures (
      && Holds(s, a.i) && j in Next(s, a).calls && Next(s, a).calls[j].phase.Waiting?
      && s.lockKey(s.calls[j].tenant) == s.lockKey(s.calls[a.i].tenant)) ==> Enabled(Next(s, a), Acquire(j))
  {
    if Holds(s, a.i) {
      forall i | Holds(Next(s, a), i) ensures s.lockKey(s.calls[i].tenant) != s.lockKey(s.calls[a.i].tenant) {
        assert Holds(s, i) && i != a.i;
      }
    }
  }

  // ------------------------------------------------------- the demo family

  /** Model and embedding calls of the family between check and record. */
  ghost function FamilyCalls(s: State): set<nat>
    requires s.cfg.demoPrefix.Some?
  {
    var family := Family(s.cfg.demoPrefix.value);
    set i | i in s.calls && InFlight(s, i) && !s.calls[i].kind.Ingest? && In(family, s.calls[i].tenant)
  }

  /** The tenants those calls belong to. */
  ghost function FamilyTenants(s: State): set<string>
    requires s.cfg.demoPrefix.Some?
  {
    Image(FamilyCalls(s), map i | i in s.calls :: s.calls[i].tenant)
  }

  ghost function Image(xs: set<nat>, f: map<nat, string>): set<string>
    requires xs <= f.Keys
  {
    set i | i in xs :: f[i]
  }

  /** Locks are per tenant: as many calls in flight as tenants. */
  lemma OneCallPerTenant(s: State)
    requires s.cfg.demoPrefix.Some? && LocksExclude(s)
    ensures |FamilyCalls(s)| == |FamilyTenants(s)|
  {
    forall i, j | i in FamilyCalls(s) && j in FamilyCalls(s) && s.calls[i].tenant == s.calls[j].tenant ensures i == j {
      assert Holds(s, i) && Holds(s, j);
    }
    ImageSize(FamilyCalls(s), map i | i in s.calls :: s.calls[i].tenant);
  }

  lemma {:induction false} ImageSize(xs: set<nat>, f: map<nat, string>)
    requires xs <= f.Keys && forall i, j | i in xs && j in xs && f[i] == f[j] :: i == j
    ensures |Image(xs, f)| == |xs|
  {
    if xs != {} {
      var x :| x in xs;
      ImageSize(xs - {x}, f);
      assert Image(xs, f) == Image(xs - {x}, f) + {f[x]};
    }
  }

  /** Spend recorded, plus room for the calls in flight, stays under the cap plus `k` calls. */
  predicate Room(spent: nat, flying: nat, cap: int, k: nat, most: nat) {
    (spent == 0 && flying == 0) || spent + flying * most < cap + k * most
  }

  ghost predicate FamilyBound(s: State, k: nat, most: nat)
    requires s.cfg.demoPrefix.Some? && s.cfg.demoCap.Some?
  {
    Room(Spent(s.events, Family(s.cfg.demoPrefix.value)), |FamilyCalls(s)|, s.cfg.demoCap.value, k, most)
  }

  ghost predicate BilledWithin(s: State, most: nat) {
    forall i | i in s.calls && s.calls[i].phase.Billed? :: s.calls[i].phase.cost <= most
  }

  /** How a step moves the family: a check that clears adds one call to the flight and finds the
      shared sum under the cap; a record lands one; otherwise the flight only shrinks. */
  ghost predicate FamilyMoves(s: State, u: State, a: Action)
    requires s.cfg.demoPrefix.Some? && s.cfg.demoCap.Some? && u.cfg == s.cfg
  {
    var family := Family(s.cfg.demoPrefix.value);
    var before, after := Spent(s.events, family), Spent(u.events, family);
    if a.Check? && a.i in FamilyCalls(u) then
      after == before < s.cfg.demoCap.value
    else if a.Record? && a.i in FamilyCalls(s) then
      && a.i in s.calls && s.calls[a.i].phase.Billed? && after == before + s.calls[a.i].phase.cost
      && FamilyCalls(u) == FamilyCalls(s) - {a.i}
    else
      after == before && FamilyCalls(u) <= FamilyCalls(s)
  }

  lemma FamilyStep(s: State, a: Action)
    requires Metered(s) && Enabled(s, a) && s.cfg.demoPrefix.Some? && s.cfg.demoCap.Some?
    ensures Next(s, a).cfg == s.cfg && FamilyMoves(s, Next(s, a), a)
  {
    if a.Check? {
      FamilyWithinPrefix(s.events, s.cfg.demoPrefix.value);
    }
    if a.Record? {
      assert InFlight(s, a.i) && StillClear(s, a.i);
      SpentGrows(s.events, Charge(s.calls[a.i]), Family(s.cfg.demoPrefix.value));
    }
  }

  lemma MovesKeepFamilyBound(s: State, u: State, a: Action, k: nat, most: nat)
    requires s.cfg.demoPrefix.Some? && s.cfg.demoCap.Some? && u.cfg == s.cfg
    requires FamilyMoves(s, u, a) && FamilyBound(s, k, most) && BilledWithin(s, most) && |FamilyCalls(u)| <= k
    ensures FamilyBound(u, k, most)
  {
    hide FamilyCalls, Spent, Room;
    var before, after := |FamilyCalls(s)|, |FamilyCalls(u)|;
    var spent, cap := Spent(s.events, Family(s.cfg.demoPrefix.value)), s.cfg.demoCap.value;
    if a.Check? && a.i in FamilyCalls(u) {
      RoomAfterCheck(spent, after, cap, k, most);
    } else if a.Record? && a.i in FamilyCalls(s) {
      RoomAfterRecord(spent, s.calls[a.i].phase.cost, after, cap, k, most);
    } else {
      SubsetSize(FamilyCalls(u), FamilyCalls(s));
      RoomAfterLanding(spent, before, after, cap, k, most);
    }
  }

  lemma StepKeepsFamilyBound(s: State, a: Action, k: nat, most: nat)
    requires Metered(s) && Enabled(s, a) && s.cfg.demoPrefix.Some? && s.cfg.demoCap.Some?
    requires BilledWithin(s, most) && FamilyBound(s, k, most) && |FamilyTenants(Next(s, a))| <= k
    ensures Next(s, a).cfg == s.cfg && FamilyBound(Next(s, a), k, most)
  {
    StepKeepsLocks(s, a);
    hide *;
    FamilyStep(s, a);
    OneCallPerTenant(Next(s, a));
    MovesKeepFamilyBound(s, Next(s, a), a, k, most);
  }

  lemma RoomAfterCheck(spent: nat, flying: nat, cap: int, k: nat, most: nat)
    requires spent < cap && flying <= k
    ensures Room(spent, flying, cap, k, most)
  {
    Scale(flying, k, most);
  }

  lemma RoomAfterRecord(spent: nat, cost: nat, flying: nat, cap: int, k: nat, most: nat)
    requires Room(spent, flying + 1, cap, k, most) && cost <= most
    ensures Room(spent + cost, flying, cap, k, most)
  {
    assert (flying + 1) * most == flying * most + most;
  }

  lemma RoomAfterLanding(spent: nat, before: nat, after: nat, cap: int, k: nat, most: nat)
    requires Room(spent, before, cap, k, most) && after <= before
    ensures Room(spent, after, cap, k, most)
  {
    Scale(after, before, most);
  }

  lemma Scale(x: nat, y: nat, unit: nat)
    requires x <= y
    ensures x * unit <= y * unit
  {
    assert y * unit == x * unit + (y - x) * unit;
  }

  lemma {:induction false} SubsetSize<T>(xs: set<T>, ys: set<T>)
    requires xs <= ys
    ensures |xs| <= |ys|
  {
    assert ys == xs + (ys - xs);
  }

  // ------------------------------------------------------------------- runs

  /** A run whose bills are all at most `most` and in which never more than `k` family tenants are
      between check and record at once. */
  ghost predicate CanRun(s: State, actions: seq<Action>, k: nat, most: nat)
    decreases |actions|
  {
    actions != [] ==>
      && Enabled(s, actions[0])
      && (actions[0].ProviderReturns? ==> actions[0].cost <= most)
      && (s.cfg.demoPrefix.Some? ==> |FamilyTenants(Next(s, actions[0]))| <= k)
      && CanRun(Next(s, actions[0]), actions[1..], k, most)
  }

  ghost function Run(s: State, actions: seq<Action>, k: nat, most: nat): State
    requires CanRun(s, actions, k, most)
    decreases |actions|
  {
    if actions == [] then s else Run(Next(s, actions[0]), actions[1..], k, most)
  }

  ghost predicate Bounded(s: State, k: nat, most: nat) {
    && Metered(s) && CostsWithin(s.events, most) && BilledWithin(s, most)
    && (s.cfg.demoPrefix.Some? && s.cfg.demoCap.Some? ==> FamilyBound(s, k, most))
  }

  lemma StepKeepsBounded(s: State, a: Action, k: nat, most: nat)
    requires Bounded(s, k, most) && Enabled(s, a) && (a.ProviderReturns? ==> a.cost <= most)
    requires s.cfg.demoPrefix.Some? ==> |FamilyTenants(Next(s, a))| <= k
    ensures Bounded(Next(s, a), k, most) && Next(s, a).cfg == s.cfg
  {
    StepKeepsMetered(s, a);
    if a.Record? {
      assert InFlight(s, a.i) && StillClear(s, a.i);
    }
    if s.cfg.demoPrefix.Some? && s.cfg.demoCap.Some? {
      StepKeepsFamilyBound(s, a, k, most);
    }
  }

  lemma {:induction false} EveryRunIsBounded(s: State, actions: seq<Action>, k: nat, most: nat)
    requires Bounded(s, k, most) && CanRun(s, actions, k, most)
    ensures Bounded(Run(s, actions, k, most), k, most) && Run(s, actions, k, most).cfg == s.cfg
    decreases |actions|
  {
    if actions == [] {
    } else {
      StepKeepsBounded(s, actions[0], k, most);
      EveryRunIsBounded(Next(s, actions[0]), actions[1..], k, most);
    }
  }

  /** From no events and no calls, in every interleaving: a capped tenant's spend stays below its
      cap plus one call; a signup tenant's ingests and AI searches never pass the limit; and the
      demo family, whose cap is shared but whose locks are not, stays below its cap plus `k` calls. */
  lemma EveryRunRespectsTheCaps(s: State, actions: seq<Action>, k: nat, most: nat)
    requires s.events == [] && s.calls == map[] && CanRun(s, actions, k, most)
    ensures var events := Run(s, actions, k, most).events;
      && (forall tenant | tenant in s.cfg.caps ::
            Spent(events, Tenant(tenant)) == 0 || Spent(events, Tenant(tenant)) < s.cfg.caps[tenant] + most)
      && (forall tenant, hint: Hint | tenant in s.cfg.signup && (hint.SearchEmbed? || hint.IngestRequest?) ::
            Count(events, tenant, hint) == 0 || Count(events, tenant, hint) <= s.cfg.signupLimit)
      && (s.cfg.demoPrefix.Some? && s.cfg.demoCap.Some? ==>
            var spent := Spent(events, Family(s.cfg.demoPrefix.value));
            spent == 0 || spent < s.cfg.demoCap.value + k * most)
  {
    if s.cfg.demoPrefix.Some? {
      assert FamilyCalls(s) == {};
    }
    EveryRunIsBounded(s, actions, k, most);
    var u := Run(s, actions, k, most);
    forall tenant | tenant in s.cfg.caps
      ensures Spent(u.events, Tenant(tenant)) == 0 || Spent(u.events, Tenant(tenant)) < s.cfg.caps[tenant] + most
    {
      SpendBelowCapPlusOneCall(s.cfg, u.events, tenant, most);
    }
    if s.cfg.demoPrefix.Some? && s.cfg.demoCap.Some? {
      Scale(0, |FamilyCalls(u)|, most);
    }
  }
}
