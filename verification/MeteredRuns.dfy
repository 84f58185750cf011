/** What the meter promises, said of the calls of a run and not of the events they leave: which calls
    use up a slot, what they cost their tenant, and when a further call is let through. */
module MeteredRuns {
  import opened Options
  import opened Metering
  import opened MeteredCalls

  /** The calls that record in a run, in order, as they are when they do. */
  ghost function Recorders(s: State, actions: seq<Action>, k: nat, most: nat): seq<Call>
    requires CanRun(s, actions, k, most)
    decreases |actions|
  {
    if actions == [] then []
    else
      (if actions[0].Record? then [s.calls[actions[0].i]] else [])
      + Recorders(Next(s, actions[0]), actions[1..], k, most)
  }

  /** How many of the calls are of this tenant and kind. */
  function Slots(calls: seq<Call>, tenant: string, kind: Kind): nat {
    if calls == [] then 0
    else (if calls[0].tenant == tenant && calls[0].kind == kind then 1 else 0) + Slots(calls[1..], tenant, kind)
  }

  function CostOf(c: Call): nat {
    if c.phase.Billed? then c.phase.cost else 0
  }

  /** What the tenant's calls cost. */
  function Bill(calls: seq<Call>, tenant: string): nat {
    if calls == [] then 0
    else (if calls[0].tenant == tenant then CostOf(calls[0]) else 0) + Bill(calls[1..], tenant)
  }

  /** ... and what those of all tenants cost whose names start so. */
  function PrefixBill(calls: seq<Call>, text: string): nat {
    if calls == [] then 0
    else (if text <= calls[0].tenant then CostOf(calls[0]) else 0) + PrefixBill(calls[1..], text)
  }

  function FamilyBill(calls: seq<Call>, text: string): nat {
    if calls == [] then 0
    else
      (if calls[0].tenant == text || text + "-" <= calls[0].tenant then CostOf(calls[0]) else 0)
      + FamilyBill(calls[1..], text)
  }

  // ------------------------------------------------------------ events and calls

  /** The events say of the calls what the checks go by. */
  ghost predicate Reflects(was: seq<UsageEvent>, events: seq<UsageEvent>, calls: seq<Call>) {
    && (forall t: string :: Count(events, t, SearchEmbed) == Count(was, t, SearchEmbed) + Slots(calls, t, Embed(true)))
    && (forall t: string :: Count(events, t, IngestRequest) == Count(was, t, IngestRequest) + Slots(calls, t, Ingest))
    && (forall t: string :: Spent(events, Tenant(t)) == Spent(was, Tenant(t)) + Bill(calls, t))
    && (forall t: string :: Spent(events, Prefix(t)) == Spent(was, Prefix(t)) + PrefixBill(calls, t))
    && (forall t: string :: Spent(events, Family(t)) == Spent(was, Family(t)) + FamilyBill(calls, t))
  }

  /** One call's event. */
  lemma ChargeReflects(events: seq<UsageEvent>, c: Call)
    requires c.phase.Billed?
    ensures Reflects(events, events + [Charge(c)], [c])
  {
    var e := Charge(c);
    assert [c][1..] == [];
    forall t: string
      ensures Count(events + [e], t, SearchEmbed) == Count(events, t, SearchEmbed) + Slots([c], t, Embed(true))
      ensures Count(events + [e], t, IngestRequest) == Count(events, t, IngestRequest) + Slots([c], t, Ingest)
    {
      CountGrows(events, e, t, SearchEmbed);
      CountGrows(events, e, t, IngestRequest);
      hide Count;
    }
    forall t: string
      ensures Spent(events + [e], Tenant(t)) == Spent(events, Tenant(t)) + Bill([c], t)
      ensures Spent(events + [e], Prefix(t)) == Spent(events, Prefix(t)) + PrefixBill([c], t)
      ensures Spent(events + [e], Family(t)) == Spent(events, Family(t)) + FamilyBill([c], t)
    {
      SpentGrows(events, e, Tenant(t));
      SpentGrows(events, e, Prefix(t));
      SpentGrows(events, e, Family(t));
      hide Spent;
    }
  }

  lemma OneAndMore(c: Call, more: seq<Call>, t: string, kind: Kind)
    ensures Slots([c] + more, t, kind) == Slots([c], t, kind) + Slots(more, t, kind)
    ensures Bill([c] + more, t) == Bill([c], t) + Bill(more, t)
    ensures PrefixBill([c] + more, t) == PrefixBill([c], t) + PrefixBill(more, t)
    ensures FamilyBill([c] + more, t) == FamilyBill([c], t) + FamilyBill(more, t)
  {
    assert ([c] + more)[1..] == more && [c][1..] == [];
  }

  lemma ReflectsMore(was: seq<UsageEvent>, mid: seq<UsageEvent>, events: seq<UsageEvent>, c: Call, more: seq<Call>)
    requires Reflects(was, mid, [c]) && Reflects(mid, events, more)
    ensures Reflects(was, events, [c] + more)
  {
    hide Count, Spent, Slots, Bill, PrefixBill, FamilyBill;
    forall t: string
      ensures Slots([c] + more, t, Embed(true)) == Slots([c], t, Embed(true)) + Slots(more, t, Embed(true))
      ensures Slots([c] + more, t, Ingest) == Slots([c], t, Ingest) + Slots(more, t, Ingest)
      ensures Bill([c] + more, t) == Bill([c], t) + Bill(more, t)
      ensures PrefixBill([c] + more, t) == PrefixBill([c], t) + PrefixBill(more, t)
      ensures FamilyBill([c] + more, t) == FamilyBill([c], t) + FamilyBill(more, t)
    {
      OneAndMore(c, more, t, Embed(true));
      OneAndMore(c, more, t, Ingest);
    }
  }

  lemma {:induction false} EventsReflectCalls(s: State, actions: seq<Action>, k: nat, most: nat)
    requires CanRun(s, actions, k, most)
    ensures Reflects(s.events, Run(s, actions, k, most).events, Recorders(s, actions, k, most))
    decreases |actions|
  {
    if actions == [] {
    } else {
      var a := actions[0];
      EventsReflectCalls(Next(s, a), actions[1..], k, most);
      var more := Recorders(Next(s, a), actions[1..], k, most);
      StepEvents(s, a);
      assert Recorders(s, actions, k, most) == (if a.Record? then [s.calls[a.i]] else []) + more;
      hide Reflects, Next, Enabled, Charge, Recorders;
      if a.Record? {
        ChargeReflects(s.events, s.calls[a.i]);
        ReflectsMore(s.events, Next(s, a).events, Run(s, actions, k, most).events, s.calls[a.i], more);
      } else {
        assert [] + more == more;
      }
    }
  }

  lemma StepEvents(s: State, a: Action)
    requires Enabled(s, a)
    ensures a.Record? ==> a.i in s.calls && s.calls[a.i].phase.Billed?
    ensures Next(s, a).events == if a.Record? then s.events + [Charge(s.calls[a.i])] else s.events
  {
  }

  // -------------------------------------------------------------- main results

  /** In every run from no events: the AI searches a signup tenant's calls record never pass the limit,
      and neither do its ingests; its other calls use up no slot. What a capped tenant's calls cost
      stays below the cap plus one call, and what the family's cost below its cap plus `k`. */
  lemma CallsRespectTheLimits(s: State, actions: seq<Action>, k: nat, most: nat)
    requires s.events == [] && s.calls == map[] && CanRun(s, actions, k, most)
    ensures var calls := Recorders(s, actions, k, most);
      && (forall t | t in s.cfg.signup :: Slots(calls, t, Embed(true)) == 0
            || Slots(calls, t, Embed(true)) <= s.cfg.signupLimit)
      && (forall t | t in s.cfg.signup :: Slots(calls, t, Ingest) == 0 || Slots(calls, t, Ingest) <= s.cfg.signupLimit)
      && (forall t | t in s.cfg.caps :: Bill(calls, t) == 0 || Bill(calls, t) < s.cfg.caps[t] + most)
      && (s.cfg.demoPrefix.Some? && s.cfg.demoCap.Some? ==>
            var bill := FamilyBill(calls, s.cfg.demoPrefix.value);
            bill == 0 || bill < s.cfg.demoCap.value + k * most)
  {
    assert forall t: string, h: Hint :: Count([], t, h) == 0;
    assert forall g: Group :: Spent([], g) == 0;
    hide Run, CanRun, Recorders, Slots, Bill, PrefixBill, FamilyBill, Count, Spent;
    EventsReflectCalls(s, actions, k, most);
    EveryRunRespectsTheCaps(s, actions, k, most);
  }

  /** Whether a checked call goes ahead, said of the calls recorded so far: its tenant's cost less than
      the tenant's cap, and those of the shared prefix less than the family's; and, for an AI search or
      an ingest of a signup tenant, the tenant has made fewer of that kind than the limit. Nothing
      else counts. */
  ghost predicate MayGoAhead(cfg: Config, calls: seq<Call>, c: Call) {
    && (!c.kind.Ingest? ==>
          && (c.tenant in cfg.caps ==> Bill(calls, c.tenant) < cfg.caps[c.tenant])
          && (cfg.demoPrefix.Some? && cfg.demoCap.Some?
              && (c.tenant == cfg.demoPrefix.value || cfg.demoPrefix.value + "-" <= c.tenant) ==>
                PrefixBill(calls, cfg.demoPrefix.value) < cfg.demoCap.value))
    && (c.tenant in cfg.signup && (c.kind == Embed(true) || c.kind.Ingest?) ==>
          Slots(calls, c.tenant, c.kind) < cfg.signupLimit)
  }

  lemma CheckDecides(s: State, actions: seq<Action>, k: nat, most: nat, i: nat)
    requires s.events == [] && s.calls == map[] && CanRun(s, actions, k, most)
    requires Enabled(Run(s, actions, k, most), Check(i))
    ensures var t := Run(s, actions, k, most);
      i in Next(t, Check(i)).calls <==> MayGoAhead(s.cfg, Recorders(s, actions, k, most), t.calls[i])
  {
    var t := Run(s, actions, k, most);
    assert forall t: string, h: Hint :: Count([], t, h) == 0;
    assert forall g: Group :: Spent([], g) == 0;
    hide Run, CanRun, Recorders, Slots, Bill, PrefixBill, FamilyBill, Count, Spent;
    EventsReflectCalls(s, actions, k, most);
    SameConfig(s, actions, k, most);
  }

  lemma {:induction false} SameConfig(s: State, actions: seq<Action>, k: nat, most: nat)
    requires CanRun(s, actions, k, most)
    ensures Run(s, actions, k, most).cfg == s.cfg
    decreases |actions|
  {
    if actions == [] {
    } else {
      SameConfig(Next(s, actions[0]), actions[1..], k, most);
    }
  }
}
