/** The bounds on overspending are met: whatever the caps and the prices, some run spends a capped
    tenant's cap plus one largest call, less the smallest unit; and some run of the demo family spends
    its cap plus one largest call for every tenant in flight, less that unit. */
module CapsAreTight {
  import opened Options
  import opened Metering
  import opened MeteredCalls

  ghost predicate Reached(s: State, actions: seq<Action>, t: State, k: nat, most: nat) {
    CanRun(s, actions, k, most) && Run(s, actions, k, most) == t
  }

  ghost predicate CanTake(t: State, a: Action, k: nat, most: nat) {
    && Enabled(t, a) && (a.ProviderReturns? ==> a.cost <= most)
    && (t.cfg.demoPrefix.Some? ==> |FamilyTenants(Next(t, a))| <= k)
  }

  lemma {:induction false} OneStep(s: State, actions: seq<Action>, t: State, a: Action, k: nat, most: nat)
    requires Reached(s, actions, t, k, most) && CanTake(t, a, k, most) && Next(t, a).cfg == t.cfg
    ensures Reached(s, actions + [a], Next(t, a), k, most)
    decreases |actions|
  {
    hide Enabled, Next, FamilyTenants;
    if actions == [] {
      assert [] + [a] == [a] && [a][1..] == [] && [a][0] == a;
      assert CanRun(Next(s, a), [], k, most) && Run(Next(s, a), [], k, most) == Next(s, a);
    } else {
      assert (actions + [a])[1..] == actions[1..] + [a];
      OneStep(Next(s, actions[0]), actions[1..], t, a, k, most);
    }
  }

  // ------------------------------------------------------- tenants in flight

  ghost predicate Among(t: State, names: seq<string>) {
    forall i | i in t.calls :: t.calls[i].tenant in names
  }

  /** A state whose calls are all of `names` has no more family tenants in flight than names. */
  lemma FewTenants(t: State, names: seq<string>)
    requires t.cfg.demoPrefix.Some? && Among(t, names)
    ensures |FamilyTenants(t)| <= |names|
  {
    forall x | x in FamilyTenants(t) ensures x in names {
      var i :| i in FamilyCalls(t) && t.calls[i].tenant == x;
    }
    SetOfSeq(FamilyTenants(t), names);
  }

  lemma {:induction false} SetOfSeq(xs: set<string>, names: seq<string>)
    requires forall x | x in xs :: x in names
    ensures |xs| <= |names|
  {
    if names == [] {
      assert xs == {};
    } else {
      var last := names[|names| - 1];
      SetOfSeq(xs - {last}, names[..|names| - 1]);
      assert xs <= (xs - {last}) + {last};
    }
  }

  /** A step whose calls stay among the names. */
  lemma Take(s: State, actions: seq<Action>, t: State, a: Action, u: State, names: seq<string>, k: nat, most: nat)
    requires Reached(s, actions, t, k, most) && Enabled(t, a) && (a.ProviderReturns? ==> a.cost <= most)
    requires u == Next(t, a) && u.cfg == t.cfg && Among(u, names) && |names| <= k
    ensures Reached(s, actions + [a], u, k, most)
  {
    if t.cfg.demoPrefix.Some? {
      FewTenants(u, names);
    }
    hide Enabled, Next, FamilyTenants, Reached, Among;
    OneStep(s, actions, t, a, k, most);
  }

  // ------------------------------------------------------------ one call at a time

  function Alone(t: State, tenant: string, phase: Phase): State {
    t.(calls := map[0 := Call(tenant, Complete, phase)])
  }

  function Billing(tenant: string, cost: nat): UsageEvent {
    UsageEvent(tenant, Model("complete"), cost)
  }

  /** With nothing in flight a tenant under its caps can make a call of any cost up to `most`. */
  lemma OneCall(s: State, actions: seq<Action>, t: State, tenant: string, cost: nat, k: nat, most: nat)
      returns (longer: seq<Action>)
    requires Reached(s, actions, t, k, most) && t.calls == map[] && UnderCaps(t.cfg, t.events, tenant)
    requires cost <= most && k >= 1
    ensures Reached(s, longer, t.(events := t.events + [Billing(tenant, cost)]), k, most)
  {
    var names, billed := [tenant], t.(events := t.events + [Billing(tenant, cost)]);
    AloneSteps(t, tenant, cost);
    hide Reached, Enabled, Next, UnderCaps;
    Take(s, actions, t, Arrive(0, tenant, Complete), Alone(t, tenant, Waiting), names, k, most);
    var a1 := actions + [Arrive(0, tenant, Complete)];
    Take(s, a1, Alone(t, tenant, Waiting), Acquire(0), Alone(t, tenant, Locked), names, k, most);
    var a2 := a1 + [Acquire(0)];
    Take(s, a2, Alone(t, tenant, Locked), Check(0), Alone(t, tenant, Cleared), names, k, most);
    var a3 := a2 + [Check(0)];
    Take(s, a3, Alone(t, tenant, Cleared), ProviderReturns(0, cost), Alone(t, tenant, Billed(cost)), names, k, most);
    var a4 := a3 + [ProviderReturns(0, cost)];
    Take(s, a4, Alone(t, tenant, Billed(cost)), Record(0), Alone(billed, tenant, Recorded), names, k, most);
    var a5 := a4 + [Record(0)];
    Take(s, a5, Alone(billed, tenant, Recorded), Unlock(0), billed, names, k, most);
    longer := a5 + [Unlock(0)];
  }

  lemma AloneSteps(t: State, tenant: string, cost: nat)
    requires t.calls == map[] && UnderCaps(t.cfg, t.events, tenant)
    ensures var billed := t.(events := t.events + [Billing(tenant, cost)]);
      && Enabled(t, Arrive(0, tenant, Complete)) && Next(t, Arrive(0, tenant, Complete)) == Alone(t, tenant, Waiting)
      && Enabled(Alone(t, tenant, Waiting), Acquire(0))
      && Next(Alone(t, tenant, Waiting), Acquire(0)) == Alone(t, tenant, Locked)
      && Enabled(Alone(t, tenant, Locked), Check(0))
      && Next(Alone(t, tenant, Locked), Check(0)) == Alone(t, tenant, Cleared)
      && Enabled(Alone(t, tenant, Cleared), ProviderReturns(0, cost))
      && Next(Alone(t, tenant, Cleared), ProviderReturns(0, cost)) == Alone(t, tenant, Billed(cost))
      && Enabled(Alone(t, tenant, Billed(cost)), Record(0))
      && Next(Alone(t, tenant, Billed(cost)), Record(0)) == Alone(billed, tenant, Recorded)
      && Enabled(Alone(billed, tenant, Recorded), Unlock(0))
      && Next(Alone(billed, tenant, Recorded), Unlock(0)) == billed
  {
    hide UnderCaps;
  }

  /** Room for `n` units more under every cap that applies to the tenant. */
  ghost predicate Headroom(t: State, tenant: string, n: nat) {
    && (InDemoFamily(t.cfg, tenant) ==>
          Spent(t.events, Prefix(t.cfg.demoPrefix.value)) + n <= t.cfg.demoCap.value)
    && (tenant in t.cfg.caps ==> Spent(t.events, Tenant(tenant)) + n <= t.cfg.caps[tenant])
  }

  /** What the spend of every group is after `n` calls of the tenant at one unit each. */
  ghost predicate SpentMore(t: State, u: State, tenant: string, n: nat) {
    && u == t.(events := u.events)
    && forall g :: Spent(u.events, g) == Spent(t.events, g) + (if In(g, tenant) then n else 0)
  }

  lemma {:induction false} SpendUp(s: State, actions: seq<Action>, t: State, tenant: string, n: nat, k: nat, most: nat)
      returns (longer: seq<Action>, u: State)
    requires Reached(s, actions, t, k, most) && t.calls == map[] && Headroom(t, tenant, n) && k >= 1 && most >= 1
    ensures Reached(s, longer, u, k, most) && SpentMore(t, u, tenant, n)
    decreases n
  {
    hide Reached, Spent, Run, CanRun;
    if n == 0 {
      longer, u := actions, t;
    } else {
      var more := OneCall(s, actions, t, tenant, 1, k, most);
      var v := t.(events := t.events + [Billing(tenant, 1)]);
      forall g ensures Spent(v.events, g) == Spent(t.events, g) + (if In(g, tenant) then 1 else 0) {
        SpentGrows(t.events, Billing(tenant, 1), g);
      }
      longer, u := SpendUp(s, more, v, tenant, n - 1, k, most);
    }
  }

  /** A capped tenant outside the demo family can spend its cap plus one largest call, less one. */
  lemma CapBoundIsMet(s: State, tenant: string, most: nat) returns (actions: seq<Action>)
    requires s.events == [] && s.calls == map[] && tenant in s.cfg.caps && s.cfg.caps[tenant] >= 1 && most >= 1
    requires !InDemoFamily(s.cfg, tenant)
    ensures CanRun(s, actions, 1, most)
    ensures Spent(Run(s, actions, 1, most).events, Tenant(tenant)) == s.cfg.caps[tenant] + most - 1
  {
    assert Reached(s, [], s, 1, most) && Headroom(s, tenant, s.cfg.caps[tenant] - 1);
    var start, t := SpendUp(s, [], s, tenant, s.cfg.caps[tenant] - 1, 1, most);
    assert UnderCaps(t.cfg, t.events, tenant);
    actions := OneCall(s, start, t, tenant, most, 1, most);
    SpentGrows(t.events, Billing(tenant, most), Tenant(tenant));
  }

  // ------------------------------------------------------- a family in flight

  /** Family tenants with locks of their own and no caps of their own. */
  ghost predicate Visitors(s: State, names: seq<string>) {
    && s.cfg.demoPrefix.Some? && s.cfg.demoCap.Some?
    && (forall i | 0 <= i < |names| :: In(Family(s.cfg.demoPrefix.value), names[i]) && names[i] !in s.cfg.caps)
    && forall i, j | 0 <= i < j < |names| :: s.lockKey(names[i]) != s.lockKey(names[j])
  }

  /** The first `i` visitors have their bills; the first `r` have recorded them. */
  function Flight(names: seq<string>, i: nat, r: nat, most: nat): map<nat, Call>
    requires r <= i <= |names|
  {
    map j: nat | j < i :: Call(names[j], Complete, if j < r then Recorded else Billed(most))
  }

  function Boarding(t: State, names: seq<string>, i: nat, phase: Phase): State
    requires i < |names|
  {
    t.(calls := t.calls[i := Call(names[i], Complete, phase)])
  }

  lemma BoardingKeeps(t: State, names: seq<string>, i: nat, phase: Phase)
    requires i < |names|
    ensures Boarding(t, names, i, phase).cfg == t.cfg
  {
  }

  lemma TakesOff(t: State, names: seq<string>, i: nat, most: nat)
    requires Visitors(t, names) && i < |names| && t.calls == Flight(names, i, 0, most)
    requires Spent(t.events, Prefix(t.cfg.demoPrefix.value)) < t.cfg.demoCap.value
    ensures var in1, in2 := Boarding(t, names, i, Waiting), Boarding(t, names, i, Locked);
      var in3 := Boarding(t, names, i, Cleared);
      && Enabled(t, Arrive(i, names[i], Complete)) && Next(t, Arrive(i, names[i], Complete)) == in1
      && Enabled(in1, Acquire(i)) && Next(in1, Acquire(i)) == in2
      && Enabled(in2, Check(i)) && Next(in2, Check(i)) == in3
      && Enabled(in3, ProviderReturns(i, most))
      && Next(in3, ProviderReturns(i, most)) == Boarding(t, names, i, Billed(most))
  {
    hide Spent;
  }

  lemma Boards(t: State, names: seq<string>, i: nat, most: nat)
    requires i < |names| && t.calls == Flight(names, i, 0, most)
    ensures forall phase :: Among(Boarding(t, names, i, phase), names)
    ensures Boarding(t, names, i, Billed(most)) == t.(calls := Flight(names, i + 1, 0, most))
  {
    assert t.calls[i := Call(names[i], Complete, Billed(most))] == Flight(names, i + 1, 0, most);
  }

  lemma OneTakesOff(s: State, actions: seq<Action>, u: State, names: seq<string>, i: nat, most: nat)
      returns (longer: seq<Action>)
    requires Reached(s, actions, u, |names|, most) && Visitors(u, names) && i < |names|
    requires u.calls == Flight(names, i, 0, most)
    requires Spent(u.events, Prefix(u.cfg.demoPrefix.value)) < u.cfg.demoCap.value
    ensures Reached(s, longer, u.(calls := Flight(names, i + 1, 0, most)), |names|, most)
  {
    var k := |names|;
    TakesOff(u, names, i, most);
    Boards(u, names, i, most);
    hide *;
    var in1, in2 := Boarding(u, names, i, Waiting), Boarding(u, names, i, Locked);
    var in3 := Boarding(u, names, i, Cleared);
    BoardingKeeps(u, names, i, Waiting);
    BoardingKeeps(u, names, i, Locked);
    BoardingKeeps(u, names, i, Cleared);
    Take(s, actions, u, Arrive(i, names[i], Complete), in1, names, k, most);
    var a1 := actions + [Arrive(i, names[i], Complete)];
    Take(s, a1, in1, Acquire(i), in2, names, k, most);
    var a2 := a1 + [Acquire(i)];
    Take(s, a2, in2, Check(i), in3, names, k, most);
    var a3 := a2 + [Check(i)];
    Take(s, a3, in3, ProviderReturns(i, most), u.(calls := Flight(names, i + 1, 0, most)), names, k, most);
    longer := a3 + [ProviderReturns(i, most)];
  }

  lemma {:induction false} AllTakeOff(s: State, actions: seq<Action>, u: State, names: seq<string>, i: nat, most: nat)
      returns (longer: seq<Action>)
    requires Reached(s, actions, u, |names|, most) && Visitors(u, names) && i <= |names|
    requires u.calls == Flight(names, i, 0, most)
    requires Spent(u.events, Prefix(u.cfg.demoPrefix.value)) < u.cfg.demoCap.value
    ensures Reached(s, longer, u.(calls := Flight(names, |names|, 0, most)), |names|, most)
    decreases |names| - i
  {
    if i == |names| {
      longer := actions;
      assert u.(calls := Flight(names, |names|, 0, most)) == u;
    } else {
      var v := u.(calls := Flight(names, i + 1, 0, most));
      SameVisitors(u, v, names);
      hide Reached, Visitors, Spent, Flight;
      var more := OneTakesOff(s, actions, u, names, i, most);
      longer := AllTakeOff(s, more, v, names, i + 1, most);
    }
  }

  lemma Lands(t: State, names: seq<string>, r: nat, most: nat)
    requires Visitors(t, names) && r < |names| && t.calls == Flight(names, |names|, r, most)
    ensures var u := t.(calls := Flight(names, |names|, r + 1, most), events := t.events + [Billing(names[r], most)]);
      && Enabled(t, Record(r)) && Next(t, Record(r)) == u && Among(u, names)
      && Spent(u.events, Family(t.cfg.demoPrefix.value)) == Spent(t.events, Family(t.cfg.demoPrefix.value)) + most
  {
    SpentGrows(t.events, Billing(names[r], most), Family(t.cfg.demoPrefix.value));
    hide Spent;
    assert t.calls[r := Call(names[r], Complete, Recorded)] == Flight(names, |names|, r + 1, most);
  }

  lemma {:induction false} AllLand(s: State, actions: seq<Action>, t: State, names: seq<string>, r: nat, most: nat)
      returns (longer: seq<Action>, u: State)
    requires Reached(s, actions, t, |names|, most) && Visitors(t, names) && r <= |names|
    requires t.calls == Flight(names, |names|, r, most)
    ensures Reached(s, longer, u, |names|, most) && u.cfg == t.cfg
    ensures Spent(u.events, Family(t.cfg.demoPrefix.value))
         == Spent(t.events, Family(t.cfg.demoPrefix.value)) + (|names| - r) * most
    decreases |names| - r
  {
    if r == |names| {
      longer, u := actions, t;
    } else {
      Lands(t, names, r, most);
      OneLess(|names|, r, most);
      var v := t.(calls := Flight(names, |names|, r + 1, most), events := t.events + [Billing(names[r], most)]);
      SameVisitors(t, v, names);
      hide *;
      Take(s, actions, t, Record(r), v, names, |names|, most);
      longer, u := AllLand(s, actions + [Record(r)], v, names, r + 1, most);
    }
  }

  lemma OneLess(n: int, r: int, unit: int)
    ensures (n - r) * unit == (n - (r + 1)) * unit + unit
  {
  }

  /** For any number of visitors with locks of their own some run spends the family's cap plus one
      largest call for each, less one. */
  lemma FamilyBoundIsMet(s: State, names: seq<string>, most: nat) returns (actions: seq<Action>)
    requires s.events == [] && s.calls == map[] && Visitors(s, names) && names != []
    requires s.cfg.demoCap.value >= 1 && most >= 1
    ensures CanRun(s, actions, |names|, most)
    ensures Spent(Run(s, actions, |names|, most).events, Family(s.cfg.demoPrefix.value))
         == s.cfg.demoCap.value + |names| * most - 1
  {
    var k := |names|;
    var family, prefix := Family(s.cfg.demoPrefix.value), Prefix(s.cfg.demoPrefix.value);
    FamilyIsPrefixed(s.cfg.demoPrefix.value, names[0]);
    assert Reached(s, [], s, k, most) && Headroom(s, names[0], s.cfg.demoCap.value - 1);
    assert Spent(s.events, family) == 0 && Spent(s.events, prefix) == 0;
    hide Reached, Visitors, Spent, Run, CanRun, Headroom;
    var a1, t := SpendUp(s, [], s, names[0], s.cfg.demoCap.value - 1, k, most);
    var a2 := Fly(s, a1, t, names, most);
    var u := t.(calls := Flight(names, k, 0, most));
    SameVisitors(s, u, names);
    var a3, v := AllLand(s, a2, u, names, 0, most);
    actions := a3;
    EndsIn(s, a3, v, k, most);
  }

  lemma EndsIn(s: State, actions: seq<Action>, t: State, k: nat, most: nat)
    requires Reached(s, actions, t, k, most)
    ensures CanRun(s, actions, k, most) && Run(s, actions, k, most) == t
  {
  }

  lemma SameVisitors(s: State, t: State, names: seq<string>)
    requires Visitors(s, names) && t.cfg == s.cfg && t.lockKey == s.lockKey
    ensures Visitors(t, names) && t.cfg.demoPrefix.Some? && t.cfg.demoCap.Some?
  {
  }

  lemma Fly(s: State, actions: seq<Action>, t: State, names: seq<string>, most: nat) returns (longer: seq<Action>)
    requires Reached(s, actions, t, |names|, most) && t.calls == map[] && Visitors(s, names)
    requires t.cfg == s.cfg && t.lockKey == s.lockKey
    requires Spent(t.events, Prefix(t.cfg.demoPrefix.value)) < t.cfg.demoCap.value
    ensures Reached(s, longer, t.(calls := Flight(names, |names|, 0, most)), |names|, most)
  {
    SameVisitors(s, t, names);
    hide Reached, Visitors, Spent;
    assert Flight(names, 0, 0, most) == map[];
    assert t.(calls := map[]) == t;
    longer := AllTakeOff(s, actions, t, names, 0, most);
  }

  lemma FamilyIsPrefixed(text: string, tenant: string)
    requires In(Family(text), tenant)
    ensures In(Prefix(text), tenant)
  {
    if text + "-" <= tenant {
      assert text == (text + "-")[..|text|] == tenant[..|text|];
    }
  }
}
