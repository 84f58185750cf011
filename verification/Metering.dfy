/** Usage events, spend caps and request limits, one call at a time. Money is counted in
    micro-dollars, the precision of the `cost_usd` column. */
module Metering {
  import opened Options

  datatype Hint = SearchEmbed | IngestRequest | Model(name: string)

  datatype UsageEvent = UsageEvent(tenant: string, hint: Hint, cost: nat)

  datatype Kind =
    | Complete
    | Embed(search: bool)   // `search` when the caller meters it as a user's AI search
    | Ingest

  /** Caps in micro-dollars; `signup` are the tenants with a row in `users`. */
  datatype Config = Config(
    caps: map<string, int>,
    signup: set<string>,
    signupLimit: int,
    demoPrefix: Option<string>,
    demoCap: Option<int>)

  /** Whose spend a sum ranges over. `Prefix` is what the demo cap sums (SQL LIKE, the prefix
      holding no escape character); `Family` is what it is meant to limit. */
  datatype Group = Tenant(name: string) | Prefix(text: string) | Family(text: string)

  predicate In(g: Group, tenant: string) {
    match g
    case Tenant(name) => tenant == name
    case Prefix(text) => text <= tenant
    case Family(text) => tenant == text || text + "-" <= tenant
  }

  /** Cents per million tokens, in and out. */
  function Price(provider: string, model: string): (nat, nat) {
    if provider != "mock" then (300, 1500)
    else if model == "mock-reasoning" then (1500, 7500)
    else if model == "mock-fast" || model == "mock-summarize" then (100, 500)
    else if model == "mock-vision" || model == "mock-code" then (300, 1500)
    else if model == "mock-embed" then (10, 0)
    else (300, 1500)
  }

  /** The exact cost is in units of 10^-8 dollars; storing it rounds to the column's six places. */
  function CallCost(provider: string, model: string, tokensIn: nat, tokensOut: nat): nat {
    var price := Price(provider, model);
    (tokensIn * price.0 + tokensOut * price.1 + 50) / 100
  }

  /** The price table, in micro-dollars for a million tokens in and a million out. */
  lemma PricesPerMillion(provider: string, model: string, n: nat)
    requires n == 1_000_000
    ensures provider == "mock" && model == "mock-reasoning" ==>
      CallCost(provider, model, n, 0) == 15_000_000 && CallCost(provider, model, 0, n) == 75_000_000
    ensures provider == "mock" && (model == "mock-fast" || model == "mock-summarize") ==>
      CallCost(provider, model, n, 0) == 1_000_000 && CallCost(provider, model, 0, n) == 5_000_000
    ensures provider == "mock" && model == "mock-embed" ==>
      CallCost(provider, model, n, 0) == 100_000 && CallCost(provider, model, 0, n) == 0
    ensures provider != "mock" || model !in ["mock-reasoning", "mock-fast", "mock-summarize", "mock-embed"] ==>
      CallCost(provider, model, n, 0) == 3_000_000 && CallCost(provider, model, 0, n) == 15_000_000
  {
  }

  function Spent(events: seq<UsageEvent>, g: Group): nat {
    if events == [] then 0
    else
      var last := events[|events| - 1];
      Spent(events[..|events| - 1], g) + (if In(g, last.tenant) then last.cost else 0)
  }

  function Count(events: seq<UsageEvent>, tenant: string, hint: Hint): nat {
    if events == [] then 0
    else Count(events[..|events| - 1], tenant, hint)
         + (if events[|events| - 1].tenant == tenant && events[|events| - 1].hint == hint then 1 else 0)
  }

  // ------------------------------------------------------------- the checks

  predicate InDemoFamily(cfg: Config, tenant: string) {
    cfg.demoPrefix.Some? && cfg.demoCap.Some? && In(Family(cfg.demoPrefix.value), tenant)
  }

  predicate UnderCaps(cfg: Config, events: seq<UsageEvent>, tenant: string) {
    && (InDemoFamily(cfg, tenant) ==> Spent(events, Prefix(cfg.demoPrefix.value)) < cfg.demoCap.value)
    && (tenant in cfg.caps ==> Spent(events, Tenant(tenant)) < cfg.caps[tenant])
  }

  predicate UnderLimit(cfg: Config, events: seq<UsageEvent>, tenant: string, hint: Hint) {
    tenant in cfg.signup ==> Count(events, tenant, hint) < cfg.signupLimit
  }

  /** Whether a call holding its tenant's lock may go ahead. */
  predicate Clears(cfg: Config, events: seq<UsageEvent>, tenant: string, kind: Kind) {
    match kind
    case Complete => UnderCaps(cfg, events, tenant)
    case Embed(search) => UnderCaps(cfg, events, tenant) && (search ==> UnderLimit(cfg, events, tenant, SearchEmbed))
    case Ingest => UnderLimit(cfg, events, tenant, IngestRequest)
  }

  datatype Verdict = Fine | DemoBudgetSpent | SpendCapReached | LimitReached

  /** The methods of the meter, run while the caller holds the tenant's lock. */
  class UsageMeter {
    const cfg: Config
    var events: seq<UsageEvent>

    constructor (cfg: Config)
      ensures this.cfg == cfg && events == []
    {
      this.cfg := cfg;
      events := [];
    }

    /** The query `sum(cost_usd)` over a group's events. */
    method Sum(g: Group) returns (total: nat)
      ensures total == Spent(events, g)
    {
      total := 0;
      for i := 0 to |events|
        invariant total == Spent(events[..i], g)
      {
        assert events[..i + 1][..i] == events[..i];
        if In(g, events[i].tenant) {
          total := total + events[i].cost;
        }
      }
      assert events[..|events|] == events;
    }

    method Tally(tenant: string, hint: Hint) returns (count: nat)
      ensures count == Count(events, tenant, hint)
    {
      count := 0;
      for i := 0 to |events|
        invariant count == Count(events[..i], tenant, hint)
      {
        assert events[..i + 1][..i] == events[..i];
        if events[i].tenant == tenant && events[i].hint == hint {
          count := count + 1;
        }
      }
      assert events[..|events|] == events;
    }

    method CheckCap(tenant: string) returns (v: Verdict)
      ensures v == Fine <==> UnderCaps(cfg, events, tenant)
      ensures v == DemoBudgetSpent <==>
        InDemoFamily(cfg, tenant) && Spent(events, Prefix(cfg.demoPrefix.value)) >= cfg.demoCap.value
      ensures v != LimitReached
    {
      if cfg.demoPrefix.Some? && cfg.demoCap.Some? && In(Family(cfg.demoPrefix.value), tenant) {
        var demoSpent := Sum(Prefix(cfg.demoPrefix.value));
        if demoSpent >= cfg.demoCap.value {
          return DemoBudgetSpent;
        }
      }
      if tenant !in cfg.caps {
        return Fine;
      }
      var spent := Sum(Tenant(tenant));
      return if spent >= cfg.caps[tenant] then SpendCapReached else Fine;
    }

    method CheckSearchLimit(tenant: string) returns (v: Verdict)
      ensures v == Fine <==> UnderLimit(cfg, events, tenant, SearchEmbed)
      ensures v == Fine || v == LimitReached
    {
      if tenant !in cfg.signup {
        return Fine;
      }
      var count := Tally(tenant, SearchEmbed);
      return if count >= cfg.signupLimit then LimitReached else Fine;
    }

    method Record(tenant: string, provider: string, model: string, hint: Hint, tokensIn: nat, tokensOut: nat)
      returns (cost: nat)
      modifies this`events
      // to half a micro-dollar, the priced tokens
      ensures var priced := tokensIn * Price(provider, model).0 + tokensOut * Price(provider, model).1;
        100 * cost - 50 <= priced < 100 * cost + 50
      ensures cost == CallCost(provider, model, tokensIn, tokensOut)
      ensures events == old(events) + [UsageEvent(tenant, hint, cost)]
    {
      cost := CallCost(provider, model, tokensIn, tokensOut);
      events := events + [UsageEvent(tenant, hint, cost)];
    }

    /** A refused or exempt request records nothing; an accepted one costs nothing but its slot. */
    method CheckAndRecordIngest(tenant: string) returns (v: Verdict)
      modifies this`events
      ensures v == LimitReached <==> !UnderLimit(cfg, old(events), tenant, IngestRequest)
      ensures v == Fine || v == LimitReached
      ensures v == Fine && tenant in cfg.signup ==> events == old(events) + [UsageEvent(tenant, IngestRequest, 0)]
      ensures !(v == Fine && tenant in cfg.signup) ==> events == old(events)
    {
      if tenant !in cfg.signup {
        return Fine;
      }
      var count := Tally(tenant, IngestRequest);
      if count >= cfg.signupLimit {
        return LimitReached;
      }
      var cost := Record(tenant, "internal", "ingest-request", IngestRequest, 0, 0);
      v := Fine;
    }
  }

  // ------------------------------------------------------- sums over groups

  /** The demo cap's sum counts the whole family, so passing it bounds the family's spend. */
  lemma {:induction false} FamilyWithinPrefix(events: seq<UsageEvent>, text: string)
    ensures Spent(events, Family(text)) <= Spent(events, Prefix(text))
  {
    if events != [] {
      var tenant := events[|events| - 1].tenant;
      FamilyWithinPrefix(events[..|events| - 1], text);
      if text + "-" <= tenant {
        assert text == (text + "-")[..|text|] == tenant[..|text|];
      }
    }
  }

  lemma SpentGrows(events: seq<UsageEvent>, e: UsageEvent, g: Group)
    ensures Spent(events + [e], g) == Spent(events, g) + (if In(g, e.tenant) then e.cost else 0)
  {
    assert (events + [e])[..|events|] == events;
  }

  lemma CountGrows(events: seq<UsageEvent>, e: UsageEvent, tenant: string, hint: Hint)
    ensures Count(events + [e], tenant, hint)
         == Count(events, tenant, hint) + (if e.tenant == tenant && e.hint == hint then 1 else 0)
  {
    assert (events + [e])[..|events|] == events;
  }

  /** No metered call of a capped tenant was recorded once its cap had been reached. */
  ghost predicate RecordedUnderCap(cfg: Config, events: seq<UsageEvent>) {
    forall k | 0 <= k < |events| && !events[k].hint.IngestRequest? && events[k].tenant in cfg.caps ::
      Spent(events[..k], Tenant(events[k].tenant)) < cfg.caps[events[k].tenant]
  }

  /** Request markers cost nothing and no call costs more than `most`. */
  ghost predicate CostsWithin(events: seq<UsageEvent>, most: nat) {
    forall k | 0 <= k < |events| :: events[k].cost <= if events[k].hint.IngestRequest? then 0 else most
  }

  /** So a capped tenant's spend stays below its cap plus the largest call (or is nothing). */
  lemma {:induction false} SpendBelowCapPlusOneCall(cfg: Config, events: seq<UsageEvent>, tenant: string, most: nat)
    requires RecordedUnderCap(cfg, events) && CostsWithin(events, most) && tenant in cfg.caps
    ensures Spent(events, Tenant(tenant)) == 0 || Spent(events, Tenant(tenant)) < cfg.caps[tenant] + most
  {
    if events != [] {
      var n := |events| - 1;
      forall k | 0 <= k < n ensures events[..n][k] == events[k] && events[..n][..k] == events[..k] {}
      SpendBelowCapPlusOneCall(cfg, events[..n], tenant, most);
      assert events[n] == events[n];
    }
  }
}
