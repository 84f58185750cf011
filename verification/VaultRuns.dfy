/** Serial runs of `persist` and `erase` on an empty store, with faults at any step of any call: which
    rows are without their file at each point of a run, and which runs keep every row's file. */
module VaultRuns {
  import opened Options
  import opened Vault
  import opened Erasure

  datatype Disk = Disk(db: Database, files: Files)

  /** A call, or a change of tables other than the chunks'. */
  datatype Call = Store(drafts: seq<Draft>, f: Faults) | Erase(tenant: string) | Other

  /** What `persist` leaves. */
  function AfterStore(s: Disk, drafts: seq<Draft>, f: Faults): Disk {
    var ds := LastWins(drafts);
    Disk(s.db.(chunks := RowsAfter(s.db.chunks, ds, f)),
         Wrote(s.files, s.db.chunks, ds, f) - Gone(s.db.chunks, ds, f))
  }

  ghost predicate Did(s: Disk, t: Disk, call: Call) {
    match call
    case Store(drafts, f) => t == AfterStore(s, drafts, f)
    case Erase(tenant) => MayLeave(s.db, s.files, tenant, t.db, t.files)
    case Other => t.files == s.files && t.db.chunks == s.db.chunks && (Referential(s.db) ==> Referential(t.db))
  }

  ghost predicate IsRun(states: seq<Disk>, calls: seq<Call>) {
    && |states| == |calls| + 1 && states[0] == Disk(EMPTY, map[])
    && forall i | 0 <= i < |calls| :: Did(states[i], states[i + 1], calls[i])
  }

  function Bare(s: Disk): set<string> {
    Unfiled(s.db.chunks, s.files)
  }

  /** The call committed the row and then removed its file. */
  predicate LostBy(s: Disk, call: Call, id: string) {
    call.Store? && id in Costs(s.db.chunks, LastWins(call.drafts), call.f)
  }

  /** Call `k` did, and the row is in the table ever since, up to state `i`. */
  ghost predicate LostSince(states: seq<Disk>, calls: seq<Call>, k: nat, i: nat, id: string)
    requires k < i < |states| && |states| == |calls| + 1
  {
    LostBy(states[k], calls[k], id) && forall j | k < j <= i :: id in states[j].db.chunks
  }

  // ------------------------------------------------------------------ one call

  /** A call makes bare exactly the rows it loses, and only an erasure's rows stop being so. */
  lemma BareAfter(s: Disk, t: Disk, call: Call)
    requires Kept(s.db) && Did(s, t, call)
    ensures Kept(t.db)
    ensures forall id :: id in Bare(t) <==> (id in Bare(s) && id in t.db.chunks) || LostBy(s, call, id)
    ensures forall id | id in Bare(t) :: id in t.db.chunks
  {
    match call
    case Store(drafts, f) =>
      Ended(s.db, s.files, drafts, f);
      TablesKept(s.db, LastWins(drafts), f);
      hide Kept, RowsAfter, Wrote, Gone, Costs, LastWins, Touches, Filed, Vaulted, Commits, NewIds;
    case Erase(tenant) =>
      ErasedIsKept(s.db, tenant);
      hide Kept, Erased, PartlySwept, Filed;
      if t.db == Erased(s.db, tenant) && PartlySwept(s.files, t.files, tenant) {
        ErasedKeepsFiles(s.db, s.files, t.files, tenant);
      }
    case Other =>
  }

  lemma {:induction false} EveryRunIsKept(states: seq<Disk>, calls: seq<Call>, i: nat)
    requires IsRun(states, calls) && i < |states|
    ensures Kept(states[i].db)
  {
    if i > 0 {
      EveryRunIsKept(states, calls, i - 1);
      assert Did(states[i - 1], states[i - 1 + 1], calls[i - 1]);
      hide Kept, Did;
      BareAfter(states[i - 1], states[i], calls[i - 1]);
    }
  }

  // ----------------------------------------------------------------- whole runs

  /** At every point of every run a row is without its file exactly when the call that committed it
      then removed that file, and no erasure has removed the row since. */
  lemma {:induction false} BareIff(states: seq<Disk>, calls: seq<Call>, i: nat, id: string)
    requires IsRun(states, calls) && i < |states|
    ensures id in Bare(states[i]) <==> exists k: nat :: k < i && LostSince(states, calls, k, i, id)
  {
    hide Kept, Did, Bare, LostBy;
    if i == 0 {
      NothingBareAtFirst();
    } else {
      EveryRunIsKept(states, calls, i - 1);
      assert Did(states[i - 1], states[i - 1 + 1], calls[i - 1]);
      BareAfter(states[i - 1], states[i], calls[i - 1]);
      BareIff(states, calls, i - 1, id);
      if id in Bare(states[i]) {
        if LostBy(states[i - 1], calls[i - 1], id) {
          assert LostSince(states, calls, i - 1, i, id);
        } else {
          var k: nat :| k < i - 1 && LostSince(states, calls, k, i - 1, id);
          assert LostSince(states, calls, k, i, id);
        }
      }
      if k: nat :| k < i && LostSince(states, calls, k, i, id) {
        assert k < i - 1 ==> LostSince(states, calls, k, i - 1, id);
      }
    }
  }

  lemma NothingBareAtFirst()
    ensures Bare(Disk(EMPTY, map[])) == {}
  {
  }

  /** So every row has its file exactly when no row still in the table was lost. */
  lemma VaultedIff(states: seq<Disk>, calls: seq<Call>, i: nat)
    requires IsRun(states, calls) && i < |states|
    ensures Vaulted(states[i].db.chunks, states[i].files) <==>
      forall k: nat, id | k < i :: !LostSince(states, calls, k, i, id)
  {
    VaultedIffNoneUnfiled(states[i].db.chunks, states[i].files);
    hide Vaulted, Unfiled, LostSince, IsRun;
    if Bare(states[i]) == {} {
      forall k: nat, id | k < i ensures !LostSince(states, calls, k, i, id) {
        BareIff(states, calls, i, id);
      }
    } else {
      var id :| id in Bare(states[i]);
      BareIff(states, calls, i, id);
    }
  }

  /** Read off the call: it commits a new row, an exception follows the commit, and the first unlink of
      the clean-up works. */
  predicate Loses(s: Disk, call: Call) {
    && call.Store? && Commits(s.db.chunks, LastWins(call.drafts), call.f)
    && NewIds(s.db.chunks, LastWins(call.drafts)) != {} && call.f.leave.Throws? && call.f.unlink(0).Fine?
  }

  lemma LosesIff(s: Disk, call: Call)
    ensures Loses(s, call) <==> exists id :: LostBy(s, call, id)
  {
    if call.Store? && Commits(s.db.chunks, LastWins(call.drafts), call.f) {
      var gone := Gone(s.db.chunks, LastWins(call.drafts), call.f);
      GoneIff(s.db.chunks, LastWins(call.drafts), call.f);
      hide Commits, Gone, NewIds, LastWins;
      if p :| p in gone {
        assert p.id in IdsOf(gone) && LostBy(s, call, p.id);
      }
    }
  }

  /** Every row has its file throughout a run if and only if no call of the run is such a one: deaths
      anywhere, and exceptions anywhere else, cost no row its file. */
  lemma AlwaysVaultedIff(states: seq<Disk>, calls: seq<Call>)
    requires IsRun(states, calls)
    ensures (forall i | 0 <= i < |states| :: Vaulted(states[i].db.chunks, states[i].files)) <==>
      forall k | 0 <= k < |calls| :: !Loses(states[k], calls[k])
  {
    hide Vaulted, Loses, Did;
    forall i: nat | i < |states| && forall k | 0 <= k < |calls| :: !Loses(states[k], calls[k])
      ensures Vaulted(states[i].db.chunks, states[i].files)
    {
      NoneLost(states, calls, i);
    }
    forall k: nat | k < |calls| && Loses(states[k], calls[k])
      ensures !Vaulted(states[k + 1].db.chunks, states[k + 1].files)
    {
      OneLost(states, calls, k);
    }
    if k :| 0 <= k < |calls| && Loses(states[k], calls[k]) {
      assert !Vaulted(states[k + 1].db.chunks, states[k + 1].files);
    }
  }

  lemma NoneLost(states: seq<Disk>, calls: seq<Call>, i: nat)
    requires IsRun(states, calls) && i < |states| && forall k | 0 <= k < |calls| :: !Loses(states[k], calls[k])
    ensures Vaulted(states[i].db.chunks, states[i].files)
  {
    hide Vaulted, LostBy, Loses, Did;
    VaultedIff(states, calls, i);
    forall k: nat, id | k < i ensures !LostSince(states, calls, k, i, id) {
      LosesIff(states[k], calls[k]);
    }
  }

  lemma OneLost(states: seq<Disk>, calls: seq<Call>, k: nat)
    requires IsRun(states, calls) && k < |calls| && Loses(states[k], calls[k])
    ensures !Vaulted(states[k + 1].db.chunks, states[k + 1].files)
  {
    hide Vaulted, LostBy, Loses, Did, Kept;
    LosesIff(states[k], calls[k]);
    var id :| LostBy(states[k], calls[k], id);
    EveryRunIsKept(states, calls, k);
    BareAfter(states[k], states[k + 1], calls[k]);
    assert LostSince(states, calls, k, k + 1, id);
    VaultedIff(states, calls, k + 1);
  }

  /** In particular if no exception comes after a commit, as in a run that only deaths disturb. */
  lemma DeathsLoseNothing(states: seq<Disk>, calls: seq<Call>, i: nat)
    requires IsRun(states, calls) && i < |states|
    requires forall k | 0 <= k < |calls| && calls[k].Store? :: !calls[k].f.leave.Throws?
    ensures Vaulted(states[i].db.chunks, states[i].files)
  {
    hide IsRun, Vaulted;
    AlwaysVaultedIff(states, calls);
  }
}
