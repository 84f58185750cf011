/** Erasing a tenant: one transaction over the tables, then the vault directory, file by file. */
module Erasure {
  import opened Options
  import opened Vault

  /** Rows of other owners. */
  function Without<K>(owners: map<K, string>, tenant: string): map<K, string> {
    map k | k in owners && owners[k] != tenant :: owners[k]
  }

  function ChunksWithout(chunks: map<string, Row>, tenant: string): map<string, Row> {
    map c | c in chunks && chunks[c].tenant != tenant :: chunks[c]
  }

  function JobsWithout(db: Database, tenant: string): map<string, Payload> {
    map j | j in db.jobs && !Belongs(db, db.jobs[j], tenant) :: db.jobs[j]
  }

  /** The tables without the tenant. */
  function Erased(db: Database, tenant: string): Database {
    Database(
      ChunksWithout(db.chunks, tenant), Without(db.scores, tenant), Without(db.links, tenant),
      Without(db.entities, tenant), Without(db.summaries, tenant), Without(db.users, tenant), JobsWithout(db, tenant))
  }

  function Swept(files: Files, tenant: string): Files {
    map p | p in files && p.tenant != tenant :: files[p]
  }

  function Directory(files: Files, tenant: string): set<Path> {
    set p | p in files && p.tenant == tenant
  }

  /** Rows removed, per table, and vault files. */
  datatype Report = Report(
    chunks: nat, scores: nat, links: nat, entities: nat, summaries: nat, jobs: nat, users: nat, files: nat)

  datatype Outcome = Done(report: Report) | Unfinished

  /** Every row there was is there after, or counted. */
  ghost predicate RowsAccounted(before: Database, after: Database, r: Report) {
    && |before.chunks| == |after.chunks| + r.chunks && |before.scores| == |after.scores| + r.scores
    && |before.links| == |after.links| + r.links && |before.entities| == |after.entities| + r.entities
    && |before.summaries| == |after.summaries| + r.summaries && |before.jobs| == |after.jobs| + r.jobs
    && |before.users| == |after.users| + r.users
  }

  ghost predicate NoMoreRows(before: Database, after: Database) {
    && |after.chunks| <= |before.chunks| && |after.scores| <= |before.scores| && |after.links| <= |before.links|
    && |after.entities| <= |before.entities| && |after.summaries| <= |before.summaries|
    && |after.jobs| <= |before.jobs| && |after.users| <= |before.users|
  }

  /** The rows the deletes report. */
  function Removed(before: Database, after: Database): (r: Report)
    requires NoMoreRows(before, after)
    ensures RowsAccounted(before, after, r)
  {
    Report(
      |before.chunks| - |after.chunks|, |before.scores| - |after.scores|, |before.links| - |after.links|,
      |before.entities| - |after.entities|, |before.summaries| - |after.summaries|, |before.jobs| - |after.jobs|,
      |before.users| - |after.users|, 0)
  }

  /** Between the old files and the swept ones: only the tenant's may be gone. */
  ghost predicate PartlySwept(before: Files, after: Files, tenant: string) {
    && after.Keys <= before.Keys
    && (forall p | p in before && p.tenant != tenant :: p in after)
    && (forall p | p in after :: after[p] == before[p])
  }

  /** What an erasure leaves wherever it stops: all as it was, or the tables without the tenant, and the
      directory gone in part or whole. */
  ghost predicate MayLeave(was: Database, before: Files, tenant: string, db: Database, after: Files) {
    || (db == was && after == before)
    || (db == Erased(was, tenant) && PartlySwept(before, after, tenant))
  }

  /** Nothing is the tenant's: no row, no file, and no job that names the tenant. */
  ghost predicate NoneOf(db: Database, files: Files, tenant: string) {
    && (forall c | c in db.chunks :: db.chunks[c].tenant != tenant)
    && (forall c | c in db.scores :: db.scores[c] != tenant)
    && (forall l | l in db.links :: db.links[l] != tenant)
    && (forall e | e in db.entities :: db.entities[e] != tenant)
    && (forall x | x in db.summaries :: db.summaries[x] != tenant)
    && (forall x | x in db.users :: db.users[x] != tenant)
    && (forall j | j in db.jobs :: db.jobs[j].tenant != Some(tenant))
    && (forall p | p in files :: p.tenant != tenant)
  }

  /** A job that names the tenant, or one of its chunks or entities. */
  predicate Names(db: Database, p: Payload, tenant: string) {
    || p.tenant == Some(tenant)
    || (exists c :: c in db.chunks && p.chunk == Some(c) && db.chunks[c].tenant == tenant)
    || (exists e :: e in db.entities && p.entity == Some(e) && db.entities[e] == tenant)
  }

  /** Table by table, what goes is what is the tenant's, and the rest is as it was. */
  ghost predicate OnlyTheTenants(was: Database, db: Database, tenant: string) {
    && (forall c :: c in db.chunks <==> c in was.chunks && was.chunks[c].tenant != tenant)
    && (forall c | c in db.chunks :: db.chunks[c] == was.chunks[c])
    && (forall c :: c in db.scores <==> c in was.scores && was.scores[c] != tenant)
    && (forall l :: l in db.links <==> l in was.links && was.links[l] != tenant)
    && (forall e :: e in db.entities <==> e in was.entities && was.entities[e] != tenant)
    && (forall x :: x in db.summaries <==> x in was.summaries && was.summaries[x] != tenant)
    && (forall x :: x in db.users <==> x in was.users && was.users[x] != tenant)
    && (forall j :: j in db.jobs <==> j in was.jobs && !Names(was, was.jobs[j], tenant))
    && (forall j | j in db.jobs :: db.jobs[j] == was.jobs[j])
  }

  class ErasureService {
    const disk: Storage

    constructor (disk: Storage)
      ensures this.disk == disk
    {
      this.disk := disk;
    }

    /** The directory goes file by file, in any order. */
    method RemoveTree(tenant: string) returns (finished: bool)
      modifies disk`files
      ensures finished ==> disk.files == Swept(old(disk.files), tenant)
      ensures PartlySwept(old(disk.files), disk.files, tenant)
    {
      var left := Directory(disk.files, tenant);
      while left != {}
        invariant left == Directory(disk.files, tenant)
        invariant PartlySwept(old(disk.files), disk.files, tenant)
        decreases left
      {
        var fault: Fault := *;
        if !fault.Fine? {
          return false;
        }
        var path :| path in left;
        disk.files := disk.files - {path};
        left := left - {path};
      }
      NothingLeftToSweep(old(disk.files), disk.files, tenant);
      return true;
    }

    /** The deletes of the transaction, before its commit. */
    method DeleteRows(tenant: string) returns (tx: Database, removed: Report)
      requires Kept(disk.db)
      ensures tx == Erased(disk.db, tenant)
      ensures RowsAccounted(disk.db, tx, removed)
    {
      tx := disk.db;
      var chunkIds := set c | c in tx.chunks && tx.chunks[c].tenant == tenant;
      var entityIds := set e | e in tx.entities && tx.entities[e] == tenant;
      JobsAgree(tx, tenant, chunkIds, entityIds);
      FewerRows(tx, tenant);
      hide Kept, Referential, UniqueHashes, RowsAccounted, NoMoreRows, Removed;
      hide Concerns, Without, ChunksWithout, JobsWithout, DeleteChunks, DeleteEntities;
      tx := tx.(links := Without(tx.links, tenant));
      tx := tx.(scores := Without(tx.scores, tenant));
      CascadesFindNothing(disk.db, tx, tenant);
      tx := DeleteChunks(tx, tenant);
      tx := DeleteEntities(tx, tenant);
      tx := tx.(summaries := Without(tx.summaries, tenant));
      tx := tx.(jobs := map j | j in tx.jobs && !Concerns(tx.jobs[j], tenant, chunkIds, entityIds) :: tx.jobs[j]);
      tx := tx.(users := Without(tx.users, tenant));
      assert tx == Erased(disk.db, tenant);
      removed := Removed(disk.db, tx);
    }

    method EraseTenant(tenant: string) returns (o: Outcome)
      requires Kept(disk.db)
      modifies disk
      ensures Kept(disk.db)
      ensures o.Done? ==>
        && disk.db == Erased(old(disk.db), tenant) && disk.files == Swept(old(disk.files), tenant)
        && RowsAccounted(old(disk.db), disk.db, o.report) && |old(disk.files)| == |disk.files| + o.report.files
      ensures o.Done? ==> NoneOf(disk.db, disk.files, tenant)
      ensures disk.db == old(disk.db) || OnlyTheTenants(old(disk.db), disk.db, tenant)
      ensures MayLeave(old(disk.db), old(disk.files), tenant, disk.db, disk.files)
      // no row that stays loses its file
      ensures Unfiled(disk.db.chunks, disk.files) ==
        set c | c in Unfiled(old(disk.db.chunks), old(disk.files)) && c in disk.db.chunks
    {
      NothingUnfiled(disk.db.chunks, disk.files);
      hide *;
      ghost var was, before := disk.db, disk.files;
      var fault: Fault := *;
      if !fault.Fine? {
        return Unfinished;
      }
      var tx, removed := DeleteRows(tenant);
      fault := *;
      if !fault.Fine? {
        return Unfinished;
      }
      disk.db := tx;
      var count := |Directory(disk.files, tenant)|;
      var finished := RemoveTree(tenant);
      ErasedIsKept(was, tenant);
      ErasedTableByTable(was, before, tenant);
      ErasedKeepsFiles(was, before, disk.files, tenant);
      if !finished {
        return Unfinished;
      }
      FilesAccounted(before, tenant);
      SameRows(was, tx, removed, count);
      return Done(removed.(files := count));
    }
  }

  /** Deleting chunks cascades to their scores and links, deleting entities to their links. */
  function DeleteChunks(db: Database, tenant: string): Database {
    var kept := ChunksWithout(db.chunks, tenant);
    db.(chunks := kept,
        scores := map c | c in db.scores && c in kept :: db.scores[c],
        links := map l | l in db.links && l.chunk in kept :: db.links[l])
  }

  function DeleteEntities(db: Database, tenant: string): Database {
    var kept := Without(db.entities, tenant);
    db.(entities := kept, links := map l | l in db.links && l.entity in kept :: db.links[l])
  }

  /** The job conditions: the payload's tenant, or one of the ids collected at the start. */
  predicate Concerns(p: Payload, tenant: string, chunkIds: set<string>, entityIds: set<string>) {
    || p.tenant == Some(tenant)
    || (p.chunk.Some? && p.chunk.value in chunkIds)
    || (p.entity.Some? && p.entity.value in entityIds)
  }

  lemma NothingLeftToSweep(before: Files, after: Files, tenant: string)
    requires PartlySwept(before, after, tenant) && Directory(after, tenant) == {}
    ensures after == Swept(before, tenant)
  {
    forall p | p in after ensures p.tenant != tenant {
      assert p.tenant == tenant ==> p in Directory(after, tenant);
    }
  }

  /** Rows carry the tenant of the chunk and entity they hang on, so once the tenant's own rows are
      gone a cascade reaches nobody else's. */
  lemma CascadesFindNothing(was: Database, tx: Database, tenant: string)
    requires Kept(was)
    requires tx == was.(links := Without(was.links, tenant), scores := Without(was.scores, tenant))
    ensures DeleteEntities(DeleteChunks(tx, tenant), tenant)
         == tx.(chunks := ChunksWithout(was.chunks, tenant), entities := Without(was.entities, tenant))
  {
    var kept := ChunksWithout(was.chunks, tenant);
    assert DeleteChunks(tx, tenant) == tx.(chunks := kept);
  }

  lemma JobsAgree(db: Database, tenant: string, chunkIds: set<string>, entityIds: set<string>)
    requires chunkIds == set c | c in db.chunks && db.chunks[c].tenant == tenant
    requires entityIds == set e | e in db.entities && db.entities[e] == tenant
    ensures (map j | j in db.jobs && !Concerns(db.jobs[j], tenant, chunkIds, entityIds) :: db.jobs[j])
         == JobsWithout(db, tenant)
  {
  }

  lemma Fewer<K, V>(fewer: map<K, V>, more: map<K, V>)
    requires fewer.Keys <= more.Keys
    ensures |fewer| <= |more|
  {
    assert more.Keys == fewer.Keys + (more.Keys - fewer.Keys);
  }

  lemma FewerRows(db: Database, tenant: string)
    ensures NoMoreRows(db, Erased(db, tenant))
  {
    var e := Erased(db, tenant);
    Fewer(e.chunks, db.chunks);
    Fewer(e.scores, db.scores);
    Fewer(e.links, db.links);
    Fewer(e.entities, db.entities);
    Fewer(e.summaries, db.summaries);
    Fewer(e.jobs, db.jobs);
    Fewer(e.users, db.users);
  }

  lemma SameRows(before: Database, after: Database, r: Report, files: nat)
    requires RowsAccounted(before, after, r)
    ensures RowsAccounted(before, after, r.(files := files))
  {
  }

  lemma FilesAccounted(files: Files, tenant: string)
    ensures |files| == |Swept(files, tenant)| + |Directory(files, tenant)|
  {
    assert files.Keys == Swept(files, tenant).Keys + Directory(files, tenant);
    assert Swept(files, tenant).Keys !! Directory(files, tenant);
  }

  lemma NothingUnfiled(chunks: map<string, Row>, files: Files)
    ensures Unfiled(chunks, files) == set c | c in Unfiled(chunks, files) && c in chunks
  {
  }

  lemma ErasedTableByTable(db: Database, files: Files, tenant: string)
    ensures OnlyTheTenants(db, Erased(db, tenant), tenant) && NoneOf(Erased(db, tenant), Swept(files, tenant), tenant)
  {
  }

  /** Erasure keeps hashes unique and references resolved. */
  lemma ErasedIsKept(db: Database, tenant: string)
    requires Kept(db)
    ensures Kept(Erased(db, tenant))
  {
    ErasedIsReferential(db, tenant);
  }

  /** However much of the directory is gone, no row of another tenant loses its file. */
  lemma ErasedKeepsFiles(db: Database, before: Files, after: Files, tenant: string)
    requires PartlySwept(before, after, tenant)
    ensures var kept := Erased(db, tenant).chunks;
      Unfiled(kept, after) == set c | c in Unfiled(db.chunks, before) && c in kept
  {
    var kept := Erased(db, tenant).chunks;
    forall c | c in kept ensures Filed(c, kept[c], after) == Filed(c, db.chunks[c], before) {
    }
  }

  lemma ErasedIsReferential(db: Database, tenant: string)
    requires Referential(db)
    ensures Referential(Erased(db, tenant))
  {
    var e := Erased(db, tenant);
    forall j | j in e.jobs ensures Resolves(e, e.jobs[j]) {
      assert Resolves(db, db.jobs[j]);
      OwnersSurvive(db, e.jobs[j], tenant);
    }
  }

  /** A job that is not the erased tenant's keeps its owners. */
  lemma OwnersSurvive(db: Database, p: Payload, tenant: string)
    requires !Belongs(db, p, tenant)
    ensures forall u :: Belongs(Erased(db, tenant), p, u) <==> Belongs(db, p, u)
  {
  }

  // -------------------------------------------------------------- main results

  /** What the tables hold of one tenant. */
  function Of(db: Database, tenant: string): Database {
    Database(
      map c | c in db.chunks && db.chunks[c].tenant == tenant :: db.chunks[c],
      With(db.scores, tenant), With(db.links, tenant), With(db.entities, tenant), With(db.summaries, tenant),
      With(db.users, tenant),
      map j | j in db.jobs && Belongs(db, db.jobs[j], tenant) :: db.jobs[j])
  }

  function With<K>(owners: map<K, string>, tenant: string): map<K, string> {
    map k | k in owners && owners[k] == tenant :: owners[k]
  }

  /** A finished erasure leaves no row, job or file of the tenant. */
  lemma NothingRemains(db: Database, files: Files, tenant: string)
    requires Kept(db)
    ensures Of(Erased(db, tenant), tenant) == EMPTY
    ensures Directory(Swept(files, tenant), tenant) == {}
  {
    var e := Erased(db, tenant);
    forall j | j in e.jobs ensures !Belongs(e, e.jobs[j], tenant) {
      OwnersSurvive(db, e.jobs[j], tenant);
    }
    WithWithout(db.scores, tenant, tenant);
    WithWithout(db.links, tenant, tenant);
    WithWithout(db.entities, tenant, tenant);
    WithWithout(db.summaries, tenant, tenant);
    WithWithout(db.users, tenant, tenant);
  }

  /** And it changes nothing of any other tenant, finished or not. */
  lemma OthersUntouched(db: Database, before: Files, after: Files, tenant: string, other: string)
    requires Kept(db) && PartlySwept(before, after, tenant) && other != tenant
    ensures Of(Erased(db, tenant), other) == Of(db, other)
    ensures forall p: Path | p.tenant == other ::
      (p in after <==> p in before) && (p in before ==> after[p] == before[p])
  {
    var e := Erased(db, tenant);
    JobsOfOthers(db, tenant, other);
    hide Kept, Belongs;
    assert Of(e, other).chunks == Of(db, other).chunks;
    hide Without, With;
    WithWithout(db.scores, tenant, other);
    WithWithout(db.links, tenant, other);
    WithWithout(db.entities, tenant, other);
    WithWithout(db.summaries, tenant, other);
    WithWithout(db.users, tenant, other);
  }

  lemma WithWithout<K>(owners: map<K, string>, tenant: string, other: string)
    ensures other != tenant ==> With(Without(owners, tenant), other) == With(owners, other)
    ensures With(Without(owners, tenant), tenant) == map[]
    ensures Without(Without(owners, tenant), tenant) == Without(owners, tenant)
  {
    assert forall k :: k in With(Without(owners, tenant), other) ==> k in With(owners, other);
  }

  lemma JobsOfOthers(db: Database, tenant: string, other: string)
    requires Referential(db) && other != tenant
    ensures Of(Erased(db, tenant), other).jobs == Of(db, other).jobs
  {
    var e := Erased(db, tenant);
    forall j | j in db.jobs
      ensures j in Of(e, other).jobs <==> j in Of(db, other).jobs
    {
      assert Resolves(db, db.jobs[j]);
      if !Belongs(db, db.jobs[j], tenant) {
        OwnersSurvive(db, db.jobs[j], tenant);
      }
    }
  }

  /** An erasure that stopped after its commit can be run again, and ends where it would have. */
  lemma RerunFinishes(db: Database, before: Files, after: Files, tenant: string)
    requires Kept(db) && PartlySwept(before, after, tenant)
    ensures Erased(Erased(db, tenant), tenant) == Erased(db, tenant)
    ensures Swept(after, tenant) == Swept(before, tenant)
  {
    var e := Erased(db, tenant);
    JobsGone(db, tenant);
    assert ChunksWithout(e.chunks, tenant) == e.chunks;
    hide Without, JobsWithout, ChunksWithout, Kept;
    WithWithout(db.scores, tenant, tenant);
    WithWithout(db.links, tenant, tenant);
    WithWithout(db.entities, tenant, tenant);
    WithWithout(db.summaries, tenant, tenant);
    WithWithout(db.users, tenant, tenant);
    SweepsAgree(before, after, tenant);
  }

  lemma JobsGone(db: Database, tenant: string)
    ensures JobsWithout(Erased(db, tenant), tenant) == Erased(db, tenant).jobs
  {
    var e := Erased(db, tenant);
    forall j | j in e.jobs ensures !Belongs(e, e.jobs[j], tenant) {
      OwnersSurvive(db, e.jobs[j], tenant);
    }
  }

  lemma SweepsAgree(before: Files, after: Files, tenant: string)
    requires PartlySwept(before, after, tenant)
    ensures Swept(after, tenant) == Swept(before, tenant)
  {
  }
}
