/** Chunk rows in the database and their Markdown files in the vault, and the call that writes both,
    which may fail or die at any step. Database transactions are atomic; files are not part of them.
    The clean-up after an exception removes the files of the call whether or not its rows are
    committed by then, so an exception that comes after the commit costs rows their files. */
module Vault {
  import opened Options
  import opened Rows

  datatype Row = Row(tenant: string, hash: string, content: string)

  datatype Draft = Draft(id: string, tenant: string, hash: string, content: string)

  datatype Path = Path(tenant: string, id: string)

  datatype Link = Link(chunk: string, entity: string)

  /** The fields of a job's payload that name a tenant's data. */
  datatype Payload = Payload(tenant: Option<string>, chunk: Option<string>, entity: Option<string>)

  /** The tables that hold a tenant's memory; where only the owner of a row matters, that is all
      that is kept of the row. */
  datatype Database = Database(
    chunks: map<string, Row>,
    scores: map<string, string>,
    links: map<Link, string>,
    entities: map<string, string>,
    summaries: map<string, string>,
    users: map<string, string>,
    jobs: map<string, Payload>)

  type Files = map<Path, string>

  // --------------------------------------------------------------- invariants

  /** Every committed chunk row has a vault file with its content. */
  ghost predicate Vaulted(chunks: map<string, Row>, files: Files) {
    forall id | id in chunks :: Filed(id, chunks[id], files)
  }

  predicate Filed(id: string, row: Row, files: Files) {
    Path(row.tenant, id) in files && files[Path(row.tenant, id)] == row.content
  }

  ghost predicate UniqueHashes(chunks: map<string, Row>) {
    forall a, b | a in chunks && b in chunks && chunks[a].hash == chunks[b].hash :: a == b
  }

  /** A job is a tenant's when its payload names the tenant, or a chunk or entity of the tenant. */
  predicate Belongs(db: Database, p: Payload, tenant: string) {
    || p.tenant == Some(tenant)
    || (p.chunk.Some? && p.chunk.value in db.chunks && db.chunks[p.chunk.value].tenant == tenant)
    || (p.entity.Some? && p.entity.value in db.entities && db.entities[p.entity.value] == tenant)
  }

  /** Foreign keys, and jobs that refer to existing rows of one tenant. */
  ghost predicate Referential(db: Database) {
    && (forall c | c in db.scores :: c in db.chunks && db.chunks[c].tenant == db.scores[c])
    && (forall l | l in db.links ::
          && l.chunk in db.chunks && db.chunks[l.chunk].tenant == db.links[l]
          && l.entity in db.entities && db.entities[l.entity] == db.links[l])
    && (forall j | j in db.jobs :: Resolves(db, db.jobs[j]))
  }

  ghost predicate Resolves(db: Database, p: Payload) {
    && (p.chunk.Some? ==> p.chunk.value in db.chunks)
    && (p.entity.Some? ==> p.entity.value in db.entities)
    && (forall t, u | Belongs(db, p, t) && Belongs(db, p, u) :: t == u)
  }

  /** The rows whose file is missing or is not theirs. */
  function Unfiled(chunks: map<string, Row>, files: Files): set<string> {
    set id | id in chunks && !Filed(id, chunks[id], files)
  }

  lemma VaultedIffNoneUnfiled(chunks: map<string, Row>, files: Files)
    ensures Vaulted(chunks, files) <==> Unfiled(chunks, files) == {}
  {
    if Unfiled(chunks, files) == {} {
      forall id | id in chunks ensures Filed(id, chunks[id], files) {
        assert id !in Unfiled(chunks, files);
      }
    }
  }

  /** What every call keeps of the tables, whatever happens to the files. */
  ghost predicate Kept(db: Database) {
    UniqueHashes(db.chunks) && Referential(db)
  }

  // ----------------------------------------------------------- specifications

  /** `{draft.id: draft for draft in drafts}.values()`: the last draft of an id, in the place of the
      first. */
  function LastWins(drafts: seq<Draft>): (unique: seq<Draft>)
    ensures DistinctIds(unique)
  {
    if drafts == [] then []
    else
      var n := |drafts| - 1;
      Put(LastWins(drafts[..n]), drafts[n])
  }

  function Put(ds: seq<Draft>, d: Draft): (r: seq<Draft>)
    requires DistinctIds(ds)
    ensures DistinctIds(r) && d in r && forall e :: e in r <==> e == d || (e in ds && e.id != d.id)
  {
    if ds == [] then [d]
    else if ds[0].id == d.id then
      assert forall e | e in ds[1..] :: e.id != d.id;
      [d] + ds[1..]
    else [ds[0]] + Put(ds[1..], d)
  }

  predicate DistinctIds(ds: seq<Draft>) {
    forall i, j | 0 <= i < j < |ds| :: ds[i].id != ds[j].id
  }

  predicate HasHash(chunks: map<string, Row>, hash: string) {
    exists id :: id in chunks && chunks[id].hash == hash
  }

  /** INSERT ... ON CONFLICT DO NOTHING on the hash, row after row; an id in use under another hash
      is an integrity error. */
  function InsertAll(chunks: map<string, Row>, ds: seq<Draft>): Option<map<string, Row>> {
    if ds == [] then Some(chunks)
    else
      var n := |ds| - 1;
      match InsertAll(chunks, ds[..n])
      case None => None
      case Some(rows) =>
        if HasHash(rows, ds[n].hash) then Some(rows)
        else if ds[n].id in rows then None
        else Some(rows[ds[n].id := Row(ds[n].tenant, ds[n].hash, ds[n].content)])
  }

  /** The vault files of some rows. */
  function FilesOf(chunks: map<string, Row>, ids: set<string>): (files: Files)
    requires ids <= chunks.Keys
    ensures forall p :: p in files <==> p.id in ids && chunks[p.id].tenant == p.tenant
    ensures forall p | p in files :: files[p] == chunks[p.id].content
  {
    map id | id in ids :: Path(chunks[id].tenant, id) := chunks[id].content
  }

  // ------------------------------------------------------------------- faults

  datatype Fault = Fine | Throws | Dies

  /** What befalls one call: when it connects and inserts; as the file of draft `i` is written, and
      what that leaves in the file if it fails; before the commit; between the commit and the end of
      the `try`, while the session closes; and at the clean-up's `i`-th unlink. */
  datatype Faults = Faults(
    begin: Fault,
    write: nat -> Fault,
    partial: nat -> Option<string>,
    commit: Fault,
    leave: Fault,
    unlink: nat -> Fault)

  function NewIds(chunks: map<string, Row>, ds: seq<Draft>): set<string> {
    match InsertAll(chunks, ds)
    case None => {}
    case Some(rows) => rows.Keys - chunks.Keys
  }

  function PathOf(d: Draft): Path {
    Path(d.tenant, d.id)
  }

  /** The first draft from `i` on whose file is not written, or |ds|. */
  function FirstFailure(ds: seq<Draft>, ids: set<string>, f: Faults, i: nat): (n: nat)
    requires i <= |ds|
    ensures i <= n <= |ds|
    ensures n < |ds| ==> ds[n].id in ids && !f.write(n).Fine?
    decreases |ds| - i
  {
    if i == |ds| || (ds[i].id in ids && !f.write(i).Fine?) then i else FirstFailure(ds, ids, f, i + 1)
  }

  predicate Begins(chunks: map<string, Row>, ds: seq<Draft>, f: Faults) {
    ds != [] && f.begin.Fine? && InsertAll(chunks, ds).Some?
  }

  /** How many drafts are dealt with before a write fails. */
  function Handled(chunks: map<string, Row>, ds: seq<Draft>, f: Faults): nat {
    FirstFailure(ds, NewIds(chunks, ds), f, 0)
  }

  /** Whether the call gets as far as committing its rows. */
  predicate Commits(chunks: map<string, Row>, ds: seq<Draft>, f: Faults) {
    Begins(chunks, ds, f) && Handled(chunks, ds, f) == |ds| && f.commit.Fine?
  }

  /** The new rows among the first `n` drafts. */
  function Done(ds: seq<Draft>, ids: set<string>, n: nat): set<string>
    requires n <= |ds|
  {
    set d | d in ds[..n] && d.id in ids :: d.id
  }

  function WrittenIds(chunks: map<string, Row>, ds: seq<Draft>, f: Faults): (ids: set<string>)
    ensures ids <= NewIds(chunks, ds)
  {
    if Begins(chunks, ds, f) then Done(ds, NewIds(chunks, ds), Handled(chunks, ds, f)) else {}
  }

  /** The paths of the files the call writes to the end. */
  function WrittenPaths(chunks: map<string, Row>, ds: seq<Draft>, f: Faults): set<Path> {
    if Begins(chunks, ds, f) then FilesOf(InsertAll(chunks, ds).value, WrittenIds(chunks, ds, f)).Keys else {}
  }

  /** Whether a write fails half-way. */
  predicate Tears(chunks: map<string, Row>, ds: seq<Draft>, f: Faults) {
    && Begins(chunks, ds, f) && Handled(chunks, ds, f) < |ds| && f.partial(Handled(chunks, ds, f)).Some?
  }

  /** The files as they are when the call stops writing, before any clean-up. */
  function Wrote(files: Files, chunks: map<string, Row>, ds: seq<Draft>, f: Faults): Files {
    if !Begins(chunks, ds, f) then files
    else
      var whole := files + FilesOf(InsertAll(chunks, ds).value, WrittenIds(chunks, ds, f));
      var n := Handled(chunks, ds, f);
      if Tears(chunks, ds, f) then whole[PathOf(ds[n]) := f.partial(n).value] else whole
  }

  /** The list of files written, as the first `n` drafts leave it. */
  function Listed(ds: seq<Draft>, ids: set<string>, n: nat): seq<Path>
    requires n <= |ds|
  {
    if n == 0 then []
    else if ds[n - 1].id in ids then Listed(ds, ids, n - 1) + [PathOf(ds[n - 1])]
    else Listed(ds, ids, n - 1)
  }

  function WrittenList(chunks: map<string, Row>, ds: seq<Draft>, f: Faults): seq<Path> {
    if Begins(chunks, ds, f) then Listed(ds, NewIds(chunks, ds), Handled(chunks, ds, f)) else []
  }

  /** What ends the call, or `Fine` if it returns. */
  function Stop(chunks: map<string, Row>, ds: seq<Draft>, f: Faults): Fault {
    if ds == [] then Fine
    else if !f.begin.Fine? then f.begin
    else if InsertAll(chunks, ds).None? then Throws
    else if Handled(chunks, ds, f) < |ds| then f.write(Handled(chunks, ds, f))
    else if !f.commit.Fine? then f.commit
    else f.leave
  }

  /** The first of `n` unlinks, from the `i`-th on, that fails, or `n`. */
  function Stuck(n: nat, f: Faults, i: nat): (k: nat)
    requires i <= n
    ensures i <= k <= n
    ensures forall j: nat | i <= j < k :: f.unlink(j).Fine?
    ensures k < n ==> !f.unlink(k).Fine?
    decreases n - i
  {
    if i == n || !f.unlink(i).Fine? then i else Stuck(n, f, i + 1)
  }

  /** The files a clean-up of the list removes: those before the first unlink that fails. */
  function Unlinked(written: seq<Path>, f: Faults): set<Path> {
    Elements(written[..Stuck(|written|, f, 0)])
  }

  /** The files the call removes: none unless an exception ends it. */
  function Gone(chunks: map<string, Row>, ds: seq<Draft>, f: Faults): set<Path> {
    if Stop(chunks, ds, f).Throws? then Unlinked(WrittenList(chunks, ds, f), f) else {}
  }

  function RowsAfter(chunks: map<string, Row>, ds: seq<Draft>, f: Faults): map<string, Row> {
    if Commits(chunks, ds, f) then InsertAll(chunks, ds).value else chunks
  }

  function IdsOf(paths: set<Path>): set<string> {
    set p | p in paths :: p.id
  }

  // ------------------------------------------------------------------ storage

  /** `Raised`: an exception, after a clean-up that ran to its end. `CutShort`: the process died, or
      the clean-up did not get through. */
  datatype Outcome = Stored(inserted: set<string>, skipped: nat) | Raised | CutShort

  const EMPTY := Database(map[], map[], map[], map[], map[], map[], map[])

  /** The database and the file system. */
  class Storage {
    var db: Database
    var files: Files

    constructor ()
      ensures db == EMPTY && files == map[]
      ensures Kept(db) && Unfiled(db.chunks, files) == {}
    {
      db := EMPTY;
      files := map[];
    }
  }

  class ContentStore {
    const disk: Storage

    constructor (disk: Storage)
      ensures this.disk == disk
    {
      this.disk := disk;
    }

    /** The clean-up after an exception, up to an unlink that fails. */
    method Unlink(written: seq<Path>, f: Faults) returns (ok: bool)
      modifies disk`files
      ensures disk.files == old(disk.files) - Unlinked(written, f)
      ensures ok <==> forall i: nat | i < |written| :: f.unlink(i).Fine?
    {
      ghost var stuck := Stuck(|written|, f, 0);
      assert written[..0] == [];
      for i := 0 to |written|
        invariant disk.files == old(disk.files) - Elements(written[..i]) && i <= stuck
      {
        if !f.unlink(i).Fine? {
          return false;
        }
        disk.files := disk.files - {written[i]};
        assert Elements(written[..i + 1]) == Elements(written[..i]) + {written[i]};
      }
      ok := true;
    }

    /** A call ends as the faults say, and what it leaves follows from that. */
    method Persist(drafts: seq<Draft>, f: Faults) returns (o: Outcome)
      requires Kept(disk.db)
      modifies disk
      ensures Kept(disk.db)
      ensures Persisted(old(disk.db), old(disk.files), drafts, f, disk.db, disk.files)
      ensures OutcomeIs(o, old(disk.db.chunks), LastWins(drafts), f)
      // however it ends, every row has its file iff every one had and no committed file was removed
      ensures Vaulted(disk.db.chunks, disk.files) <==>
        && Vaulted(old(disk.db.chunks), old(disk.files))
        && (!Commits(old(disk.db.chunks), LastWins(drafts), f) || Gone(old(disk.db.chunks), LastWins(drafts), f) == {})
      // which is only ever done by an exception after the commit
      ensures Commits(old(disk.db.chunks), LastWins(drafts), f) ==>
        (Gone(old(disk.db.chunks), LastWins(drafts), f) == {} <==>
          NewIds(old(disk.db.chunks), LastWins(drafts)) == {} || !f.leave.Throws? || !f.unlink(0).Fine?)
    {
      hide *;
      ghost var before, was := disk.files, disk.db;
      var unique := LastWins(drafts);
      Ended(was, before, drafts, f);
      NotBegun(was, before, drafts, f);
      var rows := InsertAll(disk.db.chunks, unique);
      if unique == [] || !f.begin.Fine? || rows.None? {
        o := if unique == [] then Stored({}, 0) else if f.begin.Dies? then CutShort else Raised;
        EndsUnbegun(o, was.chunks, unique, f);
        return;
      }
      var ids := rows.value.Keys - disk.db.chunks.Keys;
      Begun(was, drafts, rows.value, f);
      var fault, written := WriteFiles(unique, ids, rows.value, f);
      if fault.Fine? {
        fault := f.commit;
      }
      if fault.Fine? {
        disk.db := disk.db.(chunks := rows.value);
        fault := f.leave;
      }
      EndsBegun(was.chunks, unique, f, fault, written);
      if fault.Fine? {
        assert disk.files - {} == disk.files;
        o := Stored(ids, |unique| - |ids|);
      } else {
        o := CleanUp(fault, written, f);
      }
      EndsAs(o, was.chunks, unique, f, written);
    }

    /** The loop over the drafts, up to a write that fails. */
    method WriteFiles(unique: seq<Draft>, ids: set<string>, ghost rows: map<string, Row>, f: Faults)
        returns (fault: Fault, written: seq<Path>)
      requires InsertAll(disk.db.chunks, unique) == Some(rows) && Begins(disk.db.chunks, unique, f)
      requires DistinctIds(unique)
      requires ids == rows.Keys - disk.db.chunks.Keys
      modifies disk`files
      ensures var n := Handled(disk.db.chunks, unique, f); fault == if n < |unique| then f.write(n) else Fine
      ensures fault.Fine? <==> Handled(disk.db.chunks, unique, f) == |unique|
      ensures disk.files == Wrote(old(disk.files), disk.db.chunks, unique, f)
      ensures written == WrittenList(disk.db.chunks, unique, f)
      ensures Elements(written) == WrittenPaths(disk.db.chunks, unique, f)
    {
      hide *;
      ghost var before := disk.files;
      written := [];
      HandledFrom(disk.db.chunks, unique, rows, f);
      NothingWritten(before, rows, unique, ids);
      for i := 0 to |unique|
        invariant Handled(disk.db.chunks, unique, f) == FirstFailure(unique, ids, f, i)
        invariant Written(before, disk.files, rows, Done(unique, ids, i), Elements(written))
        invariant written == Listed(unique, ids, i)
      {
        FailureTurn(unique, ids, f, i);
        DoneTurn(unique, ids, i);
        if unique[i].id in ids {
          var path := Path(unique[i].tenant, unique[i].id);
          if !f.write(i).Fine? {
            StoppedWriting(disk.db.chunks, before, disk.files, unique, rows, f, i, written);
            if f.partial(i).Some? {
              disk.files := disk.files[path := f.partial(i).value];
            }
            return f.write(i), written;
          }
          NewRow(disk.db.chunks, unique, rows, i);
          FileWritten(before, disk.files, rows, Done(unique, ids, i), written, unique[i].id);
          disk.files := disk.files[path := unique[i].content];
          written := written + [path];
        }
      }
      EverythingWritten(disk.db.chunks, before, disk.files, unique, rows, f, written);
      fault := Fine;
    }

    /** `except BaseException`: what follows a fault. A death is not followed by anything. */
    method CleanUp(fault: Fault, written: seq<Path>, f: Faults) returns (o: Outcome)
      modifies disk`files
      ensures disk.files == old(disk.files) - (if fault.Dies? then {} else Unlinked(written, f))
      ensures o.Raised? <==> !fault.Dies? && forall i: nat | i < |written| :: f.unlink(i).Fine?
      ensures !o.Stored?
    {
      if fault.Dies? {
        return CutShort;
      }
      var ok := Unlink(written, f);
      o := if ok then Raised else CutShort;
    }
  }

  /** The tables and files a call leaves. */
  ghost predicate Persisted(was: Database, before: Files, drafts: seq<Draft>, f: Faults, db: Database, after: Files) {
    var ds := LastWins(drafts);
    // the rows are all there or none are, and the files are those written, less those cleaned up
    && db == was.(chunks := RowsAfter(was.chunks, ds, f))
    && after == Wrote(before, was.chunks, ds, f) - Gone(was.chunks, ds, f)
    // the rows left without their file are those that were, and those committed and then cleaned up
    && Unfiled(db.chunks, after) == Unfiled(was.chunks, before) + Costs(was.chunks, ds, f)
    // and only files of the drafts are touched
    && Touches(before, after, PathsOf(drafts))
  }

  /** The rows a call commits and then removes the files of. */
  function Costs(chunks: map<string, Row>, ds: seq<Draft>, f: Faults): set<string> {
    if Commits(chunks, ds, f) then IdsOf(Gone(chunks, ds, f)) else {}
  }

  /** How a call ends. */
  ghost predicate OutcomeIs(o: Outcome, chunks: map<string, Row>, ds: seq<Draft>, f: Faults) {
    var stop := Stop(chunks, ds, f);
    && (o.Stored? <==> stop.Fine?)
    && (o.Stored? ==> o.inserted == NewIds(chunks, ds) && o.skipped == |ds| - |o.inserted|)
    && (o.Raised? <==> stop.Throws? && forall i: nat | i < |WrittenList(chunks, ds, f)| :: f.unlink(i).Fine?)
    && (o.Raised? ==> Gone(chunks, ds, f) == WrittenPaths(chunks, ds, f))
  }

  /** The files once those of the rows `done` are written. */
  ghost predicate Written(before: Files, after: Files, rows: map<string, Row>, done: set<string>, paths: set<Path>) {
    done <= rows.Keys && after == before + FilesOf(rows, done) && paths == FilesOf(rows, done).Keys
  }

  ghost predicate Touches(before: Files, after: Files, paths: set<Path>) {
    forall p | p !in paths :: (p in after <==> p in before) && (p in before ==> after[p] == before[p])
  }

  function PathsOf(drafts: seq<Draft>): set<Path> {
    set d | d in drafts :: PathOf(d)
  }

  // -------------------------------------------------------------- the insert

  ghost predicate Extends(chunks: map<string, Row>, rows: map<string, Row>) {
    chunks.Keys <= rows.Keys && forall id | id in chunks :: rows[id] == chunks[id]
  }

  predicate IsRowOf(row: Row, id: string, d: Draft) {
    d.id == id && row == Row(d.tenant, d.hash, d.content)
  }

  ghost predicate NewFrom(chunks: map<string, Row>, rows: map<string, Row>, ds: seq<Draft>) {
    forall id | id in rows && id !in chunks :: exists d :: d in ds && IsRowOf(rows[id], id, d)
  }

  /** What an insert adds: rows of the drafts, under hashes new to the table. */
  lemma {:induction false} Inserts(chunks: map<string, Row>, ds: seq<Draft>, rows: map<string, Row>)
    requires InsertAll(chunks, ds) == Some(rows)
    ensures Extends(chunks, rows) && NewFrom(chunks, rows, ds)
    ensures UniqueHashes(chunks) ==> UniqueHashes(rows)
  {
    if ds != [] {
      var n := |ds| - 1;
      var front := InsertAll(chunks, ds[..n]).value;
      Inserts(chunks, ds[..n], front);
      forall id | id in rows && id !in chunks ensures exists d :: d in ds && IsRowOf(rows[id], id, d) {
        if id in front {
          var d :| d in ds[..n] && IsRowOf(front[id], id, d);
          assert d in ds;
        } else {
          assert ds[n] in ds && IsRowOf(rows[id], id, ds[n]);
        }
      }
    }
  }

  predicate IsLast(drafts: seq<Draft>, d: Draft) {
    exists i | 0 <= i < |drafts| :: drafts[i] == d && NoneAfter(drafts, i, d.id)
  }

  predicate NoneAfter(drafts: seq<Draft>, i: nat, id: string) {
    forall j | i < j < |drafts| :: drafts[j].id != id
  }

  /** `LastWins` keeps, of every id, the draft that came last. */
  lemma {:induction false} LastDraftWins(drafts: seq<Draft>, d: Draft)
    ensures d in LastWins(drafts) <==> IsLast(drafts, d)
  {
    if drafts != [] {
      var n := |drafts| - 1;
      LastDraftWins(drafts[..n], d);
      hide IsLast;
      LastOfLonger(drafts[..n], drafts[n], d);
      assert drafts == drafts[..n] + [drafts[n]];
    }
  }

  lemma LastOfLonger(front: seq<Draft>, x: Draft, d: Draft)
    ensures IsLast(front + [x], d) <==> d == x || (IsLast(front, d) && d.id != x.id)
  {
    var longer := front + [x];
    if d == x {
      assert longer[|front|] == d && NoneAfter(longer, |front|, d.id);
    } else {
      if IsLast(longer, d) {
        var i :| 0 <= i < |longer| && longer[i] == d && NoneAfter(longer, i, d.id);
        assert longer[|front|].id != d.id;
        assert front[i] == d && forall j | i < j < |front| :: front[j] == longer[j];
      }
      if IsLast(front, d) && d.id != x.id {
        var i :| 0 <= i < |front| && front[i] == d && NoneAfter(front, i, d.id);
        assert longer[i] == d && NoneAfter(longer, i, d.id);
      }
    }
  }

  lemma KeptAreDrafts(drafts: seq<Draft>, d: Draft)
    requires d in LastWins(drafts)
    ensures d in drafts
  {
    LastDraftWins(drafts, d);
  }

  lemma NewRow(chunks: map<string, Row>, ds: seq<Draft>, rows: map<string, Row>, i: nat)
    requires InsertAll(chunks, ds) == Some(rows) && DistinctIds(ds) && i < |ds| && ds[i].id in rows.Keys - chunks.Keys
    ensures rows[ds[i].id] == Row(ds[i].tenant, ds[i].hash, ds[i].content)
  {
    Inserts(chunks, ds, rows);
  }

  /** Every draft's hash is in the table afterwards. */
  lemma {:induction false} HashesPresent(chunks: map<string, Row>, ds: seq<Draft>, rows: map<string, Row>)
    requires InsertAll(chunks, ds) == Some(rows)
    ensures forall d | d in ds :: HasHash(rows, d.hash)
  {
    if ds != [] {
      var n := |ds| - 1;
      var front := InsertAll(chunks, ds[..n]).value;
      HashesPresent(chunks, ds[..n], front);
      Inserts(chunks, ds[..n], front);
      forall d | d in ds ensures HasHash(rows, d.hash) {
        if d != ds[n] {
          assert d in ds[..n];
          var id :| id in front && front[id].hash == d.hash;
          assert id in rows && rows[id].hash == d.hash;
        } else if !HasHash(front, d.hash) {
          assert d.id in rows && rows[d.id].hash == d.hash;
        }
      }
    }
  }

  lemma {:induction false} NothingToInsert(rows: map<string, Row>, ds: seq<Draft>)
    requires forall d | d in ds :: HasHash(rows, d.hash)
    ensures InsertAll(rows, ds) == Some(rows)
  {
    if ds != [] {
      NothingToInsert(rows, ds[..|ds| - 1]);
      assert ds[|ds| - 1] in ds;
    }
  }

  /** Persisting the same drafts again inserts nothing. */
  lemma PersistIsIdempotent(chunks: map<string, Row>, drafts: seq<Draft>, rows: map<string, Row>)
    requires InsertAll(chunks, LastWins(drafts)) == Some(rows)
    ensures InsertAll(rows, LastWins(drafts)) == Some(rows)
  {
    HashesPresent(chunks, LastWins(drafts), rows);
    NothingToInsert(rows, LastWins(drafts));
  }

  ghost predicate ContentAddressed(chunks: map<string, Row>) {
    forall id | id in chunks :: chunks[id].hash == id
  }

  /** With ids that are the content hashes, as the chunker makes them, no insert ever fails, and what
      it adds is exactly the ids not yet there. */
  lemma {:induction false} ContentAddressingNeverConflicts(chunks: map<string, Row>, ds: seq<Draft>)
    requires ContentAddressed(chunks) && forall d | d in ds :: d.hash == d.id
    ensures InsertAll(chunks, ds).Some? && ContentAddressed(InsertAll(chunks, ds).value)
    ensures InsertAll(chunks, ds).value.Keys == chunks.Keys + set d | d in ds :: d.id
  {
    if ds != [] {
      var n := |ds| - 1;
      ContentAddressingNeverConflicts(chunks, ds[..n]);
      var front := InsertAll(chunks, ds[..n]).value;
      assert ds[n] in ds && forall d | d in ds :: d in ds[..n] || d == ds[n];
      assert HasHash(front, ds[n].hash) <==> ds[n].id in front;
      assert (set d | d in ds :: d.id) == (set d | d in ds[..n] :: d.id) + {ds[n].id};
    }
  }

  // ------------------------------------------------------- files during persist

  lemma NoneDone(ds: seq<Draft>, ids: set<string>)
    ensures Done(ds, ids, 0) == {}
  {
    assert ds[..0] == [];
  }

  lemma NothingWritten(files: Files, rows: map<string, Row>, ds: seq<Draft>, ids: set<string>)
    ensures Done(ds, ids, 0) == {} && Written(files, files, rows, Done(ds, ids, 0), Elements([]))
    ensures Listed(ds, ids, 0) == []
  {
    NoneDone(ds, ids);
    hide Done;
    assert Elements<Path>([]) == {};
    assert FilesOf(rows, {}) == map[];
  }

  lemma FailureTurn(ds: seq<Draft>, ids: set<string>, f: Faults, i: nat)
    requires i < |ds|
    ensures FirstFailure(ds, ids, f, i)
         == if ds[i].id in ids && !f.write(i).Fine? then i else FirstFailure(ds, ids, f, i + 1)
  {
  }

  lemma DoneTurn(ds: seq<Draft>, ids: set<string>, i: nat)
    requires i < |ds|
    ensures Done(ds, ids, i + 1) == if ds[i].id in ids then Done(ds, ids, i) + {ds[i].id} else Done(ds, ids, i)
    ensures Listed(ds, ids, i + 1)
         == if ds[i].id in ids then Listed(ds, ids, i) + [Path(ds[i].tenant, ds[i].id)] else Listed(ds, ids, i)
  {
    assert ds[..i + 1] == ds[..i] + [ds[i]];
  }

  lemma FileWritten(before: Files, soFar: Files, rows: map<string, Row>, done: set<string>, written: seq<Path>,
                    id: string)
    requires Written(before, soFar, rows, done, Elements(written)) && id in rows
    ensures var path := Path(rows[id].tenant, id);
      Written(before, soFar[path := rows[id].content], rows, done + {id}, Elements(written + [path]))
  {
    var path := Path(rows[id].tenant, id);
    assert FilesOf(rows, done + {id}) == FilesOf(rows, done)[path := rows[id].content];
    assert Elements(written + [path]) == Elements(written) + {path};
  }

  lemma NotBegun(was: Database, before: Files, drafts: seq<Draft>, f: Faults)
    ensures !Begins(was.chunks, LastWins(drafts), f) ==>
      && Wrote(before, was.chunks, LastWins(drafts), f) - Gone(was.chunks, LastWins(drafts), f) == before
      && was.(chunks := RowsAfter(was.chunks, LastWins(drafts), f)) == was
    ensures Begins(was.chunks, LastWins(drafts), f) <==>
      LastWins(drafts) != [] && f.begin.Fine? && InsertAll(was.chunks, LastWins(drafts)).Some?
  {
  }

  lemma HandledFrom(chunks: map<string, Row>, ds: seq<Draft>, rows: map<string, Row>, f: Faults)
    requires InsertAll(chunks, ds) == Some(rows)
    ensures Handled(chunks, ds, f) == FirstFailure(ds, rows.Keys - chunks.Keys, f, 0)
  {
  }

  lemma Begun(was: Database, drafts: seq<Draft>, rows: map<string, Row>, f: Faults)
    requires LastWins(drafts) != [] && f.begin.Fine? && InsertAll(was.chunks, LastWins(drafts)) == Some(rows)
    ensures var ds := LastWins(drafts);
      && NewIds(was.chunks, ds) == rows.Keys - was.chunks.Keys && DistinctIds(ds)
      && (Commits(was.chunks, ds, f) <==> Handled(was.chunks, ds, f) == |ds| && f.commit.Fine?)
      && was.(chunks := RowsAfter(was.chunks, ds, f))
      == (if Commits(was.chunks, ds, f) then was.(chunks := rows) else was)
      && |rows.Keys - was.chunks.Keys| <= |ds|
  {
    Inserts(was.chunks, LastWins(drafts), rows);
    FewNewIds(was.chunks, LastWins(drafts), rows);
    hide InsertAll, FirstFailure, Extends, NewFrom, UniqueHashes;
  }

  lemma FewNewIds(chunks: map<string, Row>, ds: seq<Draft>, rows: map<string, Row>)
    requires NewFrom(chunks, rows, ds)
    ensures |rows.Keys - chunks.Keys| <= |ds|
  {
    forall id | id in rows.Keys - chunks.Keys ensures exists d :: d in ds && d.id == id {
      var d :| d in ds && IsRowOf(rows[id], id, d);
    }
    AtMostOneEach(ds, rows.Keys - chunks.Keys);
  }

  lemma {:induction false} AtMostOneEach(ds: seq<Draft>, ids: set<string>)
    requires forall id | id in ids :: exists d :: d in ds && d.id == id
    ensures |ids| <= |ds|
  {
    if ds == [] {
      assert ids == {};
    } else {
      var n := |ds| - 1;
      forall id | id in ids - {ds[n].id} ensures exists d :: d in ds[..n] && d.id == id {
        var d :| d in ds && d.id == id;
        assert d in ds[..n];
      }
      AtMostOneEach(ds[..n], ids - {ds[n].id});
      assert ids <= (ids - {ds[n].id}) + {ds[n].id};
    }
  }

  /** The write of draft `i` failed: what is written is what the faults say. */
  lemma StoppedWriting(chunks: map<string, Row>, before: Files, soFar: Files, ds: seq<Draft>, rows: map<string, Row>,
                       f: Faults, i: nat, written: seq<Path>)
    requires InsertAll(chunks, ds) == Some(rows) && Begins(chunks, ds, f)
    requires i < |ds| && Handled(chunks, ds, f) == i
    requires Written(before, soFar, rows, Done(ds, rows.Keys - chunks.Keys, i), Elements(written))
    requires written == Listed(ds, rows.Keys - chunks.Keys, i)
    ensures var path := Path(ds[i].tenant, ds[i].id);
      && Wrote(before, chunks, ds, f) == (if f.partial(i).Some? then soFar[path := f.partial(i).value] else soFar)
      && WrittenPaths(chunks, ds, f) == Elements(written) && WrittenList(chunks, ds, f) == written
  {
    hide InsertAll, FirstFailure, FilesOf, Elements, Listed;
  }

  lemma EverythingWritten(chunks: map<string, Row>, before: Files, full: Files, ds: seq<Draft>, rows: map<string, Row>,
                          f: Faults, written: seq<Path>)
    requires InsertAll(chunks, ds) == Some(rows) && Begins(chunks, ds, f)
    requires Handled(chunks, ds, f) == FirstFailure(ds, rows.Keys - chunks.Keys, f, |ds|)
    requires Written(before, full, rows, Done(ds, rows.Keys - chunks.Keys, |ds|), Elements(written))
    requires written == Listed(ds, rows.Keys - chunks.Keys, |ds|)
    ensures Wrote(before, chunks, ds, f) == full && WrittenPaths(chunks, ds, f) == Elements(written)
    ensures Handled(chunks, ds, f) == |ds| && WrittenList(chunks, ds, f) == written
  {
    hide InsertAll, FilesOf, Elements, Listed;
  }

  // ------------------------------------------------------------ what a call leaves

  lemma MoreRowsKeepReferences(db: Database, rows: map<string, Row>)
    requires Referential(db) && Extends(db.chunks, rows)
    ensures Referential(db.(chunks := rows))
  {
    forall j | j in db.jobs ensures Resolves(db.(chunks := rows), db.jobs[j]) {
      assert Resolves(db, db.jobs[j]);
      assert forall t :: Belongs(db.(chunks := rows), db.jobs[j], t) == Belongs(db, db.jobs[j], t);
    }
  }

  lemma TablesKept(was: Database, ds: seq<Draft>, f: Faults)
    requires Kept(was)
    ensures Kept(was.(chunks := RowsAfter(was.chunks, ds, f))) && Extends(was.chunks, RowsAfter(was.chunks, ds, f))
  {
    if Commits(was.chunks, ds, f) {
      var rows := InsertAll(was.chunks, ds).value;
      Inserts(was.chunks, ds, rows);
      hide InsertAll, Handled, Referential, UniqueHashes, Extends;
      MoreRowsKeepReferences(was, rows);
    }
  }

  /** All of the new rows' files are written before the commit. */
  lemma AllDone(chunks: map<string, Row>, ds: seq<Draft>, f: Faults)
    requires Commits(chunks, ds, f)
    ensures WrittenIds(chunks, ds, f) == NewIds(chunks, ds)
  {
    var rows := InsertAll(chunks, ds).value;
    Inserts(chunks, ds, rows);
    hide InsertAll, FirstFailure;
    assert ds[..|ds|] == ds;
    forall id | id in NewIds(chunks, ds) ensures id in WrittenIds(chunks, ds, f) {
      var d :| d in ds && IsRowOf(rows[id], id, d);
    }
  }

  /** The paths of the files written, torn or whole, are new rows' paths and drafts' paths. */
  lemma NewPaths(chunks: map<string, Row>, drafts: seq<Draft>, f: Faults, p: Path)
    requires p in WrittenPaths(chunks, LastWins(drafts), f) ||
      (Tears(chunks, LastWins(drafts), f) && p == PathOf(LastWins(drafts)[Handled(chunks, LastWins(drafts), f)]))
    ensures p in PathsOf(drafts) && p.id !in chunks
  {
    var ds := LastWins(drafts);
    var rows := InsertAll(chunks, ds).value;
    Inserts(chunks, ds, rows);
    hide InsertAll, LastWins, FirstFailure;
    if p in WrittenPaths(chunks, ds, f) {
      var d :| d in ds && IsRowOf(rows[p.id], p.id, d);
      KeptAreDrafts(drafts, d);
    } else {
      KeptAreDrafts(drafts, ds[Handled(chunks, ds, f)]);
    }
  }

  lemma OnlyDraftsTouched(chunks: map<string, Row>, before: Files, drafts: seq<Draft>, f: Faults, gone: set<Path>)
    requires gone <= WrittenPaths(chunks, LastWins(drafts), f)
    ensures Touches(before, Wrote(before, chunks, LastWins(drafts), f) - gone, PathsOf(drafts))
    ensures forall p: Path | p.id in chunks :: var after := Wrote(before, chunks, LastWins(drafts), f) - gone;
      (p in after <==> p in before) && (p in before ==> after[p] == before[p])
  {
    var after := Wrote(before, chunks, LastWins(drafts), f) - gone;
    hide InsertAll, LastWins, FirstFailure, PathsOf;
    forall p | p !in PathsOf(drafts) || p.id in chunks
      ensures (p in after <==> p in before) && (p in before ==> after[p] == before[p])
    {
      if p in WrittenPaths(chunks, LastWins(drafts), f) ||
        (Tears(chunks, LastWins(drafts), f) && p == PathOf(LastWins(drafts)[Handled(chunks, LastWins(drafts), f)])) {
        NewPaths(chunks, drafts, f, p);
      }
    }
  }

  /** The rows a call leaves without their file are those it found so, and those it committed and then
      cleaned up after. */
  lemma UnfiledAfter(chunks: map<string, Row>, before: Files, drafts: seq<Draft>, f: Faults, gone: set<Path>)
    requires gone <= WrittenPaths(chunks, LastWins(drafts), f)
    requires Extends(chunks, RowsAfter(chunks, LastWins(drafts), f))
    ensures Unfiled(RowsAfter(chunks, LastWins(drafts), f), Wrote(before, chunks, LastWins(drafts), f) - gone)
         == Unfiled(chunks, before) + (if Commits(chunks, LastWins(drafts), f) then IdsOf(gone) else {})
  {
    var ds := LastWins(drafts);
    OnlyDraftsTouched(chunks, before, drafts, f, gone);
    if Commits(chunks, ds, f) {
      AllDone(chunks, ds, f);
      UnfiledCommitted(chunks, before, ds, f, gone);
    } else {
      hide Commits, Wrote, WrittenPaths;
      forall id | id in chunks
        ensures Filed(id, chunks[id], Wrote(before, chunks, ds, f) - gone) <==> Filed(id, chunks[id], before)
      {
        assert Path(chunks[id].tenant, id).id in chunks;
      }
    }
  }

  lemma UnfiledCommitted(chunks: map<string, Row>, before: Files, ds: seq<Draft>, f: Faults, gone: set<Path>)
    requires Commits(chunks, ds, f) && WrittenIds(chunks, ds, f) == NewIds(chunks, ds)
    requires gone <= WrittenPaths(chunks, ds, f)
    requires Extends(chunks, RowsAfter(chunks, ds, f))
    ensures Unfiled(RowsAfter(chunks, ds, f), Wrote(before, chunks, ds, f) - gone)
         == Unfiled(chunks, before) + IdsOf(gone)
  {
    var rows, ids := InsertAll(chunks, ds).value, NewIds(chunks, ds);
    assert RowsAfter(chunks, ds, f) == rows && ids == rows.Keys - chunks.Keys;
    assert Wrote(before, chunks, ds, f) == before + FilesOf(rows, ids);
    assert WrittenPaths(chunks, ds, f) == FilesOf(rows, ids).Keys;
    hide InsertAll, Commits, Wrote, WrittenPaths, WrittenIds, NewIds, RowsAfter, FilesOf;
    UnfiledOf(chunks, before, rows, gone);
  }

  lemma UnfiledOf(chunks: map<string, Row>, before: Files, rows: map<string, Row>, gone: set<Path>)
    requires Extends(chunks, rows) && gone <= FilesOf(rows, rows.Keys - chunks.Keys).Keys
    ensures Unfiled(rows, before + FilesOf(rows, rows.Keys - chunks.Keys) - gone)
         == Unfiled(chunks, before) + IdsOf(gone)
  {
    var after := before + FilesOf(rows, rows.Keys - chunks.Keys) - gone;
    hide FilesOf;
    forall id | id in rows
      ensures id in Unfiled(rows, after) <==> id in Unfiled(chunks, before) + IdsOf(gone)
    {
      var path := Path(rows[id].tenant, id);
      if id in chunks {
        assert path !in gone;
      } else if id in IdsOf(gone) {
        var p :| p in gone && p.id == id;
        assert p == path;
      }
    }
    forall id | id in IdsOf(gone) ensures id in rows {
      var p :| p in gone && p.id == id;
    }
  }

  /** The list holds the paths of the files written. */
  lemma ListIsWritten(chunks: map<string, Row>, ds: seq<Draft>, f: Faults)
    requires DistinctIds(ds)
    ensures Elements(WrittenList(chunks, ds, f)) == WrittenPaths(chunks, ds, f)
  {
    if Begins(chunks, ds, f) {
      var rows, ids, n := InsertAll(chunks, ds).value, NewIds(chunks, ds), Handled(chunks, ds, f);
      forall i: nat | i < |ds| && ds[i].id in ids ensures rows[ds[i].id].tenant == ds[i].tenant {
        NewRow(chunks, ds, rows, i);
      }
      hide InsertAll, FirstFailure, DistinctIds;
      ListHolds(rows, ds, ids, n);
    }
  }

  lemma {:induction false} ListHolds(rows: map<string, Row>, ds: seq<Draft>, ids: set<string>, n: nat)
    requires n <= |ds| && Done(ds, ids, n) <= rows.Keys
    requires forall i: nat | i < |ds| && ds[i].id in ids :: ds[i].id in rows && rows[ds[i].id].tenant == ds[i].tenant
    ensures Elements(Listed(ds, ids, n)) == FilesOf(rows, Done(ds, ids, n)).Keys
  {
    if n == 0 {
      NoneDone(ds, ids);
    } else {
      DoneTurn(ds, ids, n - 1);
      ListHolds(rows, ds, ids, n - 1);
      ListTurn(rows, ds, ids, n - 1);
    }
  }

  lemma ListTurn(rows: map<string, Row>, ds: seq<Draft>, ids: set<string>, i: nat)
    requires i < |ds| && Done(ds, ids, i) <= rows.Keys
    requires ds[i].id in ids ==> ds[i].id in rows && rows[ds[i].id].tenant == ds[i].tenant
    requires Elements(Listed(ds, ids, i)) == FilesOf(rows, Done(ds, ids, i)).Keys
    ensures ds[i].id in ids ==>
      Elements(Listed(ds, ids, i) + [PathOf(ds[i])]) == FilesOf(rows, Done(ds, ids, i) + {ds[i].id}).Keys
  {
    hide Done, Listed;
    if ds[i].id in ids {
      assert Elements(Listed(ds, ids, i) + [PathOf(ds[i])]) == Elements(Listed(ds, ids, i)) + {PathOf(ds[i])};
    }
  }

  lemma GoneIsWritten(chunks: map<string, Row>, ds: seq<Draft>, f: Faults)
    requires DistinctIds(ds)
    ensures Gone(chunks, ds, f) <= WrittenPaths(chunks, ds, f)
  {
    ListIsWritten(chunks, ds, f);
    hide WrittenList, WrittenPaths, Stop;
  }

  /** A committed row loses its file only to an exception after the commit, and to that always, unless
      the first unlink fails. */
  lemma GoneIff(chunks: map<string, Row>, ds: seq<Draft>, f: Faults)
    requires Commits(chunks, ds, f) && DistinctIds(ds)
    ensures Gone(chunks, ds, f) == {} <==> NewIds(chunks, ds) == {} || !f.leave.Throws? || !f.unlink(0).Fine?
  {
    var written := WrittenList(chunks, ds, f);
    ListIsWritten(chunks, ds, f);
    AllDone(chunks, ds, f);
    IdsOfPaths(chunks, ds, f);
    assert Stop(chunks, ds, f) == f.leave;
    assert Gone(chunks, ds, f) == if f.leave.Throws? then Unlinked(written, f) else {};
    hide InsertAll, FirstFailure, WrittenList, WrittenPaths, WrittenIds, Stop, NewIds, Commits;
    assert written[..0] == [];
    if written != [] {
      assert written[0] in Elements(written) && written[0].id in IdsOf(Elements(written));
      if f.unlink(0).Fine? {
        assert written[..Stuck(|written|, f, 0)][0] == written[0];
        assert written[0] in Unlinked(written, f);
      }
    }
  }

  lemma Ended(was: Database, before: Files, drafts: seq<Draft>, f: Faults)
    requires Kept(was)
    ensures var ds := LastWins(drafts);
      var db := was.(chunks := RowsAfter(was.chunks, ds, f));
      var after := Wrote(before, was.chunks, ds, f) - Gone(was.chunks, ds, f);
      && Kept(db) && Persisted(was, before, drafts, f, db, after)
      && (Vaulted(db.chunks, after) <==>
            Vaulted(was.chunks, before) && (!Commits(was.chunks, ds, f) || Gone(was.chunks, ds, f) == {}))
      && (Commits(was.chunks, ds, f) ==>
            (Gone(was.chunks, ds, f) == {} <==>
              NewIds(was.chunks, ds) == {} || !f.leave.Throws? || !f.unlink(0).Fine?))
  {
    var ds := LastWins(drafts);
    hide Touches, Wrote, WrittenPaths, Gone, RowsAfter, Commits, NewIds, InsertAll, LastWins;
    hide Unfiled, Vaulted, Kept, Extends, IdsOf, PathsOf, DistinctIds;
    var gone := Gone(was.chunks, ds, f);
    TablesKept(was, ds, f);
    GoneIsWritten(was.chunks, ds, f);
    OnlyDraftsTouched(was.chunks, before, drafts, f, gone);
    UnfiledAfter(was.chunks, before, drafts, f, gone);
    VaultedAfter(was.chunks, before, ds, f, gone);
    if Commits(was.chunks, ds, f) {
      GoneIff(was.chunks, ds, f);
    }
  }

  lemma VaultedAfter(chunks: map<string, Row>, before: Files, ds: seq<Draft>, f: Faults, gone: set<Path>)
    requires Unfiled(RowsAfter(chunks, ds, f), Wrote(before, chunks, ds, f) - gone)
          == Unfiled(chunks, before) + (if Commits(chunks, ds, f) then IdsOf(gone) else {})
    ensures Vaulted(RowsAfter(chunks, ds, f), Wrote(before, chunks, ds, f) - gone) <==>
      Vaulted(chunks, before) && (!Commits(chunks, ds, f) || gone == {})
  {
    VaultedIffNoneUnfiled(chunks, before);
    VaultedIffNoneUnfiled(RowsAfter(chunks, ds, f), Wrote(before, chunks, ds, f) - gone);
    forall p | p in gone ensures p.id in IdsOf(gone) {}
    hide Commits, Wrote, Unfiled, Vaulted, RowsAfter;
  }

  lemma EndsUnbegun(o: Outcome, chunks: map<string, Row>, ds: seq<Draft>, f: Faults)
    requires !Begins(chunks, ds, f)
    requires o == (if ds == [] then Stored({}, 0) else if f.begin.Dies? then CutShort else Raised)
    ensures OutcomeIs(o, chunks, ds, f)
  {
  }

  /** What ends a call that has begun, and what the clean-up then removes. */
  lemma EndsBegun(chunks: map<string, Row>, ds: seq<Draft>, f: Faults, fault: Fault, written: seq<Path>)
    requires Begins(chunks, ds, f) && written == WrittenList(chunks, ds, f)
    requires fault
      == (if Handled(chunks, ds, f) < |ds| then f.write(Handled(chunks, ds, f))
          else if !f.commit.Fine? then f.commit else f.leave)
    ensures fault == Stop(chunks, ds, f) && (fault.Fine? ==> Commits(chunks, ds, f))
    ensures Gone(chunks, ds, f) == if fault.Throws? then Unlinked(written, f) else {}
  {
    hide InsertAll, FirstFailure, WrittenList;
  }

  lemma EndsAs(o: Outcome, chunks: map<string, Row>, ds: seq<Draft>, f: Faults, written: seq<Path>)
    requires DistinctIds(ds) && written == WrittenList(chunks, ds, f)
    requires o.Stored? <==> Stop(chunks, ds, f).Fine?
    requires o.Stored? ==> o.inserted == NewIds(chunks, ds) && o.skipped == |ds| - |o.inserted|
    requires o.Raised? <==> Stop(chunks, ds, f).Throws? && forall i: nat | i < |written| :: f.unlink(i).Fine?
    ensures OutcomeIs(o, chunks, ds, f)
  {
    ListIsWritten(chunks, ds, f);
    hide InsertAll, FirstFailure, WrittenList, WrittenPaths, Stop, NewIds;
    if o.Raised? {
      assert written[..|written|] == written;
    }
  }

  lemma IdsOfPaths(chunks: map<string, Row>, ds: seq<Draft>, f: Faults)
    requires Begins(chunks, ds, f)
    ensures IdsOf(WrittenPaths(chunks, ds, f)) == WrittenIds(chunks, ds, f)
  {
    var rows := InsertAll(chunks, ds).value;
    hide InsertAll, FirstFailure, Done;
    forall id | id in WrittenIds(chunks, ds, f) ensures id in IdsOf(WrittenPaths(chunks, ds, f)) {
      assert Path(rows[id].tenant, id) in WrittenPaths(chunks, ds, f);
    }
  }

  // ----------------------------------------------------- what a failed call leaves

  ghost predicate NothingNew(before: Files, after: Files) {
    forall p | p in after :: p in before && after[p] == before[p]
  }

  /** A clean-up that ran to its end leaves nothing new behind, except after a write that failed
      half-way: that file is not among those to remove. */
  lemma TornFileIff(chunks: map<string, Row>, before: Files, ds: seq<Draft>, f: Faults)
    ensures var after, n := Wrote(before, chunks, ds, f) - WrittenPaths(chunks, ds, f), Handled(chunks, ds, f);
      && (NothingNew(before, after) <==>
            !Tears(chunks, ds, f) || PathOf(ds[n]) in WrittenPaths(chunks, ds, f)
            || (PathOf(ds[n]) in before && before[PathOf(ds[n])] == f.partial(n).value))
      && (DistinctIds(ds) && Tears(chunks, ds, f) ==> PathOf(ds[n]) !in WrittenPaths(chunks, ds, f))
  {
    var after, n := Wrote(before, chunks, ds, f) - WrittenPaths(chunks, ds, f), Handled(chunks, ds, f);
    hide InsertAll, FirstFailure;
    if Tears(chunks, ds, f) {
      var torn := PathOf(ds[n]);
      assert torn !in WrittenPaths(chunks, ds, f) ==> torn in after && after[torn] == f.partial(n).value;
      if DistinctIds(ds) {
        assert forall k | 0 <= k < n :: ds[..n][k] == ds[k];
        assert ds[n].id !in WrittenIds(chunks, ds, f);
      }
    }
  }

  /** Rows that lost their files do not get them back by being stored again: nothing is new, so nothing
      is written. */
  lemma LostFilesStayLost(chunks: map<string, Row>, files: Files, drafts: seq<Draft>, f: Faults, again: Faults)
    requires Commits(chunks, LastWins(drafts), f)
    ensures var rows, ds := RowsAfter(chunks, LastWins(drafts), f), LastWins(drafts);
      && NewIds(rows, ds) == {} && RowsAfter(rows, ds, again) == rows && WrittenPaths(rows, ds, again) == {}
      && Wrote(files, rows, ds, again) == files
  {
    var rows, ds := RowsAfter(chunks, LastWins(drafts), f), LastWins(drafts);
    PersistIsIdempotent(chunks, drafts, rows);
    assert InsertAll(rows, ds) == Some(rows);
    hide InsertAll, LastWins;
    NothingNewStored(rows, files, ds, again);
  }

  lemma NothingNewStored(rows: map<string, Row>, files: Files, ds: seq<Draft>, f: Faults)
    requires InsertAll(rows, ds) == Some(rows)
    ensures NewIds(rows, ds) == {} && RowsAfter(rows, ds, f) == rows && WrittenPaths(rows, ds, f) == {}
    ensures Wrote(files, rows, ds, f) == files
  {
    hide InsertAll;
    assert NewIds(rows, ds) == {};
    assert WrittenIds(rows, ds, f) == {};
    assert FilesOf(rows, {}) == map[];
    if Begins(rows, ds, f) {
      assert Handled(rows, ds, f) == |ds|;
    }
  }
}
