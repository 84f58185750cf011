/** Calls of `persist` on an empty store: two that do not end as its documentation says, and one whose
    process dies where the first is cancelled, which leaves row and file alike. */
module VaultFaults {
  import opened Options
  import opened Vault

  const UNTROUBLED := Faults(Fine, _ => Fine, _ => None, Fine, Fine, _ => Fine)

  function RowOf(d: Draft): Row {
    Row(d.tenant, d.hash, d.content)
  }

  /** The call is cancelled while its session closes: the row is committed, the clean-up removes its
      file, and storing the draft again does not bring it back. */
  method CancelledAfterTheCommit(d: Draft) returns (disk: Storage)
    ensures disk.db.chunks == map[d.id := RowOf(d)] && disk.files == map[]
    ensures !Vaulted(disk.db.chunks, disk.files)
  {
    disk := new Storage();
    var store := new ContentStore(disk);
    var f := UNTROUBLED.(leave := Throws);
    OneDraftStored(d, f);
    LostFilesStayLost(map[], map[], [d], f, UNTROUBLED);
    hide *;
    var o := store.Persist([d], f);
    LostThen(d, disk.db, disk.files);
    ghost var lost := disk.db;
    o := store.Persist([d], UNTROUBLED);
    StaysLost(d, lost, disk.db, disk.files);
  }

  lemma OneDraftStored(d: Draft, f: Faults)
    requires f == UNTROUBLED.(leave := Throws) || f == UNTROUBLED.(leave := Dies)
    ensures var path := Path(d.tenant, d.id);
      && LastWins([d]) == [d] && Commits(map[], [d], f) && RowsAfter(map[], [d], f) == map[d.id := RowOf(d)]
      && Wrote(map[], map[], [d], f) == map[path := d.content]
      && Gone(map[], [d], f) == if f.leave.Throws? then {path} else {}
  {
    OneDraft(d);
    AllDone(map[], [d], f);
    ListIsWritten(map[], [d], f);
    assert Stop(map[], [d], f) == f.leave;
    hide InsertAll, LastWins, HasHash, WrittenList, FirstFailure;
    var written := WrittenList(map[], [d], f);
    assert written[..|written|] == written;
  }

  lemma LostThen(d: Draft, db: Database, files: Files)
    requires Persisted(EMPTY, map[], [d], UNTROUBLED.(leave := Throws), db, files)
    ensures db.chunks == map[d.id := RowOf(d)] && files == map[]
    ensures db.chunks == RowsAfter(map[], LastWins([d]), UNTROUBLED.(leave := Throws))
  {
    OneDraftStored(d, UNTROUBLED.(leave := Throws));
    hide Commits, RowsAfter, Gone, Wrote, LastWins, Unfiled, Touches, IdsOf, PathsOf, NewIds;
    assert files == map[Path(d.tenant, d.id) := d.content] - {Path(d.tenant, d.id)};
  }

  /** The process dies there instead: nothing is cleaned up, and row and file are both stored. */
  method KilledAfterTheCommit(d: Draft) returns (disk: Storage)
    ensures disk.db.chunks == map[d.id := RowOf(d)] && disk.files == map[Path(d.tenant, d.id) := d.content]
    ensures Vaulted(disk.db.chunks, disk.files)
  {
    disk := new Storage();
    var store := new ContentStore(disk);
    var f := UNTROUBLED.(leave := Dies);
    OneDraftStored(d, f);
    hide *;
    var o := store.Persist([d], f);
    KeptThen(d, disk.db, disk.files);
  }

  lemma KeptThen(d: Draft, db: Database, files: Files)
    requires Persisted(EMPTY, map[], [d], UNTROUBLED.(leave := Dies), db, files)
    ensures db.chunks == map[d.id := RowOf(d)] && files == map[Path(d.tenant, d.id) := d.content]
    ensures Vaulted(db.chunks, files)
  {
    OneDraftStored(d, UNTROUBLED.(leave := Dies));
    hide Commits, RowsAfter, Gone, Wrote, LastWins, Unfiled, Touches, IdsOf, PathsOf, NewIds;
    assert files == map[Path(d.tenant, d.id) := d.content] - {};
  }

  lemma StaysLost(d: Draft, was: Database, db: Database, files: Files)
    requires Persisted(was, map[], [d], UNTROUBLED, db, files) && was.chunks == map[d.id := RowOf(d)]
    requires RowsAfter(was.chunks, LastWins([d]), UNTROUBLED) == was.chunks
    requires Wrote(map[], was.chunks, LastWins([d]), UNTROUBLED) == map[]
    ensures db.chunks == map[d.id := RowOf(d)] && files == map[] && !Vaulted(db.chunks, files)
  {
    hide Commits, RowsAfter, Gone, Wrote, LastWins, Unfiled, Touches, IdsOf, PathsOf, NewIds;
    assert !Filed(d.id, db.chunks[d.id], files);
  }

  /** The disk fills up while the file is written: no row is committed, and the half-written file
      stays. */
  method DiskFull(d: Draft, partial: string) returns (disk: Storage)
    ensures disk.db.chunks == map[] && disk.files == map[Path(d.tenant, d.id) := partial]
  {
    disk := new Storage();
    var store := new ContentStore(disk);
    var f := UNTROUBLED.(write := _ => Throws, partial := _ => Some(partial));
    OneDraftTorn(d, partial);
    hide *;
    var o := store.Persist([d], f);
    TornThen(d, partial, disk.db, disk.files);
  }

  lemma OneDraftTorn(d: Draft, partial: string)
    ensures var f, path := UNTROUBLED.(write := _ => Throws, partial := _ => Some(partial)), Path(d.tenant, d.id);
      && LastWins([d]) == [d] && RowsAfter(map[], [d], f) == map[] && Handled(map[], [d], f) == 0
      && Gone(map[], [d], f) == {} && Wrote(map[], map[], [d], f) == map[path := partial]
  {
    var f := UNTROUBLED.(write := _ => Throws, partial := _ => Some(partial));
    OneDraft(d);
    assert Handled(map[], [d], f) == 0;
    assert Done([d], {d.id}, 0) == {};
    hide InsertAll, LastWins, HasHash, FirstFailure;
  }

  lemma TornThen(d: Draft, partial: string, db: Database, files: Files)
    requires var f := UNTROUBLED.(write := _ => Throws, partial := _ => Some(partial));
      Persisted(EMPTY, map[], [d], f, db, files)
    ensures db.chunks == map[] && files == map[Path(d.tenant, d.id) := partial]
  {
    OneDraftTorn(d, partial);
    hide Commits, RowsAfter, Gone, Wrote, LastWins, Unfiled, Touches, IdsOf, PathsOf, NewIds;
  }

  lemma OneDraft(d: Draft)
    ensures LastWins([d]) == [d] && InsertAll(map[], [d]) == Some(map[d.id := RowOf(d)])
    ensures NewIds(map[], [d]) == {d.id}
  {
    assert [d][..0] == [];
    assert InsertAll(map[], [d]) == Some(map[d.id := RowOf(d)]);
    assert map[d.id := RowOf(d)].Keys == {d.id};
    hide InsertAll, LastWins;
  }
}
