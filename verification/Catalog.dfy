/**
  The upload of a snapshot's file listing (agent/cmd/stowline-agent/catalog.go) into the server's
  catalog (server/app/services.py): batches are upserted by path hash, and the catalog becomes READY
  only when count and checksum of what is stored match what the agent declares.

  `hash` is any injective hash of paths; the checksum is the digest of the sorted hashes.
*/
module Catalog {
  import opened Options
  import Ordering
  import opened Sets

  const BATCH := 500

  /** The engine's node type: "file", or any other word, which counts as a directory. */
  datatype Kind = File | Other(word: string)

  datatype Node = Node(path: string, name: string, kind: Kind, size: int, mtime: string)

  datatype Row = Row(parent: string, path: string, name: string, kind: Kind, size: int, mtime: string)

  datatype State = PENDING | UPLOADING | READY | FAILED

  /** SHA-256 of the joined hashes, taken as injective in the list it digests. */
  datatype Checksum = Checksum(sorted: seq<string>)

  datatype Totals = Totals(files: nat, dirs: nat, checksum: Checksum)

  datatype Catalog = Catalog(state: State, entries: map<string, Row>, actualFiles: nat, actualDirs: nat)

  ghost predicate Injective(hash: string -> string) {
    forall a, b :: hash(a) == hash(b) ==> a == b
  }

  function LastSlash(path: string): (i: int)
    ensures -1 <= i < |path|
    ensures i >= 0 ==> path[i] == '/'
    ensures forall k :: i < k < |path| ==> path[k] != '/'
  {
    if path == "" then -1
    else if path[|path| - 1] == '/' then |path| - 1
    else LastSlash(path[..|path| - 1])
  }

  function ParentOf(path: string): string {
    var i := LastSlash(path);
    if i <= 0 then "" else path[..i]
  }

  /** `path` is an entry right below `folder`; the entries of the root have the empty parent. */
  predicate LeafOf(path: string, folder: string, leaf: string) {
    '/' !in leaf && (path == folder + "/" + leaf || (folder == "" && path == leaf))
  }

  ghost predicate Below(path: string, folder: string) {
    exists leaf :: LeafOf(path, folder, leaf)
  }

  lemma ParentIsBelow(path: string)
    ensures Below(path, ParentOf(path))
  {
    var i := LastSlash(path);
    var leaf := path[i + 1..];
    if i >= 0 { assert path == path[..i] + "/" + leaf; }
    assert LeafOf(path, ParentOf(path), leaf);
  }

  lemma LastSlashIs(path: string, i: nat)
    requires i < |path| && path[i] == '/' && forall k :: i < k < |path| ==> path[k] != '/'
    ensures LastSlash(path) == i
  {
  }

  lemma FolderIsParent(path: string, folder: string, leaf: string)
    requires LeafOf(path, folder, leaf)
    ensures folder == ParentOf(path)
  {
    if path == folder + "/" + leaf {
      var i := |folder|;
      forall k | i < k < |path| ensures path[k] != '/' {
        assert path[k] == leaf[k - i - 1];
      }
      LastSlashIs(path, i);
      assert path[..i] == folder;
    } else {
      assert forall k :: 0 <= k < |path| ==> path[k] in leaf;
    }
  }

  /** The stored parent is the one folder the path is right below. */
  lemma ParentAndLeaf(path: string, folder: string)
    ensures Below(path, folder) <==> folder == ParentOf(path)
  {
    ParentIsBelow(path);
    if leaf :| LeafOf(path, folder, leaf) {
      FolderIsParent(path, folder, leaf);
    }
  }

  /** The row shows this node, in the folder it is right below. */
  ghost predicate Shows(row: Row, n: Node) {
    && row.path == n.path && row.name == n.name && row.kind == n.kind && row.size == n.size && row.mtime == n.mtime
    && Below(n.path, row.parent)
  }

  function RowOf(n: Node): Row {
    Row(ParentOf(n.path), n.path, n.name, n.kind, n.size, n.mtime)
  }

  function CatalogChecksum(hashes: seq<string>): Checksum {
    Checksum(Ordering.Sort(hashes))
  }

  // ---- the server's operations ----

  function Fresh(): Catalog {
    Catalog(PENDING, map[], 0, 0)
  }

  function Upserted(entries: map<string, Row>, batch: seq<Node>, hash: string -> string): map<string, Row> {
    if batch == [] then entries
    else
      var n := batch[|batch| - 1];
      Upserted(entries, batch[..|batch| - 1], hash)[hash(n.path) := RowOf(n)]
  }

  /** A finished catalog refuses the batch (422). */
  function Append(c: Catalog, batch: seq<Node>, hash: string -> string): Catalog {
    if c.state == READY then c
    else Catalog(if c.state == PENDING then UPLOADING else c.state, Upserted(c.entries, batch, hash), c.actualFiles, c.actualDirs)
  }

  function RowsOfKind(entries: map<string, Row>, file: bool): set<string> {
    set h | h in entries && entries[h].kind.File? == file
  }

  ghost function HashesOf(hashes: set<string>): seq<string>
    ensures multiset(HashesOf(hashes)) == multiset(hashes)
  {
    if hashes == {} then []
    else
      var h :| h in hashes;
      [h] + HashesOf(hashes - {h})
  }

  ghost predicate Matches(entries: map<string, Row>, declared: Totals) {
    && |RowsOfKind(entries, true)| == declared.files && |RowsOfKind(entries, false)| == declared.dirs
    && CatalogChecksum(HashesOf(entries.Keys)) == declared.checksum
  }

  /** The stored rows match exactly if files, directories and the digest of the hashes, in any order, are as declared. */
  lemma MatchesExactly(entries: map<string, Row>, declared: Totals, hashes: seq<string>)
    requires multiset(hashes) == multiset(entries.Keys)
    ensures Matches(entries, declared) <==>
      && declared.files == |set h | h in entries && entries[h].kind.File?|
      && declared.dirs == |set h | h in entries && !entries[h].kind.File?|
      && declared.checksum == Checksum(Ordering.Sort(hashes))
  {
    assert RowsOfKind(entries, true) == set h | h in entries && entries[h].kind.File?;
    assert RowsOfKind(entries, false) == set h | h in entries && !entries[h].kind.File?;
    Ordering.SortIsCanonical(hashes, HashesOf(entries.Keys));
  }

  /** A finished catalog with the declared counts is confirmed without another look at its rows. */
  ghost predicate Confirms(c: Catalog, declared: Totals) {
    (c.state == READY && c.actualFiles == declared.files && c.actualDirs == declared.dirs) || Matches(c.entries, declared)
  }

  ghost function Finalized(c: Catalog, declared: Totals): Catalog {
    if c.state == READY && c.actualFiles == declared.files && c.actualDirs == declared.dirs then c
    else
      Catalog(if Matches(c.entries, declared) then READY else c.state, c.entries, |RowsOfKind(c.entries, true)|, |RowsOfKind(c.entries, false)|)
  }

  function Failing(c: Catalog): Catalog {
    if c.state == READY then c else c.(state := FAILED)
  }

  // ---- any sequence of calls ----

  datatype Call = Create | Upload(batch: seq<Node>) | Finalize(declared: Totals) | Fail

  ghost function After(c: Option<Catalog>, call: Call, hash: string -> string): Option<Catalog> {
    match call
    case Create => if c.Some? then c else Some(Fresh())
    case Upload(batch) => if c.None? then None else Some(Append(c.value, batch, hash))
    case Finalize(declared) => if c.None? then None else Some(Finalized(c.value, declared))
    case Fail => if c.None? then None else Some(Failing(c.value))
  }

  ghost function AfterAll(c: Option<Catalog>, calls: seq<Call>, hash: string -> string): Option<Catalog>
    decreases |calls|
  {
    if calls == [] then c else AfterAll(After(c, calls[0], hash), calls[1..], hash)
  }

  /** Whatever is called afterwards, a READY catalog keeps its state and its rows. */
  lemma {:induction false} ReadyIsFinal(c: Catalog, calls: seq<Call>, hash: string -> string)
    requires c.state == READY
    ensures
      var c' := AfterAll(Some(c), calls, hash);
      c'.Some? && c'.value.state == READY && c'.value.entries == c.entries
    decreases |calls|
  {
    if calls != [] {
      ReadyIsFinal(After(Some(c), calls[0], hash).value, calls[1..], hash);
    }
  }

  // ---- calls over one listing ----

  predicate DistinctPaths(listing: seq<Node>) {
    forall i, k :: 0 <= i < k < |listing| ==> listing[i].path != listing[k].path
  }

  function HashList(listing: seq<Node>, hash: string -> string): seq<string> {
    seq(|listing|, i requires 0 <= i < |listing| => hash(listing[i].path))
  }

  function Count(listing: seq<Node>, file: bool): nat {
    if listing == [] then 0
    else Count(listing[..|listing| - 1], file) + if listing[|listing| - 1].kind.File? == file then 1 else 0
  }

  ghost function Places(listing: seq<Node>, file: bool): set<nat> {
    set i | 0 <= i < |listing| && listing[i].kind.File? == file
  }

  lemma {:induction false} CountExactly(listing: seq<Node>, file: bool)
    ensures Count(listing, file) == |Places(listing, file)|
    decreases |listing|
  {
    if listing != [] {
      var init := listing[..|listing| - 1];
      CountExactly(init, file);
      if listing[|init|].kind.File? == file {
        OneMore(Places(init, file), Places(listing, file), |init|);
      } else {
        assert Places(listing, file) == Places(init, file);
      }
    }
  }

  function TotalsOf(listing: seq<Node>, hash: string -> string): Totals {
    Totals(Count(listing, true), Count(listing, false), CatalogChecksum(HashList(listing, hash)))
  }

  /** The rows a listing amounts to. */
  function Stored(listing: seq<Node>, hash: string -> string): map<string, Row> {
    Upserted(map[], listing, hash)
  }

  /** A call of an agent that uploads this listing: any part of it, any number of times, in any order. */
  predicate About(call: Call, listing: seq<Node>, hash: string -> string) {
    match call
    case Create => true
    case Upload(batch) => forall n :: n in batch ==> n in listing
    case Finalize(declared) => declared == TotalsOf(listing, hash)
    case Fail => true
  }

  ghost predicate AllAbout(calls: seq<Call>, listing: seq<Node>, hash: string -> string) {
    forall call :: call in calls ==> About(call, listing, hash)
  }

  lemma {:induction false} UpsertedAt(entries: map<string, Row>, batch: seq<Node>, hash: string -> string)
    ensures
      var after := Upserted(entries, batch, hash);
      && (forall h :: h in after <==> h in entries || h in HashList(batch, hash))
      && (forall h :: h in after ==> (h in entries && after[h] == entries[h]) || exists n :: n in batch && h == hash(n.path) && after[h] == RowOf(n))
  {
    if batch != [] {
      var init := batch[..|batch| - 1];
      UpsertedAt(entries, init, hash);
      assert batch == init + [batch[|batch| - 1]];
      assert HashList(batch, hash) == HashList(init, hash) + [hash(batch[|batch| - 1].path)];
    }
  }

  /** Node `i` is the last one of the batch under its hash. */
  predicate LastOf(batch: seq<Node>, i: nat, hash: string -> string)
    requires i < |batch|
  {
    forall k :: i < k < |batch| ==> hash(batch[k].path) != hash(batch[i].path)
  }

  /** The last node of the batch under a hash is what is stored there. */
  lemma {:induction false} UpsertedShows(entries: map<string, Row>, batch: seq<Node>, i: nat, hash: string -> string)
    requires i < |batch| && LastOf(batch, i, hash)
    ensures hash(batch[i].path) in Upserted(entries, batch, hash)
    ensures Shows(Upserted(entries, batch, hash)[hash(batch[i].path)], batch[i])
    decreases |batch|
  {
    if i == |batch| - 1 {
      ParentIsBelow(batch[i].path);
    } else {
      var init := batch[..|batch| - 1];
      assert LastOf(init, i, hash);
      UpsertedShows(entries, init, i, hash);
    }
  }

  /** Where no node of the batch belongs, nothing changes. */
  lemma UpsertedElsewhere(entries: map<string, Row>, batch: seq<Node>, h: string, hash: string -> string)
    requires forall n :: n in batch ==> hash(n.path) != h
    ensures h in Upserted(entries, batch, hash) <==> h in entries
    ensures h in entries ==> Upserted(entries, batch, hash)[h] == entries[h]
  {
    UpsertedAt(entries, batch, hash);
    assert h !in HashList(batch, hash);
  }

  /** Every stored row is a row of the listing, under its own hash. */
  ghost predicate FromListing(entries: map<string, Row>, listing: seq<Node>, hash: string -> string) {
    forall h :: h in entries ==> exists n :: n in listing && h == hash(n.path) && entries[h] == RowOf(n)
  }

  lemma StoredIsFromListing(listing: seq<Node>, hash: string -> string)
    ensures FromListing(Stored(listing, hash), listing, hash)
    ensures forall h :: h in Stored(listing, hash) <==> h in HashList(listing, hash)
  {
    UpsertedAt(map[], listing, hash);
  }

  lemma SamePathSameNode(listing: seq<Node>, a: Node, b: Node)
    requires DistinctPaths(listing) && a in listing && b in listing && a.path == b.path
    ensures a == b
  {
  }

  /** Rows of the listing that are all there are the listing. */
  lemma CompleteIsStored(entries: map<string, Row>, listing: seq<Node>, hash: string -> string)
    requires Injective(hash) && DistinctPaths(listing) && FromListing(entries, listing, hash)
    requires forall h :: h in HashList(listing, hash) ==> h in entries
    ensures entries == Stored(listing, hash)
  {
    var stored := Stored(listing, hash);
    StoredIsFromListing(listing, hash);
    forall h | h in entries ensures h in stored && stored[h] == entries[h] {
      var n :| n in listing && h == hash(n.path) && entries[h] == RowOf(n);
      var i :| 0 <= i < |listing| && listing[i] == n;
      assert HashList(listing, hash)[i] == h;
      var k :| k in listing && h == hash(k.path) && stored[h] == RowOf(k);
      SamePathSameNode(listing, n, k);
    }
  }

  lemma ChecksumTellsHashes(entries: map<string, Row>, listing: seq<Node>, hash: string -> string)
    ensures CatalogChecksum(HashesOf(entries.Keys)) == CatalogChecksum(HashList(listing, hash)) <==>
      multiset(entries.Keys) == multiset(HashList(listing, hash))
  {
    Ordering.SortIsCanonical(HashesOf(entries.Keys), HashList(listing, hash));
  }

  lemma MatchingIsStored(entries: map<string, Row>, listing: seq<Node>, hash: string -> string)
    requires Injective(hash) && DistinctPaths(listing) && FromListing(entries, listing, hash) && Matches(entries, TotalsOf(listing, hash))
    ensures entries == Stored(listing, hash)
  {
    ChecksumTellsHashes(entries, listing, hash);
    forall h | h in HashList(listing, hash) ensures h in entries {
      assert h in multiset(HashList(listing, hash));
    }
    CompleteIsStored(entries, listing, hash);
  }

  ghost predicate CatalogOk(c: Option<Catalog>, listing: seq<Node>, hash: string -> string) {
    c.Some? ==> FromListing(c.value.entries, listing, hash) && (c.value.state == READY ==> c.value.entries == Stored(listing, hash))
  }

  lemma CallKeepsOk(c: Option<Catalog>, call: Call, listing: seq<Node>, hash: string -> string)
    requires Injective(hash) && DistinctPaths(listing) && CatalogOk(c, listing, hash) && About(call, listing, hash)
    ensures CatalogOk(After(c, call, hash), listing, hash)
  {
    if c.Some? && call.Upload? {
      UpsertedAt(c.value.entries, call.batch, hash);
      forall h | h in Upserted(c.value.entries, call.batch, hash)
        ensures exists n :: n in listing && h == hash(n.path) && Upserted(c.value.entries, call.batch, hash)[h] == RowOf(n)
      {
      }
    }
    if c.Some? && call.Finalize? && Matches(c.value.entries, call.declared) {
      MatchingIsStored(c.value.entries, listing, hash);
    }
  }

  lemma {:induction false} CallsKeepOk(c: Option<Catalog>, calls: seq<Call>, listing: seq<Node>, hash: string -> string)
    requires Injective(hash) && DistinctPaths(listing) && CatalogOk(c, listing, hash) && AllAbout(calls, listing, hash)
    ensures CatalogOk(AfterAll(c, calls, hash), listing, hash)
    decreases |calls|
  {
    if calls != [] {
      CallKeepsOk(c, calls[0], listing, hash);
      CallsKeepOk(After(c, calls[0], hash), calls[1..], listing, hash);
    }
  }

  /** However often calls over one listing are repeated, lost or restarted: READY means exactly that listing is stored. */
  lemma ReadyIsTheListing(calls: seq<Call>, listing: seq<Node>, hash: string -> string)
    requires Injective(hash) && DistinctPaths(listing) && AllAbout(calls, listing, hash)
    requires AfterAll(None, calls, hash).Some? && AfterAll(None, calls, hash).value.state == READY
    ensures AfterAll(None, calls, hash).value.entries == Stored(listing, hash)
  {
    CallsKeepOk(None, calls, listing, hash);
  }

  /** For each node a row that shows it, under its hash, and no other row. */
  ghost predicate Holds(entries: map<string, Row>, listing: seq<Node>, hash: string -> string) {
    && (forall n :: n in listing ==> hash(n.path) in entries && Shows(entries[hash(n.path)], n))
    && (forall h :: h in entries ==> exists n :: n in listing && h == hash(n.path))
  }

  lemma StoredHolds(listing: seq<Node>, hash: string -> string)
    requires Injective(hash) && DistinctPaths(listing)
    ensures Holds(Stored(listing, hash), listing, hash)
  {
    StoredIsFromListing(listing, hash);
    forall n | n in listing ensures hash(n.path) in Stored(listing, hash) && Shows(Stored(listing, hash)[hash(n.path)], n) {
      var i :| 0 <= i < |listing| && listing[i] == n;
      UpsertedShows(map[], listing, i, hash);
    }
  }

  /** What a READY catalog holds after any such calls. */
  lemma ReadyRowsAreNodes(calls: seq<Call>, listing: seq<Node>, hash: string -> string)
    requires Injective(hash) && DistinctPaths(listing) && AllAbout(calls, listing, hash)
    requires AfterAll(None, calls, hash).Some? && AfterAll(None, calls, hash).value.state == READY
    ensures
      var entries := AfterAll(None, calls, hash).value.entries;
      && (forall n :: n in listing ==> hash(n.path) in entries && Shows(entries[hash(n.path)], n))
      && (forall h :: h in entries ==> exists n :: n in listing && h == hash(n.path))
  {
    ReadyIsTheListing(calls, listing, hash);
    StoredHolds(listing, hash);
  }

  // ---- when a full upload is confirmed ----

  lemma RepeatedHash(hashes: seq<string>, i: nat, k: nat)
    requires i < k < |hashes| && hashes[i] == hashes[k]
    ensures multiset(hashes)[hashes[i]] >= 2
  {
    assert hashes == hashes[..k] + hashes[k..];
    assert hashes[..k][i] == hashes[i] && hashes[k..][0] == hashes[i];
    assert multiset(hashes) == multiset(hashes[..k]) + multiset(hashes[k..]);
    assert hashes[i] in multiset(hashes[..k]) && hashes[i] in multiset(hashes[k..]);
  }

  /** A listing that names a path twice is never confirmed, whatever is stored. */
  lemma ConfirmedIsDistinct(entries: map<string, Row>, listing: seq<Node>, hash: string -> string)
    requires Matches(entries, TotalsOf(listing, hash))
    ensures DistinctPaths(listing)
  {
    ChecksumTellsHashes(entries, listing, hash);
    var hashes := HashList(listing, hash);
    assert forall h :: multiset(entries.Keys)[h] <= 1;
    forall i, k | 0 <= i < k < |listing| ensures listing[i].path != listing[k].path {
      if listing[i].path == listing[k].path {
        RepeatedHash(hashes, i, k);
      }
    }
  }

  lemma AddedKey(keys: set<string>, h: string)
    requires h !in keys
    ensures multiset(keys + {h}) == multiset(keys) + multiset{h}
  {
  }

  lemma AddedKind(entries: map<string, Row>, h: string, row: Row, file: bool)
    requires h !in entries
    ensures |RowsOfKind(entries[h := row], file)| == |RowsOfKind(entries, file)| + if row.kind.File? == file then 1 else 0
  {
    var before, after := RowsOfKind(entries, file), RowsOfKind(entries[h := row], file);
    if row.kind.File? == file {
      OneMore(before, after, h);
    } else {
      assert after == before;
    }
  }

  lemma NewPathNewHash(listing: seq<Node>, hash: string -> string)
    requires Injective(hash) && DistinctPaths(listing) && listing != []
    ensures
      var init := listing[..|listing| - 1];
      && DistinctPaths(init) && hash(listing[|listing| - 1].path) !in Stored(init, hash)
      && HashList(listing, hash) == HashList(init, hash) + [hash(listing[|listing| - 1].path)]
  {
    var init := listing[..|listing| - 1];
    StoredIsFromListing(init, hash);
    forall h | h in HashList(init, hash) ensures h != hash(listing[|listing| - 1].path) {
      var i :| 0 <= i < |init| && HashList(init, hash)[i] == h;
      assert h == hash(listing[i].path);
    }
  }

  lemma {:induction false} DistinctHashes(listing: seq<Node>, hash: string -> string)
    requires Injective(hash) && DistinctPaths(listing)
    ensures multiset(Stored(listing, hash).Keys) == multiset(HashList(listing, hash))
    decreases |listing|
  {
    if listing != [] {
      var init, h := listing[..|listing| - 1], hash(listing[|listing| - 1].path);
      NewPathNewHash(listing, hash);
      DistinctHashes(init, hash);
      AddedKey(Stored(init, hash).Keys, h);
      assert Stored(listing, hash).Keys == Stored(init, hash).Keys + {h};
    }
  }

  lemma {:induction false} DistinctCounts(listing: seq<Node>, hash: string -> string, file: bool)
    requires Injective(hash) && DistinctPaths(listing)
    ensures |RowsOfKind(Stored(listing, hash), file)| == Count(listing, file)
    decreases |listing|
  {
    if listing == [] {
      assert RowsOfKind(map[], file) == {};
    } else {
      var init, last := listing[..|listing| - 1], listing[|listing| - 1];
      NewPathNewHash(listing, hash);
      DistinctCounts(init, hash, file);
      AddedKind(Stored(init, hash), hash(last.path), RowOf(last), file);
    }
  }

  /** A completely uploaded listing is confirmed exactly when its paths are distinct. */
  lemma FullUploadIsConfirmed(listing: seq<Node>, hash: string -> string)
    requires Injective(hash)
    ensures Matches(Stored(listing, hash), TotalsOf(listing, hash)) <==> DistinctPaths(listing)
  {
    if DistinctPaths(listing) {
      DistinctCounts(listing, hash, true);
      DistinctCounts(listing, hash, false);
      DistinctHashes(listing, hash);
      ChecksumTellsHashes(Stored(listing, hash), listing, hash);
    } else if Matches(Stored(listing, hash), TotalsOf(listing, hash)) {
      ConfirmedIsDistinct(Stored(listing, hash), listing, hash);
    }
  }

  // ---- the server's code ----

  class Server {
    const hash: string -> string
    var catalog: Option<Catalog>

    constructor (hash: string -> string)
      ensures this.hash == hash && catalog == None
    {
      this.hash := hash;
      catalog := None;
    }

    method CreateCatalog() returns (state: State)
      modifies `catalog
      ensures catalog == After(old(catalog), Create, hash) && catalog.Some? && state == catalog.value.state
      ensures old(catalog).Some? ==> catalog == old(catalog)
      ensures old(catalog).None? ==> state == PENDING && catalog.value.entries == map[]
    {
      if catalog.None? { catalog := Some(Fresh()); }
      state := catalog.value.state;
    }

    /** A finished catalog refuses the batch; otherwise each node is stored under its hash, the last of a hash wins. */
    method AppendEntries(batch: seq<Node>) returns (ok: bool)
      requires catalog.Some?
      modifies `catalog
      ensures catalog == After(old(catalog), Upload(batch), hash) && ok == (old(catalog).value.state != READY)
      ensures !ok ==> catalog == old(catalog)
      ensures ok ==>
        catalog.Some? && catalog.value.state == if old(catalog).value.state == PENDING then UPLOADING else old(catalog).value.state
      ensures ok ==>
        catalog.value.actualFiles == old(catalog).value.actualFiles && catalog.value.actualDirs == old(catalog).value.actualDirs
      ensures ok ==> forall i :: 0 <= i < |batch| && LastOf(batch, i, hash) ==>
        hash(batch[i].path) in catalog.value.entries && Shows(catalog.value.entries[hash(batch[i].path)], batch[i])
      ensures ok ==> forall h :: (forall n :: n in batch ==> hash(n.path) != h) ==>
        (h in catalog.value.entries <==> h in old(catalog).value.entries)
        && (h in catalog.value.entries ==> catalog.value.entries[h] == old(catalog).value.entries[h])
    {
      if catalog.value.state == READY { return false; }
      forall i | 0 <= i < |batch| && LastOf(batch, i, hash)
        ensures hash(batch[i].path) in Upserted(catalog.value.entries, batch, hash)
        ensures Shows(Upserted(catalog.value.entries, batch, hash)[hash(batch[i].path)], batch[i])
      {
        UpsertedShows(catalog.value.entries, batch, i, hash);
      }
      forall h | forall n :: n in batch ==> hash(n.path) != h
        ensures h in Upserted(catalog.value.entries, batch, hash) <==> h in catalog.value.entries
        ensures h in catalog.value.entries ==> Upserted(catalog.value.entries, batch, hash)[h] == catalog.value.entries[h]
      {
        UpsertedElsewhere(catalog.value.entries, batch, h, hash);
      }
      var entries := catalog.value.entries;
      for i := 0 to |batch|
        invariant entries == Upserted(catalog.value.entries, batch[..i], hash)
      {
        assert batch[..i + 1][..i] == batch[..i];
        entries := entries[hash(batch[i].path) := RowOf(batch[i])];
      }
      assert batch[..|batch|] == batch;
      var state := if catalog.value.state == PENDING then UPLOADING else catalog.value.state;
      catalog := Some(catalog.value.(state := state, entries := entries));
      ok := true;
    }

    /** Counts the stored rows and digests their hashes, in whatever order the rows come. */
    method Measure() returns (actual: Totals)
      requires catalog.Some?
      ensures Matches(catalog.value.entries, actual)
    {
      var entries := catalog.value.entries;
      var files, dirs, hashes := 0, 0, [];
      var todo := entries.Keys;
      assert RowsOfKind(entries, true) * todo == RowsOfKind(entries, true) && RowsOfKind(entries, false) * todo == RowsOfKind(entries, false);
      while todo != {}
        invariant todo <= entries.Keys
        invariant files + |RowsOfKind(entries, true) * todo| == |RowsOfKind(entries, true)|
        invariant dirs + |RowsOfKind(entries, false) * todo| == |RowsOfKind(entries, false)|
        invariant multiset(hashes) + multiset(todo) == multiset(entries.Keys)
        decreases |todo|
      {
        var h :| h in todo;
        OneRowLess(entries, todo, h, true);
        OneRowLess(entries, todo, h, false);
        if entries[h].kind.File? { files := files + 1; } else { dirs := dirs + 1; }
        hashes := hashes + [h];
        todo := todo - {h};
      }
      Ordering.SortIsCanonical(hashes, HashesOf(entries.Keys));
      actual := Totals(files, dirs, CatalogChecksum(hashes));
    }

    method FinalizeCatalog(declared: Totals) returns (ok: bool)
      requires catalog.Some?
      modifies `catalog
      ensures catalog == After(old(catalog), Finalize(declared), hash)
      ensures ok == Confirms(old(catalog).value, declared)
      ensures catalog.Some? && catalog.value.entries == old(catalog).value.entries
      ensures catalog.value.state == if ok then READY else old(catalog).value.state
      ensures ok && old(catalog).value.state != READY ==> Matches(catalog.value.entries, declared)
      ensures ok ==> declared.files == catalog.value.actualFiles && declared.dirs == catalog.value.actualDirs
    {
      var c := catalog.value;
      if c.state == READY && c.actualFiles == declared.files && c.actualDirs == declared.dirs { return true; }
      var actual := Measure();
      ok := actual == declared;
      catalog := Some(Catalog(if ok then READY else c.state, c.entries, actual.files, actual.dirs));
    }

    method FailCatalog()
      requires catalog.Some?
      modifies `catalog
      ensures catalog == After(old(catalog), Fail, hash)
      ensures old(catalog).value.state == READY ==> catalog == old(catalog)
      ensures old(catalog).value.state != READY ==> catalog == Some(old(catalog).value.(state := FAILED))
    {
      if catalog.value.state != READY { catalog := Some(catalog.value.(state := FAILED)); }
    }
  }

  lemma OneRowLess(entries: map<string, Row>, todo: set<string>, h: string, file: bool)
    requires todo <= entries.Keys && h in todo
    ensures |RowsOfKind(entries, file) * todo| ==
            |RowsOfKind(entries, file) * (todo - {h})| + (if entries[h].kind.File? == file then 1 else 0)
  {
    var rows := RowsOfKind(entries, file);
    if h in rows {
      assert rows * todo == rows * (todo - {h}) + {h};
    } else {
      assert rows * todo == rows * (todo - {h});
    }
  }

  // ---- the agent's code ----

  /** What becomes of one request: a lost reply leaves its effect behind. */
  datatype Fate = Arrives | RequestLost | ReplyLost

  datatype BuildResult = Built | AlreadyReady | NoContact | EnumerationFailed | Refused | Mismatch

  lemma {:induction false} AfterOneMore(c: Option<Catalog>, calls: seq<Call>, call: Call, hash: string -> string)
    ensures AfterAll(c, calls + [call], hash) == After(AfterAll(c, calls, hash), call, hash)
    decreases |calls|
  {
    if calls == [] {
      assert [call][1..] == [];
    } else {
      assert (calls + [call])[1..] == calls[1..] + [call];
      AfterOneMore(After(c, calls[0], hash), calls[1..], call, hash);
    }
  }

  lemma {:induction false} UpsertedOn(entries: map<string, Row>, a: seq<Node>, b: seq<Node>, hash: string -> string)
    ensures Upserted(Upserted(entries, a, hash), b, hash) == Upserted(entries, a + b, hash)
    decreases |b|
  {
    if b == [] {
      assert a + b == a;
    } else {
      UpsertedOn(entries, a, b[..|b| - 1], hash);
      assert (a + b)[..|a + b| - 1] == a + b[..|b| - 1];
    }
  }

  /** The listing uploaded over rows of its own, whatever they were, is stored completely. */
  lemma UploadedOver(entries: map<string, Row>, listing: seq<Node>, hash: string -> string)
    requires Injective(hash) && DistinctPaths(listing) && FromListing(entries, listing, hash)
    ensures Upserted(entries, listing, hash) == Stored(listing, hash)
  {
    var after := Upserted(entries, listing, hash);
    UpsertedAt(entries, listing, hash);
    forall h | h in after ensures exists n :: n in listing && h == hash(n.path) && after[h] == RowOf(n) {
    }
    CompleteIsStored(after, listing, hash);
  }

  /** The server changed only by calls about this listing. */
  ghost predicate Sent(before: Option<Catalog>, after: Option<Catalog>, listing: seq<Node>, hash: string -> string) {
    exists calls :: AllAbout(calls, listing, hash) && after == AfterAll(before, calls, hash)
  }

  lemma SentNothing(c: Option<Catalog>, listing: seq<Node>, hash: string -> string)
    ensures Sent(c, c, listing, hash)
  {
    assert AllAbout([], listing, hash) && c == AfterAll(c, [], hash);
  }

  lemma SentOne(before: Option<Catalog>, now: Option<Catalog>, call: Call, listing: seq<Node>, hash: string -> string)
    requires Sent(before, now, listing, hash) && About(call, listing, hash)
    ensures Sent(before, After(now, call, hash), listing, hash)
  {
    var calls :| AllAbout(calls, listing, hash) && now == AfterAll(before, calls, hash);
    AfterOneMore(before, calls, call, hash);
    assert AllAbout(calls + [call], listing, hash);
  }

  lemma {:induction false} AfterBoth(c: Option<Catalog>, a: seq<Call>, b: seq<Call>, hash: string -> string)
    ensures AfterAll(c, a + b, hash) == AfterAll(AfterAll(c, a, hash), b, hash)
    decreases |a|
  {
    if a == [] {
      assert a + b == b;
    } else {
      assert (a + b)[1..] == a[1..] + b;
      AfterBoth(After(c, a[0], hash), a[1..], b, hash);
    }
  }

  lemma SentOn(before: Option<Catalog>, now: Option<Catalog>, after: Option<Catalog>, listing: seq<Node>,
      hash: string -> string)
    requires Sent(before, now, listing, hash) && Sent(now, after, listing, hash)
    ensures Sent(before, after, listing, hash)
  {
    var calls :| AllAbout(calls, listing, hash) && now == AfterAll(before, calls, hash);
    var more :| AllAbout(more, listing, hash) && after == AfterAll(now, more, hash);
    AfterBoth(before, calls, more, hash);
    assert AllAbout(calls + more, listing, hash);
  }

  lemma SentKeepsOk(before: Option<Catalog>, after: Option<Catalog>, listing: seq<Node>, hash: string -> string)
    requires Injective(hash) && DistinctPaths(listing) && CatalogOk(before, listing, hash) && Sent(before, after, listing, hash)
    ensures CatalogOk(after, listing, hash)
  {
    var calls :| AllAbout(calls, listing, hash) && after == AfterAll(before, calls, hash);
    CallsKeepOk(before, calls, listing, hash);
  }

  /** The loop over the listing: counts, hashes and the checksum. */
  method Declare(nodes: seq<Node>, hash: string -> string) returns (declared: Totals)
    ensures declared == TotalsOf(nodes, hash)
    ensures declared.files == |Places(nodes, true)| && declared.dirs == |Places(nodes, false)|
    ensures declared.checksum == Checksum(Ordering.Sort(HashList(nodes, hash)))
  {
    var files, dirs, hashes := 0, 0, [];
    for i := 0 to |nodes|
      invariant files == Count(nodes[..i], true) && dirs == Count(nodes[..i], false)
      invariant hashes == HashList(nodes[..i], hash)
    {
      assert nodes[..i + 1][..i] == nodes[..i];
      if nodes[i].kind.File? { files := files + 1; } else { dirs := dirs + 1; }
      hashes := hashes + [hash(nodes[i].path)];
    }
    assert nodes[..|nodes|] == nodes;
    CountExactly(nodes, true);
    CountExactly(nodes, false);
    declared := Totals(files, dirs, CatalogChecksum(hashes));
  }

  /** Batches by a moving start index, until one fails. `sent` requests went before. */
  method UploadBatches(server: Server, nodes: seq<Node>,
      net: nat -> Fate, sent: nat) returns (result: BuildResult, used: nat)
    requires server.catalog.Some? && server.catalog.value.state != READY
    modifies server`catalog
    ensures Sent(old(server.catalog), server.catalog, nodes, server.hash) && server.catalog.Some?
    ensures result == Built || result == NoContact
    ensures result == NoContact ==> exists i :: net(i) != Arrives
    ensures result == Built ==>
      && server.catalog.value.state != READY
      && server.catalog.value.entries == Upserted(old(server.catalog).value.entries, nodes, server.hash)
  {
    var start := 0;
    used := sent;
    SentNothing(server.catalog, nodes, server.hash);
    while start < |nodes|
      invariant start <= |nodes|
      invariant server.catalog.Some? && server.catalog.value.state != READY
      invariant server.catalog.value.entries == Upserted(old(server.catalog).value.entries, nodes[..start], server.hash)
      invariant Sent(old(server.catalog), server.catalog, nodes, server.hash)
    {
      var end := if start + BATCH > |nodes| then |nodes| else start + BATCH;
      var batch := nodes[start..end];
      var fate := net(used);
      used := used + 1;
      if fate == RequestLost { return NoContact, used; }
      SentOne(old(server.catalog), server.catalog, Upload(batch), nodes, server.hash);
      UpsertedOn(old(server.catalog).value.entries, nodes[..start], batch, server.hash);
      assert nodes[..start] + batch == nodes[..end];
      var ok := server.AppendEntries(batch);
      if fate == ReplyLost { return NoContact, used; }
      start := end;
    }
    assert nodes[..start] == nodes;
    result := Built;
  }

  method FinalizeUpload(server: Server, nodes: seq<Node>, fate: Fate) returns (result: BuildResult)
    requires server.catalog.Some?
    modifies server`catalog
    ensures Sent(old(server.catalog), server.catalog, nodes, server.hash) && server.catalog.Some?
    ensures result == NoContact <==> fate != Arrives
    ensures result == Built ==> Confirms(old(server.catalog).value, TotalsOf(nodes, server.hash)) && server.catalog.value.state == READY
    ensures result == Mismatch ==> !Confirms(old(server.catalog).value, TotalsOf(nodes, server.hash))
    ensures result == NoContact || result == Built || result == Mismatch
  {
    var declared := Declare(nodes, server.hash);
    SentNothing(server.catalog, nodes, server.hash);
    if fate == RequestLost { return NoContact; }
    SentOne(server.catalog, server.catalog, Finalize(declared), nodes, server.hash);
    var ok := server.FinalizeCatalog(declared);
    if fate == ReplyLost { return NoContact; }
    result := if ok then Built else Mismatch;
  }

  /** Counting, hashing, the batches and the final comparison, on a catalog that is not finished. */
  method UploadAll(server: Server, nodes: seq<Node>, net: nat -> Fate) returns (result: BuildResult)
    requires server.catalog.Some? && server.catalog.value.state != READY
    modifies server`catalog
    ensures Sent(old(server.catalog), server.catalog, nodes, server.hash)
    ensures result == Built || result == NoContact || result == Mismatch
    ensures result == Built ==> server.catalog.Some? && server.catalog.value.state == READY && DistinctPaths(nodes)
    ensures result == NoContact ==> exists i :: net(i) != Arrives
    ensures result == Mismatch && Injective(server.hash) && DistinctPaths(nodes) ==> !CatalogOk(old(server.catalog), nodes, server.hash)
  {
    ghost var before := server.catalog;
    var used;
    result, used := UploadBatches(server, nodes, net, 1);
    if result == NoContact { return; }
    ghost var uploaded := server.catalog;
    result := FinalizeUpload(server, nodes, net(used));
    SentOn(before, uploaded, server.catalog, nodes, server.hash);
    if result == Built {
      ConfirmedIsDistinct(uploaded.value.entries, nodes, server.hash);
    }
    if Injective(server.hash) && DistinctPaths(nodes) && CatalogOk(before, nodes, server.hash) {
      UploadedOver(before.value.entries, nodes, server.hash);
      FullUploadIsConfirmed(nodes, server.hash);
    }
  }

  /**
    The whole upload. `listed` is None when the engine could not enumerate the snapshot. Whatever is
    lost on the way, the server only saw calls about this listing; success means the catalog is READY,
    and so holds exactly the listing; with nothing lost, a listing without repeated paths always succeeds.
  */
  method BuildCatalog(server: Server, listed: Option<seq<Node>>, net: nat -> Fate) returns (result: BuildResult)
    modifies server`catalog
    ensures
      var nodes := if listed.Some? then listed.value else [];
      Sent(old(server.catalog), server.catalog, nodes, server.hash)
    ensures result == Built || result == AlreadyReady ==> server.catalog.Some? && server.catalog.value.state == READY
    ensures result == EnumerationFailed ==> listed.None?
    ensures result == Built ==> listed.Some? && DistinctPaths(listed.value)
    ensures result == NoContact ==> exists i :: net(i) != Arrives
    ensures
      Injective(server.hash) && listed.Some? && DistinctPaths(listed.value) && CatalogOk(old(server.catalog), listed.value, server.hash) ==>
        && CatalogOk(server.catalog, listed.value, server.hash)
        && (result == Built || result == AlreadyReady || result == NoContact)
        && (result != NoContact ==> Holds(server.catalog.value.entries, listed.value, server.hash))
  {
    ghost var before := server.catalog;
    ghost var nodes := if listed.Some? then listed.value else [];
    SentNothing(before, nodes, server.hash);
    if net(0) == RequestLost { return NoContact; }
    SentOne(before, before, Create, nodes, server.hash);
    var state := server.CreateCatalog();
    if net(0) == ReplyLost { return NoContact; }
    if state == READY {
      if Injective(server.hash) && DistinctPaths(nodes) { StoredHolds(nodes, server.hash); }
      return AlreadyReady;
    }
    if listed.None? {
      SentOne(before, server.catalog, Fail, nodes, server.hash);
      if net(1) != RequestLost { server.FailCatalog(); }
      return EnumerationFailed;
    }
    ghost var created := server.catalog;
    result := UploadAll(server, listed.value, net);
    SentOn(before, created, server.catalog, nodes, server.hash);
    if Injective(server.hash) && DistinctPaths(nodes) && CatalogOk(before, nodes, server.hash) {
      SentKeepsOk(before, server.catalog, nodes, server.hash);
      SentKeepsOk(before, created, nodes, server.hash);
      StoredHolds(nodes, server.hash);
    }
  }
}
