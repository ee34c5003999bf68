/**
  Listings handed out page by page: a snapshot folder from the catalog (`read_snapshot_catalog` in
  server/app/services.py) and a local directory (agent/cmd/stowline-agent/browse_local.go). Both
  continue after the last name of the page before, the cursor.
*/
module Paging {
  import opened Options
  import opened Ordering
  import opened Paths
  import Catalog

  const BROWSE_MAX := 1000

  /** `next` is empty on the last page. */
  datatype Page = Page(names: seq<string>, next: string)

  ghost predicate Strict(names: seq<string>) {
    forall i, k :: 0 <= i < k < |names| ==> Lt(names[i], names[k])
  }

  /** The listing has an order, no repetition and no empty name. */
  ghost predicate Listing(names: seq<string>) {
    Strict(names) && "" !in names
  }

  /** How many names come before the first one after the cursor. */
  function StartAt(names: seq<string>, cursor: string): (start: nat)
    ensures start <= |names|
    ensures forall i :: 0 <= i < start ==> !Lt(cursor, names[i])
    ensures start < |names| ==> Lt(cursor, names[start])
  {
    if names == [] || Lt(cursor, names[0]) then 0 else 1 + StartAt(names[1..], cursor)
  }

  function Start(names: seq<string>, cursor: string): (start: nat)
    ensures start <= |names|
  {
    if cursor == "" then 0 else StartAt(names, cursor)
  }

  function PageFrom(names: seq<string>, cursor: string, limit: nat): Page
    requires limit >= 1
  {
    CutPage(names[Start(names, cursor)..], limit)
  }

  function CutPage(rest: seq<string>, limit: nat): Page
    requires limit >= 1
  {
    if |rest| <= limit then Page(rest, "") else Page(rest[..limit], rest[limit - 1])
  }

  lemma LtTransitive(a: string, b: string, c: string)
    requires Le(a, b) && Lt(b, c)
    ensures Lt(a, c)
  {
    LeTransitive(a, b, c);
    if a == c { LeAntisymmetric(a, b); }
  }

  lemma LtIrreflexiveOrder(a: string, b: string)
    requires Lt(a, b)
    ensures !Lt(b, a) && !Le(b, a)
  {
    if Le(b, a) { LeAntisymmetric(a, b); }
  }

  /** The cursor a page ends with leads to the first name the page left out. */
  lemma NextStartsAfter(names: seq<string>, k: nat)
    requires Listing(names) && k < |names|
    ensures names[k] != "" && Start(names, names[k]) == k + 1
  {
    assert names[k] in names;
    var start := StartAt(names, names[k]);
    if start <= k {
      assert Lt(names[k], names[start]);
      if start < k { LtIrreflexiveOrder(names[start], names[k]); }
    }
    assert k + 1 < |names| ==> Lt(names[k], names[k + 1]);
  }

  /** All names the pages from `cursor` on hand out, following cursors until none is returned. */
  ghost function Followed(names: seq<string>, cursor: string, limit: nat): seq<string>
    requires Listing(names) && limit >= 1
    decreases |names| - Start(names, cursor)
  {
    var page := PageFrom(names, cursor, limit);
    if page.next == "" then page.names
    else
      var last := Start(names, cursor) + limit - 1;
      assert page.next == names[last] by { NextIsLast(names, cursor, limit); }
      NextStartsAfter(names, last);
      page.names + Followed(names, page.next, limit)
  }

  lemma NextIsLast(names: seq<string>, cursor: string, limit: nat)
    requires limit >= 1 && PageFrom(names, cursor, limit).next != ""
    ensures Start(names, cursor) + limit < |names| && PageFrom(names, cursor, limit).next == names[Start(names, cursor) + limit - 1]
  {
  }

  lemma {:induction false} FollowedIsRest(names: seq<string>, cursor: string, limit: nat)
    requires Listing(names) && limit >= 1
    ensures Followed(names, cursor, limit) == names[Start(names, cursor)..]
    decreases |names| - Start(names, cursor)
  {
    var start := Start(names, cursor);
    if start + limit < |names| {
      var last := start + limit - 1;
      NextStartsAfter(names, last);
      FollowedIsRest(names, names[last], limit);
      SplitRest(names, start, limit);
    }
  }

  lemma SplitRest(names: seq<string>, start: nat, limit: nat)
    requires 1 <= limit && start + limit <= |names|
    ensures names[start..][limit - 1] == names[start + limit - 1]
    ensures names[start..] == names[start..][..limit] + names[start + limit..]
  {
  }

  /** From the empty cursor, for any page size, every name comes exactly once and in order. */
  lemma PagesCoverListing(names: seq<string>, limit: nat)
    requires Listing(names) && limit >= 1
    ensures Followed(names, "", limit) == names
  {
    FollowedIsRest(names, "", limit);
    assert names[0..] == names;
  }

  /**
    What a page is, in the terms of the listing: the names after the cursor, in order and at most `limit` of
    them; without a next cursor all there are, and else a full page whose last name is the cursor.
  */
  lemma PageExactly(names: seq<string>, cursor: string, limit: nat)
    requires Listing(names) && limit >= 1
    ensures
      var page := PageFrom(names, cursor, limit);
      && Listing(page.names) && |page.names| <= limit
      && (forall x :: x in page.names <==> x in names && (cursor == "" || Lt(cursor, x)) && (page.next == "" || Le(x, page.next)))
      && (page.next != "" ==> |page.names| == limit && page.next == page.names[limit - 1])
  {
    var start := Start(names, cursor);
    var page := PageFrom(names, cursor, limit);
    forall i | 0 <= i < |page.names| ensures page.names[i] == names[start + i] {
    }
    forall x ensures x in page.names <==> x in names && (cursor == "" || Lt(cursor, x)) && (page.next == "" || Le(x, page.next)) {
      RestIsAfter(names, cursor, x);
      if page.next != "" { CutAt(names, start, limit, x); }
    }
    assert forall x :: x in page.names ==> x in names;
  }

  /** The first `limit` names from `start` on are those up to the last of them. */
  lemma CutAt(names: seq<string>, start: nat, limit: nat, x: string)
    requires Listing(names) && limit >= 1 && start + limit <= |names|
    ensures x in names[start..][..limit] <==> x in names[start..] && Le(x, names[start + limit - 1])
  {
    var rest := names[start..];
    if x in rest {
      var i :| 0 <= i < |rest| && rest[i] == x;
      assert names[start + i] == x;
      if i < limit {
        assert rest[..limit][i] == x;
        if i < limit - 1 { assert Lt(x, names[start + limit - 1]); } else { LeTotal(x, x); }
      } else {
        LtIrreflexiveOrder(names[start + limit - 1], x);
      }
    }
  }

  // ---- listings ----

  predicate NoRepeats(names: seq<string>) {
    forall i, k :: 0 <= i < k < |names| ==> names[i] != names[k]
  }

  lemma {:induction false} SortedAt(names: seq<string>, i: nat, k: nat)
    requires Sorted(names) && i < k < |names|
    ensures Le(names[i], names[k])
    decreases i
  {
    if i == 0 {
      assert names[1..][k - 1] == names[k];
    } else {
      SortedAt(names[1..], i - 1, k - 1);
    }
  }

  lemma {:induction false} NoRepeatsIsSet(names: seq<string>)
    requires NoRepeats(names)
    ensures forall x :: multiset(names)[x] == if x in names then 1 else 0
    decreases |names|
  {
    if names != [] {
      var init, last := names[..|names| - 1], names[|names| - 1];
      NoRepeatsIsSet(init);
      assert names == init + [last];
    }
  }

  lemma MultiplicityIsNoRepeats(names: seq<string>, i: nat, k: nat)
    requires i < k < |names| && multiset(names)[names[i]] <= 1
    ensures names[i] != names[k]
  {
    if names[i] == names[k] { Catalog.RepeatedHash(names, i, k); }
  }

  /** A directory's names, sorted, are a listing. */
  lemma SortedIsListing(names: seq<string>)
    requires NoRepeats(names) && "" !in names
    ensures Listing(Sort(names)) && forall x :: x in Sort(names) <==> x in names
  {
    var sorted := Sort(names);
    SortSpec(names);
    NoRepeatsIsSet(names);
    forall x ensures x in sorted <==> x in names {
      assert x in multiset(sorted) <==> x in multiset(names);
    }
    forall i, k | 0 <= i < k < |sorted| ensures Lt(sorted[i], sorted[k]) {
      SortedAt(sorted, i, k);
      MultiplicityIsNoRepeats(sorted, i, k);
    }
  }

  lemma SameNamesSameMultiset(a: seq<string>, b: seq<string>)
    requires NoRepeats(a) && NoRepeats(b) && forall x :: x in a <==> x in b
    ensures multiset(a) == multiset(b)
  {
    NoRepeatsIsSet(a);
    NoRepeatsIsSet(b);
  }

  // ---- the local directory ----

  function BrowseLimit(limit: int): (n: nat)
    ensures 1 <= n <= BROWSE_MAX
    ensures 1 <= limit <= 1000 ==> n == limit
    ensures limit < 1 || limit > 1000 ==> n == 1000
  {
    if limit <= 0 || limit > BROWSE_MAX then BROWSE_MAX else limit
  }

  /** `entries` are the directory's names as the system lists them. */
  method BrowseLocalDir(entries: seq<string>, cursor: string, limit: int) returns (page: Page)
    ensures page == PageFrom(Sort(entries), cursor, BrowseLimit(limit))
    ensures NoRepeats(entries) && "" !in entries ==>
      && Listing(page.names) && |page.names| <= BrowseLimit(limit)
      && forall x :: x in page.names <==> x in entries && (cursor == "" || Lt(cursor, x)) && (page.next == "" || Le(x, page.next))
  {
    var most := BrowseLimit(limit);
    var names := Sort(entries);
    var start := 0;
    if cursor != "" {
      start := FirstAfter(names, cursor);
    }
    page := FillPage(names, start, most);
    if NoRepeats(entries) && "" !in entries {
      SortedIsListing(entries);
      PageExactly(names, cursor, most);
    }
  }

  method FillPage(names: seq<string>, start: nat, most: nat) returns (page: Page)
    requires start <= |names| && most >= 1
    ensures page == CutPage(names[start..], most)
  {
    var out := [];
    var i := start;
    while i < |names| && |out| < most
      invariant start <= i <= |names| && |out| == i - start <= most && out == names[start..i]
    {
      out := out + [names[i]];
      i := i + 1;
    }
    assert names[start..][..i - start] == names[start..i];
    page := Page(out, if i < |names| then names[i - 1] else "");
  }

  lemma StartIsUnique(names: seq<string>, cursor: string, start: nat)
    requires start <= |names| && (forall i :: 0 <= i < start ==> !Lt(cursor, names[i])) && (start < |names| ==> Lt(cursor, names[start]))
    ensures start == StartAt(names, cursor)
  {
  }

  method FirstAfter(names: seq<string>, cursor: string) returns (start: nat)
    ensures start == StartAt(names, cursor)
  {
    start := 0;
    for i := 0 to |names|
      invariant start == i && forall k :: 0 <= k < i ==> !Lt(cursor, names[k])
    {
      if Lt(cursor, names[i]) {
        start := i;
        break;
      }
      start := i + 1;
    }
    StartIsUnique(names, cursor, start);
  }

  // ---- the catalog ----

  /** The rows right below a folder, by path hash. */
  function Children(entries: map<string, Catalog.Row>, folder: string): set<string> {
    set h | h in entries && entries[h].parent == folder
  }

  /** Rows of the page, in order, and the cursor to go on with; None unless the catalog is READY. */
  method ReadSnapshotCatalog(c: Catalog.Catalog, path: string, cursor: string, limit: nat) returns (page: Option<Page>)
    requires limit >= 1 && "" !in c.entries
    ensures page.None? <==> c.state != Catalog.READY
    ensures page.Some? ==> page.value == PageFrom(Ordered(Children(c.entries, TrimSlashes(path))), cursor, limit)
    ensures page.Some? ==>
      forall h :: h in page.value.names ==> h in c.entries && c.entries[h].parent == TrimSlashes(path) && (cursor == "" || Lt(cursor, h))
    ensures page.Some? && page.value.next == "" ==>
      forall h :: h in c.entries && c.entries[h].parent == TrimSlashes(path) && (cursor == "" || Lt(cursor, h)) ==> h in page.value.names
    ensures page.Some? ==> Listing(page.value.names) && |page.value.names| <= limit
  {
    if c.state != Catalog.READY { return None; }
    var folder := TrimSlashes(path);
    var found := Select(c.entries, folder, cursor);
    AfterCursor(Children(c.entries, folder), found, cursor);
    var cut := LimitRows(Sort(found), limit);
    page := Some(cut);
    ChildrenAreListing(Children(c.entries, folder));
    PageExactly(Ordered(Children(c.entries, folder)), cursor, limit);
  }

  /** One row more than asked for is read, to know whether there is more. */
  method LimitRows(ordered: seq<string>, limit: nat) returns (page: Page)
    requires limit >= 1
    ensures page == CutPage(ordered, limit)
  {
    var rows := if |ordered| > limit + 1 then ordered[..limit + 1] else ordered;
    var truncated := |rows| > limit;
    if truncated { rows := rows[..limit]; }
    page := Page(rows, if truncated then rows[|rows| - 1] else "");
  }

  ghost function Ordered(hashes: set<string>): seq<string> {
    Sort(Catalog.HashesOf(hashes))
  }

  /** The rows of the folder whose hash comes after the cursor, as the query finds them. */
  method Select(entries: map<string, Catalog.Row>, folder: string, cursor: string) returns (found: seq<string>)
    ensures NoRepeats(found)
    ensures forall h :: h in found <==> h in Children(entries, folder) && (cursor == "" || Lt(cursor, h))
  {
    found := [];
    var todo := entries.Keys;
    while todo != {}
      invariant todo <= entries.Keys && NoRepeats(found) && forall h :: h in found ==> h !in todo
      invariant forall h :: h in found <==> h in Children(entries, folder) && h !in todo && (cursor == "" || Lt(cursor, h))
      decreases |todo|
    {
      var h :| h in todo;
      todo := todo - {h};
      if entries[h].parent == folder && (cursor == "" || Lt(cursor, h)) { found := found + [h]; }
    }
  }

  lemma {:induction false} HashesOfNoRepeats(hashes: set<string>)
    ensures NoRepeats(Catalog.HashesOf(hashes)) && forall h :: h in Catalog.HashesOf(hashes) <==> h in hashes
  {
    var list := Catalog.HashesOf(hashes);
    assert multiset(list) == multiset(hashes);
    forall h ensures h in list <==> h in hashes {
      assert h in multiset(list) <==> h in multiset(hashes);
    }
    forall i, k | 0 <= i < k < |list| ensures list[i] != list[k] {
      MultiplicityIsNoRepeats(list, i, k);
    }
  }

  /** The children of a folder in order are a listing, so its pages cover it. */
  lemma ChildrenAreListing(hashes: set<string>)
    requires "" !in hashes
    ensures Listing(Ordered(hashes)) && forall h :: h in Ordered(hashes) <==> h in hashes
  {
    HashesOfNoRepeats(hashes);
    SortedIsListing(Catalog.HashesOf(hashes));
  }

  lemma CatalogPagesCoverFolder(entries: map<string, Catalog.Row>, folder: string, limit: nat)
    requires "" !in entries && limit >= 1
    ensures Listing(Ordered(Children(entries, folder)))
    ensures Followed(Ordered(Children(entries, folder)), "", limit) == Ordered(Children(entries, folder))
    ensures forall h :: h in Ordered(Children(entries, folder)) <==> h in entries && entries[h].parent == folder
  {
    ChildrenAreListing(Children(entries, folder));
    PagesCoverListing(Ordered(Children(entries, folder)), limit);
  }

  /**
    Over a READY catalog, however the listing was uploaded: the pages of a folder, together, name the hashes
    of exactly those nodes of the listing that are right below the folder, each once.
  */
  lemma PagesNameTheFolder(calls: seq<Catalog.Call>, listing: seq<Catalog.Node>, hash: string -> string, folder: string, limit: nat)
    requires Catalog.Injective(hash) && Catalog.DistinctPaths(listing) && Catalog.AllAbout(calls, listing, hash)
    requires Catalog.AfterAll(None, calls, hash).Some? && Catalog.AfterAll(None, calls, hash).value.state == Catalog.READY
    requires limit >= 1 && forall n :: n in listing ==> hash(n.path) != ""
    ensures
      var rows := Ordered(Children(Catalog.AfterAll(None, calls, hash).value.entries, folder));
      && Listing(rows) && Followed(rows, "", limit) == rows
      && forall h :: h in rows <==> exists n :: n in listing && Catalog.Below(n.path, folder) && h == hash(n.path)
  {
    var entries := Catalog.AfterAll(None, calls, hash).value.entries;
    Catalog.ReadyRowsAreNodes(calls, listing, hash);
    CatalogPagesCoverFolder(entries, folder, limit);
    forall n | n in listing ensures entries[hash(n.path)].parent == folder <==> Catalog.Below(n.path, folder) {
      Catalog.ParentAndLeaf(n.path, folder);
      Catalog.ParentAndLeaf(n.path, entries[hash(n.path)].parent);
    }
  }

  lemma {:induction false} TailSorted(names: seq<string>, k: nat)
    requires Sorted(names) && k <= |names|
    ensures Sorted(names[k..])
    decreases k
  {
    if k > 0 {
      TailSorted(names[1..], k - 1);
      assert names[1..][k - 1..] == names[k..];
    }
  }

  lemma RestOfListing(names: seq<string>, found: seq<string>, cursor: string)
    requires Listing(names) && Sorted(names)
    requires NoRepeats(found) && forall h :: h in found <==> h in names && (cursor == "" || Lt(cursor, h))
    ensures Sort(found) == names[Start(names, cursor)..]
  {
    var start := Start(names, cursor);
    TailSorted(names, start);
    SortSpec(found);
    SameRest(names, found, cursor);
    SortedUnique(names[start..], Sort(found));
  }

  lemma SameRest(names: seq<string>, found: seq<string>, cursor: string)
    requires Listing(names)
    requires NoRepeats(found) && forall h :: h in found <==> h in names && (cursor == "" || Lt(cursor, h))
    ensures multiset(names[Start(names, cursor)..]) == multiset(found)
  {
    var start := Start(names, cursor);
    var rest := names[start..];
    forall h ensures h in rest <==> h in found {
      RestIsAfter(names, cursor, h);
    }
    forall i, k | 0 <= i < k < |rest| ensures rest[i] != rest[k] {
      assert Lt(names[start + i], names[start + k]);
    }
    SameNamesSameMultiset(rest, found);
  }

  /** What the query finds after a cursor is the ordered folder from there on. */
  lemma AfterCursor(hashes: set<string>, found: seq<string>, cursor: string)
    requires "" !in hashes && NoRepeats(found) && forall h :: h in found <==> h in hashes && (cursor == "" || Lt(cursor, h))
    ensures Sort(found) == Ordered(hashes)[Start(Ordered(hashes), cursor)..]
  {
    ChildrenAreListing(hashes);
    SortSpec(Catalog.HashesOf(hashes));
    RestOfListing(Ordered(hashes), found, cursor);
  }

  lemma RestIsAfter(names: seq<string>, cursor: string, h: string)
    requires Listing(names)
    ensures h in names[Start(names, cursor)..] <==> h in names && (cursor == "" || Lt(cursor, h))
  {
    var start := Start(names, cursor);
    if h in names {
      var i :| 0 <= i < |names| && names[i] == h;
      if i >= start {
        assert names[start..][i - start] == h;
        if cursor != "" && i > start { LtTransitive(cursor, names[start], names[i]); }
      } else {
        forall k | 0 <= k < |names| - start ensures names[start..][k] != h {
          assert Lt(names[i], names[start + k]);
        }
      }
    }
  }
}
