/**
  Who may restore what on a shared PC (agent/cmd/stowline-agent/localcaller.go): paths as keys,
  the folders hidden from a caller, and the check before a restore.
*/
module LocalCaller {
  import opened Paths

  /** Paths of others hold keys; `newLocalCaller` keeps the caller's own profile out of them. */
  datatype Caller = Caller(sid: string, profile: string, profilesDir: string, others: seq<string>)

  predicate IsSpace(c: char) {
    || c == ' ' || '\t' <= c <= '\r' || c == '\U{0085}' || c == '\U{00A0}' || c == '\U{1680}' || '\U{2000}' <= c <= '\U{200A}'
    || c == '\U{2028}' || c == '\U{2029}' || c == '\U{202F}' || c == '\U{205F}' || c == '\U{3000}'
  }

  function TrimLeft(s: string): string {
    if s != "" && IsSpace(s[0]) then TrimLeft(s[1..]) else s
  }

  function TrimRight(s: string): string {
    if s != "" && IsSpace(s[|s| - 1]) then TrimRight(s[..|s| - 1]) else s
  }

  function Map(s: string, f: char -> char): (r: string)
    ensures |r| == |s| && forall i :: 0 <= i < |s| ==> r[i] == f(s[i])
  {
    seq(|s|, i requires 0 <= i < |s| => f(s[i]))
  }

  function Slash(c: char): char {
    if c == '\\' then '/' else c
  }

  /** ASCII letters only. */
  function Lower(c: char): char {
    if 'A' <= c <= 'Z' then c - 'A' + 'a' else c
  }

  function Undrived(s: string): string {
    if |s| >= 2 && s[0] < '\U{0080}' && s[1] == ':' then "/" + s[..1] + s[2..] else s
  }

  function Rooted(s: string): string {
    if s != "" && s[0] != '/' then "/" + s else s
  }

  function SnapshotPathKey(path: string): string {
    var slashed := Map(TrimRight(TrimLeft(path)), Slash);
    Map(Rooted(TrimSlashes(Undrived(slashed))), Lower)
  }

  predicate Within(p: string, root: string) {
    root != "" && (p == root || root + "/" <= p)
  }

  function FirstElement(s: string): (r: string)
    ensures r <= s && '/' !in r && (r == s || s[|r|] == '/')
  {
    if s == "" || s[0] == '/' then "" else [s[0]] + FirstElement(s[1..])
  }

  predicate HiddenKey(c: Caller, p: string) {
    if Within(p, c.profile) then false
    else if exists o :: o in c.others && Within(p, o) then true
    else if c.profilesDir != "" && c.profilesDir + "/" <= p then FirstElement(p[|c.profilesDir| + 1..]) != "public"
    else false
  }

  predicate Hidden(c: Caller, path: string) {
    HiddenKey(c, SnapshotPathKey(path))
  }

  predicate MayRestore(c: Caller, path: string) {
    var p := SnapshotPathKey(path);
    p != "" && !Hidden(c, p) && !Encloses(c, p)
  }

  /** A restore of `p` would bring everyone's files, or someone's, along. */
  predicate Encloses(c: Caller, p: string) {
    (c.profilesDir != "" && Within(c.profilesDir, p)) || exists o :: o in c.others && Within(o, p)
  }

  function KeysOf(paths: seq<string>): (keys: seq<string>)
    ensures |keys| == |paths| && forall i :: 0 <= i < |paths| ==> keys[i] == SnapshotPathKey(paths[i])
  {
    seq(|paths|, i requires 0 <= i < |paths| => SnapshotPathKey(paths[i]))
  }

  /** The keys that name a folder other than the caller's own, in order. */
  function OthersIn(keys: seq<string>, own: string): (others: seq<string>)
    ensures forall p :: p in others <==> p in keys && p != "" && p != own
  {
    if keys == [] then []
    else
      var k := keys[|keys| - 1];
      assert keys == keys[..|keys| - 1] + [k];
      OthersIn(keys[..|keys| - 1], own) + if k != "" && k != own then [k] else []
  }

  lemma OthersStep(keys: seq<string>, i: nat, own: string)
    requires i < |keys|
    ensures OthersIn(keys[..i + 1], own) == OthersIn(keys[..i], own) + if keys[i] != "" && keys[i] != own then [keys[i]] else []
  {
    assert keys[..i + 1][..i] == keys[..i];
  }

  method NewLocalCaller(sid: string, profile: string, profilesDir: string, all: seq<string>) returns (c: Caller)
    ensures c.sid == sid && c.profile == SnapshotPathKey(profile) && c.profilesDir == SnapshotPathKey(profilesDir)
    ensures c.others == OthersIn(KeysOf(all), c.profile)
  {
    var own := SnapshotPathKey(profile);
    var others := [];
    ghost var keys := KeysOf(all);
    for i := 0 to |all|
      invariant others == OthersIn(keys[..i], own)
    {
      var k := SnapshotPathKey(all[i]);
      OthersStep(keys, i, own);
      if k != "" && k != own { others := others + [k]; }
    }
    assert keys[..|keys|] == keys;
    c := Caller(sid, own, SnapshotPathKey(profilesDir), others);
  }

  // ---- keys ----

  /** What a path key looks like when taking the key again changes nothing. */
  predicate Canonical(p: string) {
    p == "" ||
    (&& p[0] == '/' && p[|p| - 1] != '/' && !IsSpace(p[|p| - 1]) && p[1] != ':'
     && forall i :: 0 <= i < |p| ==> p[i] != '\\' && !('A' <= p[i] <= 'Z'))
  }

  lemma TrimmedEnds(s: string)
    requires s != "" && !IsSpace(s[0]) && !IsSpace(s[|s| - 1])
    ensures TrimRight(TrimLeft(s)) == s
  {
  }

  lemma KeyForm(path: string)
    ensures Keyed(SnapshotPathKey(path))
  {
    var slashed := Map(TrimRight(TrimLeft(path)), Slash);
    var trimmed := TrimSlashes(Undrived(slashed));
    assert forall i :: 0 <= i < |trimmed| ==> trimmed[i] != '\\';
  }

  lemma CanonicalIsFixed(p: string)
    requires Canonical(p)
    ensures SnapshotPathKey(p) == p
  {
    if p != "" {
      TrimmedEnds(p);
      assert Map(p, Slash) == p && Map(p, Lower) == p;
    }
  }

  lemma TrimmedShorter(s: string)
    ensures |TrimRight(TrimLeft(s))| <= |s|
    ensures s != "" && IsSpace(s[|s| - 1]) ==> |TrimRight(TrimLeft(s))| < |s|
  {
    TrimLeftShorter(s);
    TrimRightShorter(TrimLeft(s));
  }

  lemma {:induction false} TrimLeftShorter(s: string)
    ensures |TrimLeft(s)| <= |s| && TrimLeft(s) == s[|s| - |TrimLeft(s)|..]
    decreases |s|
  {
    if s != "" && IsSpace(s[0]) {
      TrimLeftShorter(s[1..]);
      assert s[1..][|s[1..]| - |TrimLeft(s)|..] == s[|s| - |TrimLeft(s)|..];
    }
  }

  lemma {:induction false} TrimRightShorter(s: string)
    ensures |TrimRight(s)| <= |s| && (s != "" && IsSpace(s[|s| - 1]) ==> |TrimRight(s)| < |s|)
    decreases |s|
  {
    if s != "" && IsSpace(s[|s| - 1]) { TrimRightShorter(s[..|s| - 1]); }
  }

  lemma KeyOfSpaced(k: string)
    requires k != "" && k[0] == '/' && IsSpace(k[|k| - 1])
    ensures |SnapshotPathKey(k)| < |k|
  {
    TrimmedShorter(k);
    var trimmed := TrimRight(k);
    assert TrimLeft(k) == k;
    TrimRightKeepsFirst(k);
    var slashed := Map(trimmed, Slash);
    assert Rooted(TrimSlashes(Undrived(slashed))) == TrimSlashes(Undrived(slashed));
  }

  lemma {:induction false} TrimRightKeepsFirst(s: string)
    requires s != "" && !IsSpace(s[0])
    ensures TrimRight(s) != "" && TrimRight(s)[0] == s[0]
    decreases |s|
  {
    if IsSpace(s[|s| - 1]) { TrimRightKeepsFirst(s[..|s| - 1]); }
  }

  lemma KeyOfDriveLike(k: string)
    requires |k| >= 2 && k[0] == '/' && k[1] == ':' && !IsSpace(k[|k| - 1]) && forall i :: 0 <= i < |k| ==> k[i] != '\\'
    ensures SnapshotPathKey(k) != k
  {
    TrimmedEnds(k);
    assert Map(k, Slash) == k;
    var undrived := Undrived(k);
    assert undrived == "//" + k[2..];
    assert undrived[1] == '/';
    var trimmed := TrimSlashes(undrived);
    assert |trimmed| >= 2 ==> trimmed[1] == undrived[1];
    assert Rooted(trimmed) == trimmed;
  }

  predicate Keyed(k: string) {
    k == "" || (k[0] == '/' && k[|k| - 1] != '/' && forall i :: 0 <= i < |k| ==> k[i] != '\\' && !('A' <= k[i] <= 'Z'))
  }

  lemma FixedExactly(k: string)
    requires Keyed(k)
    ensures SnapshotPathKey(k) == k <==> Canonical(k)
  {
    if Canonical(k) {
      CanonicalIsFixed(k);
    } else if IsSpace(k[|k| - 1]) {
      KeyOfSpaced(k);
    } else {
      KeyOfDriveLike(k);
    }
  }

  /** Taking the key twice is taking it once exactly when the key does not end in white space nor read as a drive. */
  lemma StableExactly(path: string, k: string)
    requires k == SnapshotPathKey(path)
    ensures Keyed(k)
    ensures SnapshotPathKey(k) == k <==> (k == "" || (!IsSpace(k[|k| - 1]) && k[1] != ':'))
  {
    KeyForm(path);
    FixedExactly(k);
  }

  // ---- every spelling of a folder has its key ----

  /** Letters in either case, and either slash. */
  predicate Spells(s: string, k: string) {
    |s| == |k| && forall i :: 0 <= i < |s| ==> Lower(Slash(s[i])) == k[i]
  }

  /** The key itself, or its first folder as a drive letter. */
  predicate Spelling(body: string, k: string) {
    || Spells(body, k)
    || (|k| >= 2 && |body| >= 2 && body[0] < '\U{0080}' && !IsSpace(body[0]) && body[1] == ':'
        && Lower(Slash(body[0])) == k[1] && Spells(body[2..], k[2..]))
  }

  predicate Slashes(s: string) {
    forall i :: 0 <= i < |s| ==> Slash(s[i]) == '/'
  }

  predicate Spaces(s: string) {
    forall i :: 0 <= i < |s| ==> IsSpace(s[i])
  }

  lemma {:induction false} TrimLeftLead(lead: string, s: string)
    requires Spaces(lead) && s != "" && !IsSpace(s[0])
    ensures TrimLeft(lead + s) == s
    decreases |lead|
  {
    if lead == "" {
      assert lead + s == s;
    } else {
      TrimLeftLead(lead[1..], s);
      assert (lead + s)[1..] == lead[1..] + s;
    }
  }

  lemma {:induction false} TrimRightTrail(s: string, trail: string)
    requires Spaces(trail) && s != "" && !IsSpace(s[|s| - 1])
    ensures TrimRight(s + trail) == s
    decreases |trail|
  {
    if trail == "" {
      assert s + trail == s;
    } else {
      TrimRightTrail(s, trail[..|trail| - 1]);
      assert (s + trail)[..|s + trail| - 1] == s + trail[..|trail| - 1];
    }
  }

  lemma {:induction false} TrimSlashesTail(s: string, tail: string)
    requires Slashes(tail) && s != "" && s[|s| - 1] != '/' && forall i :: 0 <= i < |tail| ==> tail[i] == '/'
    ensures TrimSlashes(s + tail) == s
    decreases |tail|
  {
    if tail == "" {
      assert s + tail == s;
    } else {
      TrimSlashesTail(s, tail[..|tail| - 1]);
      assert (s + tail)[..|s + tail| - 1] == s + tail[..|tail| - 1];
    }
  }

  /** The key up to the case of letters, and slashes after it. */
  predicate KeyThenSlashes(u: string, k: string) {
    && |u| >= |k| && (forall i :: 0 <= i < |k| ==> Lower(u[i]) == k[i])
    && forall i :: |k| <= i < |u| ==> u[i] == '/'
  }

  lemma PlainUndrived(body: string, slashes: string, k: string)
    requires k != "" && Canonical(k) && Spells(body, k) && Slashes(slashes)
    ensures KeyThenSlashes(Undrived(Map(body + slashes, Slash)), k)
  {
    var s := Map(body + slashes, Slash);
    assert forall i :: 0 <= i < |k| ==> s[i] == Slash(body[i]);
    assert Lower(s[1]) == k[1];
    assert Undrived(s) == s;
  }

  lemma DriveUndrived(body: string, slashes: string, k: string)
    requires k != "" && Canonical(k) && Spelling(body, k) && !Spells(body, k) && Slashes(slashes)
    ensures KeyThenSlashes(Undrived(Map(body + slashes, Slash)), k)
  {
    var s := Map(body + slashes, Slash);
    assert s[0] == Slash(body[0]) && s[1] == ':';
    var undrived := Undrived(s);
    assert undrived == "/" + s[..1] + s[2..];
    forall i | 0 <= i < |k| ensures Lower(undrived[i]) == k[i] {
      if i >= 2 { assert undrived[i] == s[i] == Slash(body[2..][i - 2]); }
    }
    forall i | |k| <= i < |undrived| ensures undrived[i] == '/' {
      assert undrived[i] == s[i] == Slash(slashes[i - |k|]);
    }
  }

  lemma TrimmedToKey(u: string, k: string)
    requires k != "" && Canonical(k) && KeyThenSlashes(u, k)
    ensures Map(Rooted(TrimSlashes(u)), Lower) == k
  {
    var head, tail := u[..|k|], u[|k|..];
    assert u == head + tail;
    assert Lower(head[|k| - 1]) == k[|k| - 1] && Lower(head[0]) == k[0];
    TrimSlashesTail(head, tail);
  }

  lemma SpellingEnds(body: string, slashes: string, k: string)
    requires k != "" && Canonical(k) && Spelling(body, k) && Slashes(slashes)
    ensures !IsSpace((body + slashes)[0]) && !IsSpace((body + slashes)[|body + slashes| - 1])
  {
    var last := (body + slashes)[|body + slashes| - 1];
    if slashes != "" {
      assert last == slashes[|slashes| - 1];
    } else if Spells(body, k) {
      assert Lower(Slash(last)) == k[|k| - 1];
    } else if |body| > 2 {
      assert last == body[2..][|body| - 3];
      assert Lower(Slash(last)) == k[|k| - 1];
    }
  }

  /**
    Surrounding white space, trailing slashes, the case of letters, the kind of slash and a drive letter make
    no difference: every spelling of a folder has the folder's key.
  */
  lemma EverySpelling(lead: string, body: string, slashes: string, trail: string, k: string)
    requires k != "" && Canonical(k) && Spelling(body, k) && Slashes(slashes) && Spaces(lead) && Spaces(trail)
    ensures SnapshotPathKey(lead + body + slashes + trail) == k
  {
    var s := body + slashes;
    SpellingEnds(body, slashes, k);
    TrimLeftLead(lead, s + trail);
    TrimRightTrail(s, trail);
    assert lead + body + slashes + trail == lead + (s + trail);
    if Spells(body, k) { PlainUndrived(body, slashes, k); } else { DriveUndrived(body, slashes, k); }
    TrimmedToKey(Undrived(Map(s, Slash)), k);
  }

  // ---- visibility ----

  /** Below the profiles folder, outside the caller's own profile and those known to be others', only `public` shows. */
  lemma AccountFolders(c: Caller, account: string, rest: string)
    requires c.profilesDir != "" && '/' !in account && (rest == "" || rest[0] == '/')
    ensures
      var p := c.profilesDir + "/" + account + rest;
      !Within(p, c.profile) && (forall o :: o in c.others ==> !Within(p, o)) ==> (HiddenKey(c, p) <==> account != "public")
  {
    var p := c.profilesDir + "/" + account + rest;
    assert p[|c.profilesDir| + 1..] == account + rest;
    assert c.profilesDir + "/" <= p;
    if rest == "" {
      assert account + rest == account;
      assert FirstElement(account) == account;
    } else {
      FirstElementIs(account + rest, account);
    }
  }

  /** The caller's own folder shows, whoever else has it; another's is hidden; what no profile contains shows. */
  lemma ProfilesDecide(c: Caller, p: string)
    ensures c.profile != "" && (p == c.profile || c.profile + "/" <= p) ==> !HiddenKey(c, p)
    ensures !Within(p, c.profile) && (exists o :: o in c.others && o != "" && (p == o || o + "/" <= p)) ==> HiddenKey(c, p)
    ensures (forall o :: o in c.others ==> !Within(p, o)) && !(c.profilesDir + "/" <= p) ==> !HiddenKey(c, p)
  {
    if o :| o in c.others && o != "" && (p == o || o + "/" <= p) {
      assert Within(p, o);
    }
  }

  lemma WithinTransitive(a: string, b: string, c: string)
    requires Within(a, b) && Within(b, c)
    ensures Within(a, c)
  {
    if a != b && b != c {
      assert c + "/" <= b <= b + "/" <= a;
    }
  }

  /** Two folders around one path lie one in the other. */
  lemma Comparable(q: string, a: string, b: string)
    requires Within(q, a) && Within(q, b)
    ensures Within(a, b) || Within(b, a)
  {
    assert a <= q && b <= q;
    if |a| == |b| {
      assert a == q[..|a|] == b;
    } else if |a| < |b| {
      PrefixWithin(q, a, b);
    } else {
      PrefixWithin(q, b, a);
    }
  }

  lemma PrefixWithin(q: string, a: string, b: string)
    requires Within(q, a) && Within(q, b) && |a| < |b|
    ensures Within(b, a)
  {
    assert a + "/" <= q;
    assert b <= q;
    assert (a + "/") == q[..|a| + 1] && b == q[..|b|];
    assert (a + "/") == b[..|a| + 1];
  }

  lemma FirstElementGrows(s: string, t: string)
    requires s != "" && s[0] != '/' && s + "/" <= t
    ensures FirstElement(t) == FirstElement(s)
    decreases |s|
  {
    var e := FirstElement(s);
    FirstElementIs(t, e);
  }

  lemma {:induction false} FirstElementIs(t: string, e: string)
    requires e <= t && '/' !in e && |e| < |t| && t[|e|] == '/'
    ensures FirstElement(t) == e
    decreases |e|
  {
    if e != "" {
      assert t[0] == e[0] && e[0] in e;
      FirstElementIs(t[1..], e[1..]);
    }
  }

  /** Below a folder under the profiles folder, the account folder stays the same. */
  lemma SameAccountFolder(p: string, q: string, dir: string)
    requires dir + "/" <= p && |p| > |dir| + 1 && p[|dir| + 1] != '/' && Within(q, p)
    ensures dir + "/" <= q && FirstElement(q[|dir| + 1..]) == FirstElement(p[|dir| + 1..])
  {
    if q != p {
      var rest, below := p[|dir| + 1..], q[|dir| + 1..];
      assert p + "/" <= q;
      assert rest + "/" <= below;
      FirstElementGrows(rest, below);
    }
  }

  lemma NotHiddenByOthers(c: Caller, p: string, q: string, o: string)
    requires !Within(q, c.profile) && Within(q, p) && o in c.others
    requires !HiddenKey(c, p) && !Within(o, p)
    ensures !Within(q, o)
  {
    if Within(p, c.profile) { WithinTransitive(q, p, c.profile); }
    if Within(q, o) { Comparable(q, p, o); }
  }

  lemma NotHiddenByFolder(c: Caller, p: string, q: string)
    requires !Within(q, c.profile) && Within(q, p)
    requires c.profilesDir != "" && c.profilesDir + "/" <= q && !Within(c.profilesDir, p)
    requires p[|p| - 1] != '/' && !HiddenKey(c, p)
    ensures FirstElement(q[|c.profilesDir| + 1..]) == "public"
  {
    var dir := c.profilesDir;
    Comparable(q, p, dir);
    if Within(p, c.profile) { WithinTransitive(q, p, c.profile); }
    assert p != dir && dir + "/" <= p;
    assert p[..|dir| + 1] == dir + "/";
    assert (dir + "/")[|dir|] == '/';
    assert |p| > |dir| + 1;
    assert FirstElement(p[|dir| + 1..]) == "public";
    assert p[|dir| + 1] == "public"[0];
    SameAccountFolder(p, q, dir);
  }

  lemma NothingBelowIsHidden(c: Caller, p: string, q: string)
    requires Within(q, p) && p[|p| - 1] != '/' && !HiddenKey(c, p)
    requires !Encloses(c, p)
    ensures !HiddenKey(c, q)
  {
    if !Within(q, c.profile) {
      forall o | o in c.others ensures !Within(q, o) {
        NotHiddenByOthers(c, p, q, o);
      }
      if c.profilesDir != "" && c.profilesDir + "/" <= q {
        NotHiddenByFolder(c, p, q);
      }
    }
  }

  /**
    What may be restored brings nothing along that is hidden exactly when the path itself is not hidden:
    the check looks at the key of the key, which need not be the key.
  */
  lemma RestoreShowsNothingHidden(c: Caller, path: string)
    requires MayRestore(c, path)
    ensures
      (forall inside :: Within(SnapshotPathKey(inside), SnapshotPathKey(path)) ==> !Hidden(c, inside)) <==> !Hidden(c, path)
  {
    var p := SnapshotPathKey(path);
    KeyForm(path);
    assert Within(p, p);
    if !Hidden(c, path) {
      forall inside | Within(SnapshotPathKey(inside), p) ensures !Hidden(c, inside) {
        NothingBelowIsHidden(c, p, SnapshotPathKey(inside));
      }
    }
  }

  /** Keys throughout, and nobody's folder inside the caller's own profile. */
  ghost predicate Separate(c: Caller) {
    && Canonical(c.profilesDir) && (forall o :: o in c.others ==> o != "" && Canonical(o) && !Within(o, c.profile))
    && !(c.profilesDir != "" && Within(c.profilesDir, c.profile))
  }

  function Letters(n: nat): (s: string)
    ensures |s| == n && forall i :: 0 <= i < n ==> s[i] == 'a'
  {
    seq(n, i requires 0 <= i < n => 'a')
  }

  /** The profiles folder holds room for somebody's folder that is not the caller's. */
  lemma SomebodysFolder(c: Caller) returns (q: string)
    requires Separate(c) && c.profilesDir != ""
    ensures Canonical(q) && Within(q, c.profilesDir) && HiddenKey(c, q)
  {
    var dir, leaf := c.profilesDir, Letters(|c.profile| + 1);
    q := dir + "/" + leaf;
    assert q[|dir| + 1..] == leaf && dir + "/" <= q;
    assert FirstElement(leaf) == leaf by { assert '/' !in leaf; }
    assert leaf[0] != "public"[0];
    if Within(q, c.profile) {
      OutsideProfile(c.profile, dir, leaf, q);
    }
  }

  lemma OutsideProfile(profile: string, dir: string, leaf: string, q: string)
    requires q == dir + "/" + leaf && '/' !in leaf && |leaf| > |profile| && Within(q, profile)
    ensures Within(dir, profile)
  {
    forall i | |dir| < i < |q| ensures q[i] != '/' {
      assert q[i] == leaf[i - |dir| - 1];
    }
    assert profile + "/" <= q;
    assert (profile + "/")[|profile|] == '/' == q[|profile|];
    if |profile| < |dir| {
      assert profile + "/" == q[..|profile| + 1] == dir[..|profile| + 1];
    } else {
      assert profile == q[..|dir|] == dir;
    }
  }

  /**
    Of the paths neither hidden themselves nor under the key of their key, the check lets through exactly
    those that bring nothing hidden along.
  */
  lemma MayRestoreExactly(c: Caller, path: string)
    requires Separate(c)
    ensures
      var p := SnapshotPathKey(path);
      MayRestore(c, path) && !Hidden(c, path) <==>
        p != "" && !Hidden(c, p) && forall inside :: Within(SnapshotPathKey(inside), p) ==> !Hidden(c, inside)
  {
    var p := SnapshotPathKey(path);
    if MayRestore(c, path) && !Hidden(c, path) {
      RestoreShowsNothingHidden(c, path);
    } else if p != "" && Encloses(c, p) {
      var q := HiddenInside(c, p);
      CanonicalIsFixed(q);
      assert Within(SnapshotPathKey(q), p) && Hidden(c, q);
    } else if p != "" {
      assert Within(p, p);
    }
  }

  /** Around somebody's folder there is something hidden. */
  lemma HiddenInside(c: Caller, p: string) returns (q: string)
    requires Separate(c) && Encloses(c, p)
    ensures Canonical(q) && Within(q, p) && HiddenKey(c, q)
  {
    if c.profilesDir != "" && Within(c.profilesDir, p) {
      q := SomebodysFolder(c);
      WithinTransitive(q, c.profilesDir, p);
    } else {
      q :| q in c.others && Within(q, p);
      assert Within(q, q);
    }
  }

  // ---- a path whose key is not its own key ----

  const AYSE := Caller("s", "/c/users/ayse", "/c/users", [])
  const SPACED := "C:\\Users\\ayse \\"
  const SPACED_KEY := "/c/users/ayse "

  const SLASHED := "C:/Users/ayse /"
  const ROOTED := "/C/Users/ayse "

  lemma SpacedTrims()
    ensures TrimRight(TrimLeft(SPACED)) == SPACED && Map(SPACED, Slash) == SLASHED
    ensures TrimSlashes(Undrived(SLASHED)) == ROOTED
  {
    assert Undrived(SLASHED) == ROOTED + "/";
    assert (ROOTED + "/")[..|ROOTED|] == ROOTED;
  }

  lemma SpacedKey()
    ensures SnapshotPathKey(SPACED) == SPACED_KEY
  {
    SpacedTrims();
    assert Map(ROOTED, Lower) == SPACED_KEY;
  }

  lemma KeyOfSpacedKey()
    ensures SnapshotPathKey(SPACED_KEY) == "/c/users/ayse"
  {
    var own := "/c/users/ayse";
    assert SPACED_KEY[..|SPACED_KEY| - 1] == own;
    assert TrimRight(SPACED_KEY) == TrimRight(own);
    assert Map(own, Slash) == own && Map(own, Lower) == own;
  }

  /** A name with a space after it is another folder beside it, hidden under the profiles folder unless it is `public`. */
  lemma SpacedBeside(c: Caller, p: string)
    requires c.others == [] && c.profile != "" && p == c.profile + " "
    requires c.profilesDir != "" && c.profilesDir + "/" <= p && |p| - |c.profilesDir| - 1 < |"public"|
    ensures HiddenKey(c, p) && !HiddenKey(c, c.profile) && !Encloses(c, p)
  {
    var dir := c.profilesDir;
    assert p[|c.profile|] == ' ' && (c.profile + "/")[|c.profile|] == '/';
    assert !(c.profile + "/" <= p);
    assert |FirstElement(p[|dir| + 1..])| < |"public"|;
  }

  lemma SpacedIsHidden()
    ensures HiddenKey(AYSE, SPACED_KEY) && !HiddenKey(AYSE, AYSE.profile) && !Encloses(AYSE, SPACED_KEY)
  {
    assert SPACED_KEY == AYSE.profile + " ";
    assert AYSE.profilesDir + "/" <= SPACED_KEY;
    SpacedBeside(AYSE, SPACED_KEY);
  }

  /** The check passes on a path that is hidden, for the key of its key is the caller's own profile. */
  lemma UnstablePathPasses()
    ensures MayRestore(AYSE, SPACED) && Hidden(AYSE, SPACED)
  {
    SpacedKey();
    KeyOfSpacedKey();
    SpacedIsHidden();
  }
}
