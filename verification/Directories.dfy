/** `mkdir_all` and `ensure_dir`: an in-place walk over a path buffer that grows a
    directory tree, one `mkdir` per separator. */
module Directories {
  import opened CStrings

  datatype Node = Dir | File

  type Key = seq<string>
  type Tree = map<Key, Node>

  /** The components among the first n characters of a path, empty ones dropped. */
  function Upto(path: string, n: nat): (cs: Key)
    requires n <= |path|
    ensures n > 0 && path[n - 1] != '/' ==> cs != []
  {
    if n == 0 then []
    else if path[n - 1] == '/' then Upto(path, n - 1)
    else if n == 1 || path[n - 2] == '/' then Upto(path, n - 1) + [[path[n - 1]]]
    else
      var cs := Upto(path, n - 1);
      cs[..|cs| - 1] + [cs[|cs| - 1] + [path[n - 1]]]
  }

  function Components(path: string): Key {
    Upto(path, |path|)
  }

  lemma {:induction false} UptoAgree(a: string, b: string, n: nat)
    requires n <= |a| && n <= |b| && forall j :: 0 <= j < n ==> a[j] == b[j]
    ensures Upto(a, n) == Upto(b, n)
  {
    if n > 0 {
      assert a[n - 1] == b[n - 1];
      if n > 1 {
        assert a[n - 2] == b[n - 2];
      }
      UptoAgree(a, b, n - 1);
    }
  }

  lemma {:induction false} ComponentsOfPrefix(path: string, n: nat)
    requires n <= |path|
    ensures Components(path[..n]) == Upto(path, n)
  {
    UptoAgree(path[..n], path, n);
  }

  // What components are

  /** Names a directory can have. */
  predicate Names(cs: Key) {
    forall i :: 0 <= i < |cs| ==> cs[i] != "" && '/' !in cs[i]
  }

  function Slashes(n: nat): string {
    seq(n, _ => '/')
  }

  /** The names one after another, each behind its run of separators; only the first may
      have none, in a relative path. */
  function Joined(cs: Key, gaps: seq<nat>): string
    requires |gaps| == |cs|
    decreases |cs|
  {
    if cs == [] then ""
    else Joined(cs[..|cs| - 1], gaps[..|cs| - 1]) + Slashes(gaps[|cs| - 1]) + cs[|cs| - 1]
  }

  predicate Separating(gaps: seq<nat>) {
    forall i :: 0 < i < |gaps| ==> gaps[i] > 0
  }

  /** The path is these names behind runs of separators, and a run of separators at the end. */
  ghost predicate Spells(path: string, cs: Key) {
    Names(cs) && exists gaps: seq<nat>, tail: nat :: SpelledBy(path, cs, gaps, tail)
  }

  predicate SpelledBy(path: string, cs: Key, gaps: seq<nat>, tail: nat) {
    |gaps| == |cs| && Separating(gaps) && path == Joined(cs, gaps) + Slashes(tail)
  }

  lemma {:induction false} SlashesAdd(a: string, k: nat)
    ensures Components(a + Slashes(k)) == Components(a)
  {
    var p := a + Slashes(k);
    TrailingSeparators(p, |a|, |p|);
    UptoAgree(p, a, |a|);
  }

  lemma {:induction false} FirstLetter(a: string, c: char)
    requires c != '/' && (a == "" || a[|a| - 1] == '/')
    ensures Components(a + [c]) == Components(a) + [[c]]
  {
    var p := a + [c];
    UptoAgree(p, a, |a|);
    assert p[|p| - 1] == c;
    assert |p| > 1 ==> p[|p| - 2] == a[|a| - 1];
  }

  lemma {:induction false} NextLetter(a: string, c: char)
    requires c != '/' && a != "" && a[|a| - 1] != '/'
    ensures var cs := Components(a); Components(a + [c]) == cs[..|cs| - 1] + [cs[|cs| - 1] + [c]]
  {
    var p := a + [c];
    UptoAgree(p, a, |a|);
    assert p[|p| - 1] == c && p[|p| - 2] == a[|a| - 1];
  }

  /** A name behind a separator, or at the start, is one more component. */
  lemma {:induction false} NameAdds(a: string, w: string)
    requires w != "" && '/' !in w && (a == "" || a[|a| - 1] == '/')
    ensures Components(a + w) == Components(a) + [w]
    decreases |w|
  {
    var front, c := w[..|w| - 1], w[|w| - 1];
    assert w == front + [c];
    if front == "" {
      assert a + w == a + [c];
      FirstLetter(a, c);
    } else {
      NameAdds(a, front);
      assert a + w == (a + front) + [c];
      assert (a + front)[|a + front| - 1] == front[|front| - 1];
      NextLetter(a + front, c);
    }
  }

  lemma {:induction false} JoinedComponents(cs: Key, gaps: seq<nat>)
    requires |gaps| == |cs| && Separating(gaps) && Names(cs)
    ensures Components(Joined(cs, gaps)) == cs
    ensures cs != [] ==> Joined(cs, gaps) != "" && Joined(cs, gaps)[|Joined(cs, gaps)| - 1] != '/'
    decreases |cs|
  {
    if cs != [] {
      var n := |cs| - 1;
      var a := Joined(cs[..n], gaps[..n]);
      JoinedComponents(cs[..n], gaps[..n]);
      SlashesAdd(a, gaps[n]);
      NameAdds(a + Slashes(gaps[n]), cs[n]);
      assert cs[..n] + [cs[n]] == cs;
    }
  }

  /** Conversely every path is its components behind runs of separators. */
  lemma {:induction false} Parts(path: string, n: nat) returns (gaps: seq<nat>, tail: nat)
    requires n <= |path|
    ensures Names(Upto(path, n)) && SpelledBy(path[..n], Upto(path, n), gaps, tail)
    ensures tail > 0 <==> n > 0 && path[n - 1] == '/'
    decreases n
  {
    if n == 0 {
      gaps, tail := [], 0;
    } else {
      var g, t := Parts(path, n - 1);
      assert path[..n] == path[..n - 1] + [path[n - 1]];
      if path[n - 1] == '/' {
        gaps, tail := g, t + 1;
        assert Slashes(t) + "/" == Slashes(t + 1);
      } else if n == 1 || path[n - 2] == '/' {
        gaps, tail := g + [t], 0;
        NewName(path, n, g, t);
      } else {
        gaps, tail := g, 0;
        LongerName(path, n, g);
      }
    }
  }

  lemma NewName(path: string, n: nat, g: seq<nat>, t: nat)
    requires 0 < n <= |path| && path[n - 1] != '/' && (n == 1 || path[n - 2] == '/')
    requires Names(Upto(path, n - 1)) && SpelledBy(path[..n - 1], Upto(path, n - 1), g, t)
    requires t > 0 <==> n > 1
    ensures Names(Upto(path, n)) && SpelledBy(path[..n], Upto(path, n), g + [t], 0)
  {
    var cs, c := Upto(path, n - 1), [path[n - 1]];
    assert (cs + [c])[..|cs|] == cs && (g + [t])[..|cs|] == g;
    assert path[..n] == path[..n - 1] + c;
    assert Joined(cs + [c], g + [t]) == Joined(cs, g) + Slashes(t) + c;
  }

  lemma LongerName(path: string, n: nat, g: seq<nat>)
    requires 1 < n <= |path| && path[n - 1] != '/' && path[n - 2] != '/'
    requires Names(Upto(path, n - 1)) && SpelledBy(path[..n - 1], Upto(path, n - 1), g, 0)
    ensures Names(Upto(path, n)) && SpelledBy(path[..n], Upto(path, n), g, 0)
  {
    var cs, c := Upto(path, n - 1), [path[n - 1]];
    var m := |cs| - 1;
    var now := cs[..m] + [cs[m] + c];
    assert now[..m] == cs[..m] && Upto(path, n) == now;
    assert Joined(now, g) == Joined(cs, g) + c;
    assert path[..n] == path[..n - 1] + c;
  }

  /** The components of a path are the only names that spell it. */
  lemma {:induction false} SpellsIff(path: string, cs: Key)
    ensures Spells(path, cs) <==> cs == Components(path)
  {
    if Spells(path, cs) {
      var gaps: seq<nat>, tail: nat :| SpelledBy(path, cs, gaps, tail);
      JoinedComponents(cs, gaps);
      SlashesAdd(Joined(cs, gaps), tail);
    }
    if cs == Components(path) {
      var gaps, tail := Parts(path, |path|);
      assert path[..|path|] == path;
      assert SpelledBy(path, cs, gaps, tail);
    }
  }

  lemma ForExample()
    ensures Components("/opt//out/") == ["opt", "out"] && Components("/") == []
  {
    SlashesAdd("", 1);
    assert "" + Slashes(1) == "/";
    NameAdds("/", "opt");
    assert "/" + "opt" == "/opt";
    SlashesAdd("/opt", 2);
    assert "/opt" + Slashes(2) == "/opt//";
    NameAdds("/opt//", "out");
    assert "/opt//" + "out" == "/opt//out" && ["opt"] + ["out"] == ["opt", "out"];
    SlashesAdd("/opt//out", 1);
    assert "/opt//out" + Slashes(1) == "/opt//out/";
  }

  lemma SpelledOnce(path: string)
    ensures forall cs :: Spells(path, cs) <==> cs == Components(path)
  {
    forall cs
      ensures Spells(path, cs) <==> cs == Components(path)
    {
      SpellsIff(path, cs);
    }
  }

  /** Every entry lies in a directory, and the root is one. */
  ghost predicate ParentClosed(t: Tree) {
    && [] in t && t[[]] == Dir
    && forall k :: k in t && k != [] ==> k[..|k| - 1] in t && t[k[..|k| - 1]] == Dir
  }

  datatype Errno = Ok | EExist | ENoEnt | ENotDir | Denied

  /** What `mkdir` answers; `denied` holds the entries the kernel refuses to create
      (permissions, a full or read-only disk). */
  function MkdirAnswer(t: Tree, denied: set<Key>, k: Key): Errno {
    if k in t then EExist
    else if k == [] || k[..|k| - 1] !in t then ENoEnt
    else if t[k[..|k| - 1]] == File then ENotDir
    else if k in denied then Denied
    else Ok
  }

  /** Making the prefixes of cs from length i up, until one cannot be made. */
  function MakeFrom(t: Tree, denied: set<Key>, cs: Key, i: nat): (Tree, bool)
    decreases |cs| + 1 - i
  {
    if i > |cs| then (t, true)
    else
      match MkdirAnswer(t, denied, cs[..i])
      case Ok => MakeFrom(t[cs[..i] := Dir], denied, cs, i + 1)
      case EExist => MakeFrom(t, denied, cs, i + 1)
      case _ => (t, false)
  }

  // What making all prefixes achieves

  /** Only missing prefixes of cs are added, as directories, and nothing is changed; the
      tree stays parent-closed, whether or not everything could be made. */
  lemma {:induction false} MakeOnlyAddsPrefixes(t: Tree, denied: set<Key>, cs: Key, i: nat)
    requires ParentClosed(t)
    ensures var (t', ok) := MakeFrom(t, denied, cs, i);
            && ParentClosed(t')
            && (forall k :: k in t ==> k in t' && t'[k] == t[k])
            && (forall k :: k in t' && k !in t ==> k <= cs && t'[k] == Dir && k !in denied)
    decreases |cs| + 1 - i
  {
    if i <= |cs| {
      var k := cs[..i];
      var a := MkdirAnswer(t, denied, k);
      if a.Ok? {
        AddDir(t, k);
        MakeOnlyAddsPrefixes(t[k := Dir], denied, cs, i + 1);
      } else if a.EExist? {
        MakeOnlyAddsPrefixes(t, denied, cs, i + 1);
      }
    }
  }

  lemma AddDir(t: Tree, k: Key)
    requires ParentClosed(t) && k !in t && k != [] && k[..|k| - 1] in t && t[k[..|k| - 1]] == Dir
    ensures ParentClosed(t[k := Dir])
  {
    var t' := t[k := Dir];
    forall j | j in t' && j != []
      ensures j[..|j| - 1] in t' && t'[j[..|j| - 1]] == Dir
    {
      if j != k {
        assert j in t;
      }
    }
  }

  /** In a parent-closed tree every proper prefix of an entry is a directory. */
  lemma {:induction false} AncestorsAreDirs(t: Tree, k: Key, n: nat)
    requires ParentClosed(t) && k in t && n < |k|
    ensures k[..n] in t && t[k[..n]] == Dir
    decreases |k|
  {
    var up := k[..|k| - 1];
    if n < |up| {
      AncestorsAreDirs(t, up, n);
      assert up[..n] == k[..n];
    } else {
      assert up == k[..n];
    }
  }

  /** Nothing of length i - 1 up to the last but one is a file, and what is missing from
      length i up may be created. */
  ghost predicate Makeable(t: Tree, denied: set<Key>, cs: Key, i: nat) {
    && (forall j :: i - 1 <= j < |cs| && 0 <= j && cs[..j] in t ==> t[cs[..j]] == Dir)
    && (forall j :: i <= j <= |cs| && cs[..j] !in t ==> cs[..j] !in denied)
  }

  /** Success is exactly the absence of obstacles, and then the whole path exists. */
  lemma {:induction false} MakeSucceedsIff(t: Tree, denied: set<Key>, cs: Key, i: nat)
    requires ParentClosed(t) && 0 < i <= |cs| + 1 && cs[..i - 1] in t
    ensures MakeFrom(t, denied, cs, i).1 <==> Makeable(t, denied, cs, i)
    ensures MakeFrom(t, denied, cs, i).1 ==> cs in MakeFrom(t, denied, cs, i).0
    decreases |cs| + 1 - i
  {
    if i > |cs| {
      assert cs[..i - 1] == cs;
    } else {
      var k := cs[..i];
      assert k[..i - 1] == cs[..i - 1];
      match MkdirAnswer(t, denied, k)
      case Ok =>
        var t' := t[k := Dir];
        AddDir(t, k);
        MakeSucceedsIff(t', denied, cs, i + 1);
        OneMoreLevel(t, denied, cs, i);
      case EExist =>
        AncestorsAreDirs(t, k, i - 1);
        MakeSucceedsIff(t, denied, cs, i + 1);
        assert Makeable(t, denied, cs, i + 1) <==> Makeable(t, denied, cs, i);
      case _ =>
        assert cs[..i - 1] in t;
    }
  }

  lemma OneMoreLevel(t: Tree, denied: set<Key>, cs: Key, i: nat)
    requires 0 < i <= |cs| && cs[..i] !in t && cs[..i] !in denied && cs[..i - 1] in t && t[cs[..i - 1]] == Dir
    ensures Makeable(t[cs[..i] := Dir], denied, cs, i + 1) <==> Makeable(t, denied, cs, i)
  {
    var t' := t[cs[..i] := Dir];
    forall j | i < j <= |cs|
      ensures cs[..j] in t' <==> cs[..j] in t
    {
      assert |cs[..j]| == j != |cs[..i]|;
    }
    if Makeable(t', denied, cs, i + 1) {
      forall j | i - 1 <= j < |cs| && cs[..j] in t
        ensures t[cs[..j]] == Dir
      {
        if j > i {
          assert cs[..j] in t' && t'[cs[..j]] == t[cs[..j]];
        }
      }
    }
  }

  /** Making a path, whole: on success the path exists and every proper ancestor is a
      directory; it succeeds exactly when no proper ancestor is a file and nothing missing
      is refused. */
  lemma {:induction false} MakeMeaning(t: Tree, denied: set<Key>, cs: Key)
    requires ParentClosed(t)
    ensures var (t', ok) := MakeFrom(t, denied, cs, 1);
            && (ok <==> Makeable(t, denied, cs, 1))
            && (ok ==> cs in t' && forall n :: 0 <= n < |cs| ==> cs[..n] in t' && t'[cs[..n]] == Dir)
  {
    assert cs[..0] == [];
    MakeSucceedsIff(t, denied, cs, 1);
    MakeOnlyAddsPrefixes(t, denied, cs, 1);
    var (t', ok) := MakeFrom(t, denied, cs, 1);
    if ok {
      forall n | 0 <= n < |cs|
        ensures cs[..n] in t' && t'[cs[..n]] == Dir
      {
        AncestorsAreDirs(t', cs, n);
      }
    }
  }

  // Components of growing prefixes

  /** Up to a separator the components are final. */
  lemma {:induction false} SeparatorEndsComponents(path: string, p: nat, q: nat)
    requires p < q <= |path| && path[p] == '/'
    ensures Upto(path, p) <= Upto(path, q)
    ensures path[q - 1] != '/' ==> |Upto(path, q)| > |Upto(path, p)|
    decreases q
  {
    if q > p + 1 {
      SeparatorEndsComponents(path, p, q - 1);
    }
  }

  /** Before position p, `done` components are complete; one more may have begun. */
  predicate AtLevel(path: string, p: nat, done: nat)
    requires 0 < p <= |path|
  {
    |Upto(path, p)| == done + (if path[p - 1] != '/' then 1 else 0)
  }

  lemma LevelNext(path: string, p: nat, done: nat)
    requires 0 < p < |path| && AtLevel(path, p, done)
    ensures path[p] != '/' ==> AtLevel(path, p + 1, done)
    ensures path[p] == '/' ==> AtLevel(path, p + 1, |Upto(path, p)|)
    ensures done <= |Upto(path, p)| <= done + 1
  {
  }

  lemma {:induction false} TrailingSeparators(path: string, n: nat, m: nat)
    requires n <= m <= |path| && forall j :: n <= j < m ==> path[j] == '/'
    ensures Upto(path, n) == Upto(path, m)
    decreases m - n
  {
    if n < m {
      TrailingSeparators(path, n + 1, m);
    }
  }

  // The file system

  class FileTree {
    var nodes: Tree
    const denied: set<Key>

    constructor (nodes: Tree, denied: set<Key>)
      ensures this.nodes == nodes && this.denied == denied
    {
      this.nodes := nodes;
      this.denied := denied;
    }

    method Mkdir(path: CString) returns (e: Errno)
      modifies this
      ensures e == MkdirAnswer(old(nodes), denied, Components(path))
      ensures nodes == if e.Ok? then old(nodes)[Components(path) := Dir] else old(nodes)
    {
      e := MkdirAnswer(nodes, denied, Components(path));
      if e.Ok? {
        nodes := nodes[Components(path) := Dir];
      }
    }

    /** `mkdir` on the text now in the buffer. */
    method MkdirBuffer(tmp: array<char>, ghost text: CString) returns (e: Errno)
      requires Holds(tmp[..], text)
      modifies this
      ensures e == MkdirAnswer(old(nodes), denied, Components(text))
      ensures nodes == Grown(old(nodes), e, Components(text))
    {
      ReadHolds(tmp[..], text);
      e := Mkdir(Read(tmp[..]));
    }

    /** `snccliprecon_mkdir_all`. The caller must not pass the empty path. */
    method MkdirAll(path: CString) returns (ok: bool)
      requires path != "" && ParentClosed(nodes)
      modifies this
      ensures |path| >= PATH_MAX ==> !ok && nodes == old(nodes)
      ensures |path| < PATH_MAX ==> (nodes, ok) == MakeFrom(old(nodes), denied, Components(path), 1)
      ensures forall cs :: Spells(path, cs) && |path| < 4096 ==> (nodes, ok) == MakeFrom(old(nodes), denied, cs, 1)
    {
      SpelledOnce(path);
      var tmp := new char[PATH_MAX];
      var written := Snprintf(tmp, path);
      if written >= PATH_MAX {
        return false;
      }
      var len := |path|;
      while len > 1 && tmp[len - 1] == '/'
        invariant 0 < len <= |path| && nodes == old(nodes)
        invariant Holds(tmp[..], path[..len])
        invariant forall j :: len <= j < |path| ==> path[j] == '/'
        modifies tmp
      {
        assert tmp[len - 1] == tmp[..][..len][len - 1];
        len := len - 1;
        ghost var before := tmp[..];
        tmp[len] := '\0';
        assert tmp[..][..len] == before[..len + 1][..len];
      }
      TrailingSeparators(path, len, |path|);
      ComponentsOfPrefix(path, len);
      ok := WalkBuffer(tmp, path[..len]);
    }

    /** One pass of the loop at a separator: terminate the text there, `mkdir`, restore. */
    method MkdirPrefix(tmp: array<char>, ghost s: CString, p: nat) returns (e: Errno)
      requires 0 < p < |s| && Holds(tmp[..], s) && tmp[p] == '/' && s[p] == '/'
      modifies this, tmp
      ensures tmp[..] == old(tmp[..])
      ensures e == MkdirAnswer(old(nodes), denied, Upto(s, p))
      ensures nodes == Grown(old(nodes), e, Upto(s, p))
    {
      ghost var buf := tmp[..];
      tmp[p] := '\0';
      assert tmp[..][..p] == buf[..|s|][..p] == s[..p];
      e := MkdirBuffer(tmp, s[..p]);
      tmp[p] := '/';
      assert tmp[..] == buf;
      ComponentsOfPrefix(s, p);
    }

    /** The same pass, with what it does to the remaining work. */
    method PassSeparator(tmp: array<char>, ghost s: CString, p: nat, ghost start: Tree, ghost done: nat)
      returns (ok: bool)
      requires 0 < p < |s| && Holds(tmp[..], s) && tmp[p] == '/' && s[p] == '/'
      requires Made(start, nodes, denied, Components(s), done) && AtLevel(s, p, done)
      modifies this, tmp
      ensures tmp[..] == old(tmp[..])
      ensures ok ==> Made(start, nodes, denied, Components(s), |Upto(s, p)|)
      ensures !ok ==> MakeFrom(start, denied, Components(s), 1) == (nodes, false)
    {
      ghost var cs := Components(s);
      LevelNext(s, p, done);
      SeparatorEndsComponents(s, p, |s|);
      assert cs[..|Upto(s, p)|] == Upto(s, p);
      MadeStep(start, nodes, denied, cs, done, |Upto(s, p)|);
      var e := MkdirPrefix(tmp, s, p);
      ok := e == Ok || e == EExist;
    }

    /** The loop over the separators; the buffer is as before after every iteration. */
    method WalkSeparators(tmp: array<char>, s: CString) returns (ok: bool, ghost done: nat)
      requires s != "" && Holds(tmp[..], s) && ParentClosed(nodes)
      modifies this, tmp
      ensures tmp[..] == old(tmp[..])
      ensures ok ==> Made(old(nodes), nodes, denied, Components(s), done) && |Components(s)| <= done + 1
      ensures !ok ==> MakeFrom(old(nodes), denied, Components(s), 1) == (nodes, false)
    {
      ghost var start, cs, buf := nodes, Components(s), tmp[..];
      done := 0;
      ok := true;
      var p: nat := 1;
      HoldsAt(buf, s, 1);
      while tmp[p] != '\0'
        invariant 1 <= p <= |s| && tmp[..] == buf && buf[p] == At(s, p)
        invariant ok && Made(start, nodes, denied, cs, done)
        invariant AtLevel(s, p, done)
        decreases |s| - p
      {
        HoldsAt(buf, s, p + 1);
        assert buf[p] == tmp[p] == s[p];
        LevelNext(s, p, done);
        if tmp[p] != '/' {
          p := p + 1;
          continue;
        }
        ok := PassSeparator(tmp, s, p, start, done);
        if !ok {
          return;
        }
        done := |Upto(s, p)|;
        p := p + 1;
      }
      assert p == |s|;
    }

    /** The walk and the final `mkdir` of the whole path. */
    method WalkBuffer(tmp: array<char>, s: CString) returns (ok: bool)
      requires s != "" && Holds(tmp[..], s) && ParentClosed(nodes)
      modifies this, tmp
      ensures tmp[..] == old(tmp[..])
      ensures (nodes, ok) == MakeFrom(old(nodes), denied, Components(s), 1)
    {
      ghost var start, cs := nodes, Components(s);
      ghost var done;
      ok, done := WalkSeparators(tmp, s);
      if !ok {
        return;
      }
      assert cs[..|cs|] == cs;
      MadeStep(start, nodes, denied, cs, done, |cs|);
      var e := MkdirBuffer(tmp, s);
      ok := e == Ok || e == EExist;
      if ok {
        MadeAll(start, nodes, denied, cs);
      }
    }

    /** `snccliprecon_ensure_dir`; `modeOk` is whether the mode could be fixed or the
        error may be ignored. */
    method EnsureDir(path: CString, modeOk: bool) returns (ok: bool)
      requires path != "" && ParentClosed(nodes)
      modifies this
      ensures ParentClosed(nodes)
      ensures forall k :: k in old(nodes) ==> k in nodes && nodes[k] == old(nodes)[k]
      ensures forall k :: k in nodes && k !in old(nodes) ==> k <= Components(path) && nodes[k] == Dir
      ensures ok ==> Components(path) in nodes && nodes[Components(path)] == Dir
      ensures ok <==> modeOk && EnsurableDir(old(nodes), denied, Components(path), |path|)
      ensures forall cs :: Spells(path, cs) ==>
                && (ok <==> modeOk && EnsurableDir(old(nodes), denied, cs, |path|))
                && (ok ==> cs in nodes && nodes[cs] == Dir)
    {
      SpelledOnce(path);
      var cs := Components(path);
      StatMissing(nodes, denied, cs);
      if cs !in nodes {
        if ThroughFile(nodes, cs) {
          return false;
        }
        MakeOnlyAddsPrefixes(nodes, denied, cs, 1);
        MakeSucceedsIff(nodes, denied, cs, 1);
        ok := MkdirAll(path);
        if !ok {
          return false;
        }
      } else if nodes[cs] != Dir {
        return false;
      }
      ok := modeOk;
    }
  }

  /** The prefixes up to length `done` are in place and the rest of the work is the same. */
  ghost predicate Made(start: Tree, now: Tree, denied: set<Key>, cs: Key, done: nat) {
    && done <= |cs| && ParentClosed(now) && cs[..done] in now
    && MakeFrom(start, denied, cs, 1) == MakeFrom(now, denied, cs, done + 1)
  }

  lemma Unroll(t: Tree, denied: set<Key>, cs: Key, i: nat)
    requires i <= |cs|
    ensures var a := MkdirAnswer(t, denied, cs[..i]);
            MakeFrom(t, denied, cs, i) ==
              (if a.Ok? then MakeFrom(t[cs[..i] := Dir], denied, cs, i + 1)
               else if a.EExist? then MakeFrom(t, denied, cs, i + 1) else (t, false))
  {
  }

  /** The tree after an answer. */
  function Grown(t: Tree, a: Errno, k: Key): Tree {
    if a.Ok? then t[k := Dir] else t
  }

  /** One `mkdir` at the level just finished, or at one already made. */
  lemma {:induction false} MadeStep(start: Tree, now: Tree, denied: set<Key>, cs: Key, done: nat, level: nat)
    requires Made(start, now, denied, cs, done) && level <= |cs| && done <= level <= done + 1
    ensures var a := MkdirAnswer(now, denied, cs[..level]);
            && (a.Ok? || a.EExist? ==> Made(start, Grown(now, a, cs[..level]), denied, cs, level))
            && (!a.Ok? && !a.EExist? ==> MakeFrom(start, denied, cs, 1) == (now, false))
  {
    var k := cs[..level];
    if level == done + 1 {
      Unroll(now, denied, cs, level);
      if MkdirAnswer(now, denied, k).Ok? {
        AddDir(now, k);
      }
    }
  }

  lemma {:induction false} MadeAll(start: Tree, now: Tree, denied: set<Key>, cs: Key)
    requires Made(start, now, denied, cs, |cs|)
    ensures MakeFrom(start, denied, cs, 1) == (now, true)
  {
  }

  /** Path lookup fails with ENOTDIR rather than ENOENT. */
  predicate ThroughFile(t: Tree, cs: Key) {
    exists j :: 0 <= j < |cs| && cs[..j] in t && t[cs[..j]] == File
  }

  /** What `ensure_dir` needs: a directory already, or a path that can be made. */
  ghost predicate EnsurableDir(t: Tree, denied: set<Key>, cs: Key, length: nat) {
    if cs in t then t[cs] == Dir
    else
      && length < 4096
      && (forall j :: 0 <= j < |cs| && cs[..j] in t ==> t[cs[..j]] == Dir)
      && (forall j :: 0 < j <= |cs| && cs[..j] !in t ==> cs[..j] !in denied)
  }

  lemma StatMissing(t: Tree, denied: set<Key>, cs: Key)
    requires ParentClosed(t)
    ensures cs !in t && ThroughFile(t, cs) ==> !Makeable(t, denied, cs, 1)
    ensures cs[..0] in t
  {
    assert cs[..0] == [];
  }
}
