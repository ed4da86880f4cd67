/** The mount file's callbacks do overlap in the plugin itself: although the worker locks
    let one hook at a time set up and one clean up, orderly runs of hooks without a single
    error reach any number of callbacks at once, and with as few lock calls as the
    transient lock allows at all. */
module HookOverlap {
  import opened Wrappers
  import opened Hooks
  import opened HookSafety
  import opened HookResidue
  import F = Flock
  import Config

  function BusyAmong(m: map<Pid, Pc>): set<Pid> {
    set p | p in m && m[p].InCallback()
  }

  /** The hooks that are in a callback. */
  function Busy(s: State): set<Pid> {
    BusyAmong(s.pc)
  }

  predicate Below(m: map<Pid, Pc>, n: nat) {
    forall p :: p in m ==> p < n
  }

  /** Between rounds: both worker locks free, the lock name free to be taken, and k hooks
      still in their callbacks after 2k lock calls by processes numbered below 4k. */
  ghost predicate Tower(s: State, k: nat) {
    && !s.initLock && !s.exitLock && Room(s)
    && Below(s.pc, 4 * k)
    && |Busy(s)| == k && |s.lock.pc| == 2 * k
  }

  /** Init hook p wins and stops right before its lock call. */
  lemma InitToLock(u: Setup, e: Config.Env, r: iset<State>, s: State, p: Pid) returns (s': State)
    requires u.rewrite(e).Some? && Mounts(u, u.rewrite(e).value) && Closed(u, r) && s in r
    requires p !in s.pc && p % 2 == 0 && !s.initLock
    ensures s' in r && s'.initLock && s'.exitLock == s.exitLock && s'.lock == s.lock
    ensures s'.pc == s.pc[p := Init(InitLock)]
  {
    var s1 := BeginInitHook(u, e, r, s, p);
    var s2 := WinInit(u, r, s1, p);
    assert EnvOf(s2, p) == u.rewrite(e).value;
    s' := EnsureAll(u, r, s2, p);
    assert s'.pc == s.pc[p := Init(InitLock)];
  }

  /** The task of exit hook q has an init hook, which loses to p. */
  lemma SecondTask(u: Setup, e: Config.Env, r: iset<State>, s: State, q: Pid) returns (s': State)
    requires u.rewrite(e).Some? && u.enroot && Closed(u, r) && s in r
    requires q % 2 == 1 && q !in s.pc && q - 1 !in s.pc && s.initLock && !s.exitLock
    ensures s' in r && s'.initLock && s'.exitLock && s'.lock == s.lock
    ensures s'.pc == s.pc[q - 1 := Init(InitDone(AlreadyDone))][q := Exit(ExitLock)]
  {
    var s1 := LosingInit(u, e, r, s, q - 1);
    assert InTurn(s1, q, BeginExit);
    var s2 := TryExit(u, r, s1, q);
    s' := ReachEnroot(u, r, s2, q);
    assert s'.pc == s.pc[q - 1 := Init(InitDone(AlreadyDone))][q := Exit(ExitLock)];
  }

  /** q takes the lock, removes the mount file and unlocks, but has yet to unlink the name. */
  lemma RemoveAndUnlock(u: Setup, r: iset<State>, s: State, q: Pid) returns (s': State, i: nat)
    requires Closed(u, r) && s in r && q in s.pc && s.pc[q] == Exit(ExitLock) && q !in s.lock.pc && Room(s)
    ensures s' in r && Room(s') && i !in s'.lock.holder
    ensures s'.lock.holder == s.lock.holder && s'.lock.pc == s.lock.pc[q := F.Unlocked(i)]
    ensures s' == s.(lock := s'.lock, mount := None, pc := s.pc[q := Exit(ExitUnlock(Succeeded))])
  {
    var s1;
    s1, i := AcquireOn(u, r, s, q);
    var s2 := UnlinkMountOn(u, r, s1, q);
    s' := UnlockOn(u, r, s2, q, i);
    assert s'.lock.holder == s.lock.holder;
    assert s'.lock.pc == s.lock.pc[q := F.Unlocked(i)];
    assert s'.pc == s.pc[q := Exit(ExitUnlock(Succeeded))];
  }

  /** p opens the same file and is in its callback when q unlinks the name and is done. */
  lemma SlipIn(u: Setup, r: iset<State>, s: State, p: Pid, q: Pid, i: nat) returns (s': State)
    requires Closed(u, r) && s in r && Room(s) && p != q
    requires p in s.pc && s.pc[p] == Init(InitLock) && p !in s.lock.pc
    requires q in s.pc && s.pc[q] == Exit(ExitUnlock(Succeeded)) && q in s.lock.pc && s.lock.pc[q] == F.Unlocked(i)
    requires i !in s.lock.holder
    ensures s' in r && Room(s') && !s'.initLock && !s'.exitLock
    ensures s'.pc == s.pc[p := Mount(MountStat)][q := Exit(ExitDone(Succeeded))]
    ensures s'.lock.pc.Keys == s.lock.pc.Keys + {p}
  {
    var s1, j := AcquireOn(u, r, s, p);
    var s2 := LeaveOn(u, r, s1, q, i);
    assert s2.lock.pc.Keys == s.lock.pc.Keys + {p};
    var s3 := RemoveTwo(u, r, s2, q);
    s' := LastRemoval(u, r, s3, q);
    assert s'.pc == s.pc[p := Mount(MountStat)][q := Exit(ExitDone(Succeeded))];
  }

  /** Where the hooks are after a round: p in its callback, the second task returned. */
  function Seated(m: map<Pid, Pc>, p: Pid): map<Pid, Pc> {
    m[p := Mount(MountStat)][p + 2 := Init(InitDone(AlreadyDone))][p + 3 := Exit(ExitDone(Succeeded))]
  }

  lemma RoundSteps(u: Setup, e: Config.Env, r: iset<State>, s: State, p: Pid) returns (s': State)
    requires u.rewrite(e).Some? && Mounts(u, u.rewrite(e).value) && Closed(u, r) && s in r
    requires p % 2 == 0 && Below(s.pc, p) && Room(s) && !s.initLock && !s.exitLock
    ensures s' in r && Room(s') && !s'.initLock && !s'.exitLock
    ensures s'.pc == Seated(s.pc, p)
    ensures s'.lock.pc.Keys == s.lock.pc.Keys + {p, p + 3}
  {
    var s1 := InitToLock(u, e, r, s, p);
    var s2 := SecondTask(u, e, r, s1, p + 3);
    var s3, i := RemoveAndUnlock(u, r, s2, p + 3);
    s' := SlipIn(u, r, s3, p, p + 3, i);
    assert s'.pc == Seated(s.pc, p);
  }

  lemma BusyPut(m: map<Pid, Pc>, p: Pid, c: Pc)
    requires p !in m
    ensures BusyAmong(m[p := c]) == BusyAmong(m) + if c.InCallback() then {p} else {}
  {
  }

  lemma BusyGrows(m: map<Pid, Pc>, p: Pid)
    requires Below(m, p)
    ensures |BusyAmong(Seated(m, p))| == |BusyAmong(m)| + 1
  {
    var m1 := m[p := Mount(MountStat)];
    var m2 := m1[p + 2 := Init(InitDone(AlreadyDone))];
    BusyPut(m, p, Mount(MountStat));
    BusyPut(m1, p + 2, Init(InitDone(AlreadyDone)));
    BusyPut(m2, p + 3, Exit(ExitDone(Succeeded)));
  }

  lemma CallsGrow(m: map<Pid, F.Pc>, m': map<Pid, F.Pc>, p: Pid, q: Pid)
    requires p !in m && q !in m && p != q && m'.Keys == m.Keys + {p, q}
    ensures |m'| == |m| + 2
  {
    assert m'.Keys == m.Keys + {p} + {q};
  }

  lemma TowerGrows(s: State, s': State, k: nat, p: Pid)
    requires Tower(s, k) && p == 4 * k && Room(s') && !s'.initLock && !s'.exitLock
    requires s'.pc == Seated(s.pc, p) && s'.lock.pc.Keys == s.lock.pc.Keys + {p, p + 3}
    ensures Tower(s', k + 1)
  {
    BusyGrows(s.pc, p);
    SeatedBelow(s.pc, p);
    FreshCalls(s, p);
    CallsGrow(s.lock.pc, s'.lock.pc, p, p + 3);
  }

  lemma FreshCalls(s: State, p: Pid)
    requires Room(s) && Below(s.pc, p)
    ensures p !in s.lock.pc && p + 3 !in s.lock.pc
  {
  }

  lemma SeatedBelow(m: map<Pid, Pc>, p: Pid)
    requires Below(m, p)
    ensures Below(Seated(m, p), p + 4)
  {
  }

  lemma FirstOfRound(k: nat) returns (p: Pid)
    ensures p == 4 * k && p % 2 == 0
  {
    p := 4 * k;
    assert p == 2 * (2 * k);
  }

  /** One round of two tasks puts one more hook into its callback and leaves both worker
      locks free: two lock calls for one more callback. */
  lemma Round(u: Setup, e: Config.Env, r: iset<State>, s: State, k: nat) returns (s': State)
    requires u.rewrite(e).Some? && Mounts(u, u.rewrite(e).value) && Closed(u, r) && s in r && Tower(s, k)
    ensures s' in r && Tower(s', k + 1)
  {
    var p := FirstOfRound(k);
    s' := RoundSteps(u, e, r, s, p);
    TowerGrows(s, s', k, p);
  }

  lemma {:induction false} BuildTower(u: Setup, e: Config.Env, r: iset<State>, s0: State, k: nat) returns (s: State)
    requires u.rewrite(e).Some? && Mounts(u, u.rewrite(e).value) && Closed(u, r) && s0 in r && Tower(s0, 0)
    ensures s in r && Tower(s, k)
    decreases k
  {
    if k == 0 {
      s := s0;
    } else {
      var b := BuildTower(u, e, r, s0, k - 1);
      s := Round(u, e, r, b, k - 1);
    }
  }

  /** The last hook only has to take the lock. */
  lemma LastInit(u: Setup, e: Config.Env, r: iset<State>, s: State, k: nat) returns (s': State)
    requires u.rewrite(e).Some? && Mounts(u, u.rewrite(e).value) && Closed(u, r) && s in r && Tower(s, k)
    ensures s' in r && |Busy(s')| == k + 1 && |s'.lock.pc| == 2 * k + 1
  {
    var p := FirstOfRound(k);
    var s1 := InitToLock(u, e, r, s, p);
    var i;
    s', i := AcquireOn(u, r, s1, p);
    assert s'.pc == s.pc[p := Mount(MountStat)];
    assert |Busy(s')| == k + 1 by { BusyPut(s.pc, p, Mount(MountStat)); }
    assert |s'.lock.pc| == 2 * k + 1 by { assert s'.lock.pc.Keys == s.lock.pc.Keys + {p}; }
  }

  /** For every c some orderly, error-free run of the plugin's hooks has c hooks in their
      callbacks at once, after no more than the 2c - 1 lock calls that `with_lock` needs
      for that. Neither the worker locks nor the order of a task's hooks prevent it. */
  lemma OverlapIsReached(u: Setup, e: Config.Env, s0: State, c: nat) returns (s: State)
    requires u.rewrite(e).Some? && Mounts(u, u.rewrite(e).value)
    requires Start(s0) && !s0.initLock && !s0.exitLock && c > 0
    ensures Leads(u, s0, s) && |Busy(s)| == c && |s.lock.pc| == 2 * c - 1
  {
    var r := Reached(u, s0);
    assert Busy(s0) == {};
    var b := BuildTower(u, e, r, s0, c - 1);
    s := LastInit(u, e, r, b, c - 1);
  }

  /** Exactly how many lock calls the hooks can make before their callbacks overlap: two. */
  lemma HooksExcludeIff(u: Setup, e: Config.Env, s0: State, n: nat)
    requires u.rewrite(e).Some? && Mounts(u, u.rewrite(e).value)
    requires Start(s0) && !s0.initLock && !s0.exitLock
    ensures (forall s :: Leads(u, s0, s) && |s.lock.pc| <= n ==> |Busy(s)| <= 1) <==> n <= 2
  {
    if n <= 2 {
      forall s | Leads(u, s0, s) && |s.lock.pc| <= n
        ensures |Busy(s)| <= 1
      {
        LeadsIff(u, s0, s);
        assert HasRun(u, s0, s);
        var t :| Valid(u, s0, t) && Orderly(u, s0, t) && After(u, s0, t) == s;
        MountCallbacks(u, s0, t);
      }
    } else {
      var s := OverlapIsReached(u, e, s0, 2);
      assert Leads(u, s0, s) && |s.lock.pc| <= n;
    }
  }
}
