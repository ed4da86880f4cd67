/** Runs without a single error that are not what the hooks' documentation suggests: with
    every task's exit after its own init, an init hook that starts while another task is
    cleaning up leaves its files; the cleanup runs twice; a hook that loses the init lock
    returns before anything is set up. */
module HookResidue {
  import opened Wrappers
  import opened Hooks
  import opened HookSafety
  import F = Flock
  import Config

  /** Task k runs its init hook as process 2k and its exit hook as process 2k + 1, which
      begins only when the init hook has returned. */
  predicate InTurn(s: State, p: Pid, a: Action) {
    && (a.BeginInit? ==> p % 2 == 0)
    && (a.BeginExit? ==> p % 2 == 1 && p - 1 in s.pc && s.pc[p - 1].Init? && s.pc[p - 1].i.InitDone?)
  }

  /** No step fails and no exit hook begins before its own task's init hook has returned. */
  predicate Orderly(u: Setup, s: State, t: seq<Event>)
    requires Valid(u, s, t)
    decreases |t|
  {
    t == [] || (!t[0].a.IsError() && InTurn(s, t[0].p, t[0].a) && Orderly(u, Do(u, s, t[0].p, t[0].a), t[1..]))
  }

  /** A set of states closed under orderly steps. */
  ghost predicate Closed(u: Setup, r: iset<State>) {
    forall s, p, a :: s in r && Enabled(u, s, p, a) && !a.IsError() && InTurn(s, p, a) ==> Do(u, s, p, a) in r
  }

  /** An orderly run leads from s to s': s' is in every closed set that s is in. */
  ghost predicate Leads(u: Setup, s: State, s': State) {
    forall r: iset<State> :: s in r && Closed(u, r) ==> s' in r
  }

  lemma {:induction false} OneEvent(u: Setup, s: State, p: Pid, a: Action)
    requires Enabled(u, s, p, a)
    ensures Valid(u, s, [Event(p, a)]) && After(u, s, [Event(p, a)]) == Do(u, s, p, a)
  {
    var t := [Event(p, a)];
    assert t[1..] == [];
    assert Valid(u, Do(u, s, p, a), t[1..]);
  }

  lemma {:induction false} OrderlyOn(u: Setup, s: State, t: seq<Event>, p: Pid, a: Action)
    requires Valid(u, s, t) && Orderly(u, s, t)
    requires Enabled(u, After(u, s, t), p, a) && !a.IsError() && InTurn(After(u, s, t), p, a)
    ensures Valid(u, s, t + [Event(p, a)]) && Orderly(u, s, t + [Event(p, a)])
    ensures After(u, s, t + [Event(p, a)]) == Do(u, After(u, s, t), p, a)
    decreases |t|
  {
    var e := [Event(p, a)];
    if t == [] {
      assert t + e == e && e[1..] == [];
      OneEvent(u, s, p, a);
    } else {
      OrderlyOn(u, Do(u, s, t[0].p, t[0].a), t[1..], p, a);
      assert (t + e)[0] == t[0] && (t + e)[1..] == t[1..] + e;
    }
  }

  ghost predicate HasRun(u: Setup, s: State, s': State) {
    exists t :: Valid(u, s, t) && Orderly(u, s, t) && After(u, s, t) == s'
  }

  lemma RunOn(u: Setup, s: State, x: State, p: Pid, a: Action)
    requires HasRun(u, s, x) && Enabled(u, x, p, a) && !a.IsError() && InTurn(x, p, a)
    ensures HasRun(u, s, Do(u, x, p, a))
  {
    var t :| Valid(u, s, t) && Orderly(u, s, t) && After(u, s, t) == x;
    OrderlyOn(u, s, t, p, a);
  }

  /** That is what it says: there is such a run. */
  lemma LeadsIff(u: Setup, s: State, s': State)
    ensures Leads(u, s, s') <==> HasRun(u, s, s')
  {
    if Leads(u, s, s') {
      RunFrom(u, s, s');
    }
    if HasRun(u, s, s') {
      var t :| Valid(u, s, t) && Orderly(u, s, t) && After(u, s, t) == s';
      forall r: iset<State> | s in r && Closed(u, r)
        ensures s' in r
      {
        RunStays(u, r, s, t);
      }
    }
  }

  lemma RunFrom(u: Setup, s: State, s': State)
    requires Leads(u, s, s')
    ensures HasRun(u, s, s')
  {
    var r := iset x | HasRun(u, s, x);
    assert s in r by {
      assert Valid(u, s, []) && Orderly(u, s, []) && After(u, s, []) == s;
    }
    forall x, p, a | x in r && Enabled(u, x, p, a) && !a.IsError() && InTurn(x, p, a)
      ensures Do(u, x, p, a) in r
    {
      RunOn(u, s, x, p, a);
    }
    assert Closed(u, r);
  }

  lemma {:induction false} RunStays(u: Setup, r: iset<State>, s: State, t: seq<Event>)
    requires s in r && Closed(u, r) && Valid(u, s, t) && Orderly(u, s, t)
    ensures After(u, s, t) in r
    decreases |t|
  {
    if t != [] {
      RunStays(u, r, Do(u, s, t[0].p, t[0].a), t[1..]);
    }
  }

  ghost function Reached(u: Setup, s0: State): (r: iset<State>)
    ensures s0 in r && Closed(u, r)
    ensures forall s :: s in r ==> Leads(u, s0, s)
  {
    iset s | Leads(u, s0, s)
  }

  // Single steps inside a closed set

  lemma InitOn(u: Setup, r: iset<State>, s: State, p: Pid) returns (s': State)
    requires Closed(u, r) && s in r && p in s.pc && s.pc[p].Init? && OkEnabled(u, s, p)
    ensures s' in r && s' == InitOk(u, s, p)
  {
    s' := InitOk(u, s, p);
    assert s' == Do(u, s, p, Ok);
  }

  lemma MountOn(u: Setup, r: iset<State>, s: State, p: Pid) returns (s': State)
    requires Closed(u, r) && s in r && p in s.pc && s.pc[p].Mount? && OkEnabled(u, s, p)
    ensures s' in r && s' == MountOk(u, s, p)
  {
    s' := MountOk(u, s, p);
    assert s' == Do(u, s, p, Ok);
  }

  lemma ExitOn(u: Setup, r: iset<State>, s: State, p: Pid) returns (s': State)
    requires Closed(u, r) && s in r && p in s.pc && s.pc[p].Exit? && OkEnabled(u, s, p)
    ensures s' in r && s' == ExitOk(u, s, p)
  {
    s' := ExitOk(u, s, p);
    assert s' == Do(u, s, p, Ok);
  }

  lemma LockOn(u: Setup, r: iset<State>, s: State, p: Pid, a: F.Action) returns (s': State)
    requires Closed(u, r) && s in r && p in s.pc && LockEnabled(s, p, a) && !a.IsError()
    ensures s' in r && s' == LockStep(s, p, a)
  {
    s' := LockStep(s, p, a);
    assert s' == Do(u, s, p, Lock(a));
  }

  lemma BeginInitOn(u: Setup, r: iset<State>, s: State, p: Pid, e: Config.Env)
    requires Closed(u, r) && s in r && p !in s.pc && p % 2 == 0
    ensures At(s.(env := s.env[p := e]), p, Init(InitRender)) in r
  {
    assert Do(u, s, p, BeginInit(e)) in r;
  }

  lemma BeginExitOn(u: Setup, r: iset<State>, s: State, p: Pid)
    requires Closed(u, r) && s in r && p !in s.pc && InTurn(s, p, BeginExit)
    ensures At(s, p, Exit(ExitTmp)) in r
  {
    assert Do(u, s, p, BeginExit) in r;
  }

  // The mount file's lock

  /** Whoever opens the lock file next finds its inode free. */
  predicate Room(s: State) {
    && s.lock.pc.Keys <= s.pc.Keys
    && (forall i :: i in s.lock.holder ==> i < |s.lock.creator|)
    && (s.lock.name.Some? ==> s.lock.name.value < |s.lock.creator| && s.lock.name.value !in s.lock.holder)
  }

  /** p has inode i, which the name denotes. */
  predicate HoldsLock(s: State, p: Pid, i: nat) {
    && p in s.lock.pc && s.lock.pc[p] == F.Holding(i) && s.lock.name == Some(i)
    && i in s.lock.holder && s.lock.holder[i] == p
    && s.lock.pc.Keys <= s.pc.Keys
    && (forall j :: j in s.lock.holder ==> j < |s.lock.creator|)
  }

  lemma OpenOn(u: Setup, r: iset<State>, s: State, p: Pid) returns (s': State, i: nat)
    requires Closed(u, r) && s in r && p in s.pc && p !in s.lock.pc && Room(s)
    requires s.pc[p] == Init(InitLock) || s.pc[p] == Exit(ExitLock)
    ensures s' in r && s' == s.(lock := s'.lock) && Room(s') && s'.lock.name == Some(i)
    ensures s'.lock.holder == s.lock.holder && s'.lock.pc == s.lock.pc[p := F.Opened(i)]
  {
    s' := LockOn(u, r, s, p, F.OpenOk);
    i := s'.lock.name.value;
    assert s'.pc == s.pc;
  }

  lemma AcquireOn(u: Setup, r: iset<State>, s: State, p: Pid) returns (s': State, i: nat)
    requires Closed(u, r) && s in r && p in s.pc && p !in s.lock.pc && Room(s)
    requires s.pc[p] == Init(InitLock) || s.pc[p] == Exit(ExitLock)
    ensures s' in r && HoldsLock(s', p, i) && i !in s.lock.holder
    ensures s'.lock.holder == s.lock.holder[i := p] && s'.lock.pc == s.lock.pc[p := F.Holding(i)]
    ensures s' == s.(lock := s'.lock, pc := s.pc[p := if s.pc[p].Init? then Mount(MountStat) else Exit(ExitRemove)])
  {
    var s1;
    s1, i := OpenOn(u, r, s, p);
    var s2 := LockOn(u, r, s1, p, F.ModeOk);
    assert s2.pc == s.pc && s2.lock == s1.lock.(pc := s1.lock.pc[p := F.ModeChecked(i)]);
    s' := LockOn(u, r, s2, p, F.FlockOk);
    assert s'.lock.pc == s.lock.pc[p := F.Holding(i)];
  }

  /** The callback is over: p gives up the inode but has not unlinked the name. */
  lemma UnlockOn(u: Setup, r: iset<State>, s: State, p: Pid, i: nat) returns (s': State)
    requires Closed(u, r) && s in r && p in s.pc && HoldsLock(s, p, i)
    requires s.pc[p] == Init(InitUnlock(Succeeded)) || s.pc[p] == Exit(ExitUnlock(Succeeded))
    ensures s' in r && s' == s.(lock := s'.lock) && Room(s')
    ensures s'.lock == s.lock.(holder := s.lock.holder - {i}, pc := s.lock.pc[p := F.Unlocked(i)])
  {
    s' := LockOn(u, r, s, p, F.UnlockOk);
    assert s'.pc == s.pc;
  }

  /** Unlink and close; another call may hold the inode by now. */
  lemma LeaveOn(u: Setup, r: iset<State>, s: State, p: Pid, i: nat) returns (s': State)
    requires Closed(u, r) && s in r && p in s.pc && p in s.lock.pc && s.lock.pc[p] == F.Unlocked(i)
    requires i in s.lock.holder ==> s.lock.holder[i] != p
    requires s.pc[p] == Init(InitUnlock(Succeeded)) || s.pc[p] == Exit(ExitUnlock(Succeeded))
    ensures s' in r && s'.lock.name == None && s'.lock.holder == s.lock.holder && s'.lock.creator == s.lock.creator
    ensures s'.lock.pc == s.lock.pc[p := F.Returned(true)]
    ensures s' == s.(lock := s'.lock,
                     pc := s.pc[p := if s.pc[p].Init? then Init(InitDone(Succeeded)) else Exit(ExitUser)])
  {
    var s2 := LockOn(u, r, s, p, F.UnlinkOk);
    assert s2.pc == s.pc && s2.lock.pc == s.lock.pc[p := F.Unlinked(i, true)];
    s' := LockOn(u, r, s2, p, F.Close);
    assert s'.lock.pc == s.lock.pc[p := F.Returned(true)];
  }

  lemma ReleaseOn(u: Setup, r: iset<State>, s: State, p: Pid, i: nat) returns (s': State)
    requires Closed(u, r) && s in r && p in s.pc && HoldsLock(s, p, i)
    requires s.pc[p] == Init(InitUnlock(Succeeded)) || s.pc[p] == Exit(ExitUnlock(Succeeded))
    ensures s' in r && Room(s')
    ensures s' == s.(lock := s'.lock,
                     pc := s.pc[p := if s.pc[p].Init? then Init(InitDone(Succeeded)) else Exit(ExitUser)])
  {
    var s1 := UnlockOn(u, r, s, p, i);
    s' := LeaveOn(u, r, s1, p, i);
  }

  // Whole hooks

  /** What the hooks of a task that start from e mount. */
  predicate Mounts(u: Setup, e1: Config.Env) {
    u.enroot && u.dumpDir(e1) != ""
  }

  /** An init hook up to its try for the init lock. */
  lemma BeginInitHook(u: Setup, e: Config.Env, r: iset<State>, s: State, p: Pid) returns (s': State)
    requires u.rewrite(e).Some? && Closed(u, r) && s in r && p !in s.pc && p % 2 == 0
    ensures s' in r && EnvOf(s', p) == u.rewrite(e).value
    ensures s' == s.(pc := s.pc[p := Init(InitTmp)], env := s'.env)
    ensures forall q :: q in s.env && q != p ==> q in s'.env && s'.env[q] == s.env[q]
  {
    BeginInitOn(u, r, s, p, e);
    var s1 := At(s.(env := s.env[p := e]), p, Init(InitRender));
    s' := InitOn(u, r, s1, p);
    assert s'.pc == s.pc[p := Init(InitTmp)];
  }

  lemma WinInit(u: Setup, r: iset<State>, s: State, p: Pid) returns (s': State)
    requires Closed(u, r) && s in r && p in s.pc && s.pc[p] == Init(InitTmp) && !s.initLock
    ensures s' in r && s'.initLock
    ensures s' == s.(pc := s.pc[p := Init(InitSettle)], initLock := true, initWinners := s'.initWinners)
  {
    var s1 := InitOn(u, r, s, p);
    assert s1 == At(s, p, Init(InitCreate));
    s' := InitOn(u, r, s1, p);
    assert s'.pc == s.pc[p := Init(InitSettle)];
  }

  /** The lock settled and the dump directory ensured. */
  lemma EnsureAll(u: Setup, r: iset<State>, s: State, p: Pid) returns (s': State)
    requires Closed(u, r) && s in r && p in s.pc && s.pc[p] == Init(InitSettle)
    ensures s' in r
    ensures s' == s.(dirs := s'.dirs,
                     pc := s.pc[p := Init(if Mounts(u, EnvOf(s, p)) then InitLock else InitDone(Succeeded))])
  {
    var s1 := InitOn(u, r, s, p);
    assert s1 == At(s, p, Init(InitDump));
    var s2 := EnsureDump(u, r, s1, p);
    s' := InitOn(u, r, s2, p);
  }

  lemma EnsureDump(u: Setup, r: iset<State>, s: State, p: Pid) returns (s': State)
    requires Closed(u, r) && s in r && p in s.pc && s.pc[p] == Init(InitDump)
    ensures s' in r && s' == s.(dirs := s'.dirs, pc := s.pc[p := Init(InitEnroot)])
  {
    s' := InitOn(u, r, s, p);
    assert s' == At(s.(dirs := s'.dirs), p, Init(InitEnroot));
  }

  /** The callback: the file is there afterwards. */
  lemma MakeMount(u: Setup, r: iset<State>, s: State, p: Pid) returns (s': State)
    requires Closed(u, r) && s in r && p in s.pc && s.pc[p] == Mount(MountStat)
    ensures s' in r && s'.mount.Some?
    ensures s' == s.(mount := s'.mount, files := s'.files, pc := s.pc[p := Init(InitUnlock(Succeeded))])
  {
    var s1 := MountOn(u, r, s, p);
    if s.mount.Some? {
      assert s1 == At(s, p, Mount(MountMode));
      s' := MountOn(u, r, s1, p);
    } else {
      assert s1 == At(s, p, Mount(MountOpen));
      var s2 := WriteMount(u, r, s1, p);
      s' := MountOn(u, r, s2, p);
    }
  }

  lemma WriteMount(u: Setup, r: iset<State>, s: State, p: Pid) returns (s': State)
    requires Closed(u, r) && s in r && p in s.pc && s.pc[p] == Mount(MountOpen) && s.mount == None
    ensures s' in r && s'.mount.Some?
    ensures s' == s.(mount := s'.mount, files := s'.files, pc := s.pc[p := Mount(MountMode)])
  {
    var s1 := MountOn(u, r, s, p);
    assert s1.pc == s.pc[p := Mount(MountWrite(|s.files|, 0))] && |s1.files| == |s.files| + 1;
    s' := MountOn(u, r, s1, p);
    assert s'.pc == s.pc[p := Mount(MountMode)];
  }

  lemma SetUp(u: Setup, r: iset<State>, s: State, p: Pid) returns (s': State)
    requires Closed(u, r) && s in r && p in s.pc && s.pc[p] == Init(InitSettle) && Room(s) && p !in s.lock.pc
    ensures s' in r && Room(s')
    ensures s' == s.(dirs := s'.dirs, mount := s'.mount, files := s'.files, lock := s'.lock,
                     pc := s.pc[p := Init(InitDone(Succeeded))])
    ensures if Mounts(u, EnvOf(s, p)) then s'.mount.Some? else s'.mount == s.mount
  {
    s' := EnsureAll(u, r, s, p);
    if Mounts(u, EnvOf(s, p)) {
      var s1, i := AcquireOn(u, r, s', p);
      var s2 := MakeMount(u, r, s1, p);
      s' := ReleaseOn(u, r, s2, p, i);
      assert s'.pc == s.pc[p := Init(InitDone(Succeeded))];
    }
  }

  /** A whole init hook that finds no lock does the setup. */
  lemma WinningInit(u: Setup, e: Config.Env, r: iset<State>, s: State, p: Pid) returns (s': State)
    requires u.rewrite(e).Some? && Closed(u, r) && s in r && p !in s.pc && p % 2 == 0 && !s.initLock && Room(s)
    ensures s' in r && Room(s')
    ensures s'.pc == s.pc[p := Init(InitDone(Succeeded))] && s'.initLock && s'.exitLock == s.exitLock
    ensures s'.exitWinners == s.exitWinners
    ensures if Mounts(u, u.rewrite(e).value) then s'.mount.Some? else s'.mount == s.mount
  {
    var s1 := BeginInitHook(u, e, r, s, p);
    var s2 := WinInit(u, r, s1, p);
    assert EnvOf(s2, p) == u.rewrite(e).value && Room(s2);
    s' := SetUp(u, r, s2, p);
    assert s'.pc == s.pc[p := Init(InitDone(Succeeded))];
  }

  /** An exit hook up to its try for the exit lock, won or lost. */
  lemma TryExit(u: Setup, r: iset<State>, s: State, p: Pid) returns (s': State)
    requires Closed(u, r) && s in r && p !in s.pc && InTurn(s, p, BeginExit)
    ensures s' in r && s'.exitLock
    ensures s' == s.(exitLock := true, exitWinners := s'.exitWinners,
                     pc := s.pc[p := Exit(if s.exitLock then ExitDone(AlreadyDone) else ExitSettle)])
    ensures s'.exitWinners == if s.exitLock then s.exitWinners else s.exitWinners + {p}
  {
    BeginExitOn(u, r, s, p);
    var s2 := ExitOn(u, r, At(s, p, Exit(ExitTmp)), p);
    assert s2 == At(s, p, Exit(ExitCreate));
    s' := ExitOn(u, r, s2, p);
    assert s'.pc == s.pc[p := Exit(if s.exitLock then ExitDone(AlreadyDone) else ExitSettle)];
  }

  lemma ReachEnroot(u: Setup, r: iset<State>, s: State, p: Pid) returns (s': State)
    requires Closed(u, r) && s in r && p in s.pc && s.pc[p] == Exit(ExitSettle)
    ensures s' in r && s' == At(s, p, Exit(if u.enroot then ExitLock else ExitUser))
  {
    var s1 := ExitOn(u, r, s, p);
    assert s1 == At(s, p, Exit(ExitEnroot));
    s' := ExitOn(u, r, s1, p);
  }

  /** With Enroot, the mount file removed. */
  lemma RemoveMount(u: Setup, r: iset<State>, s: State, p: Pid) returns (s': State)
    requires Closed(u, r) && s in r && p in s.pc && s.pc[p] == Exit(ExitSettle) && Room(s) && p !in s.lock.pc
    ensures s' in r && Room(s') && s'.mount == if u.enroot then None else s.mount
    ensures s' == s.(mount := s'.mount, lock := s'.lock, pc := s.pc[p := Exit(ExitUser)])
  {
    s' := ReachEnroot(u, r, s, p);
    if u.enroot {
      var s2, i := AcquireOn(u, r, s', p);
      var s3 := UnlinkMountOn(u, r, s2, p);
      s' := ReleaseOn(u, r, s3, p, i);
      assert s'.pc == s.pc[p := Exit(ExitUser)];
    }
  }

  lemma UnlinkMountOn(u: Setup, r: iset<State>, s: State, p: Pid) returns (s': State)
    requires Closed(u, r) && s in r && p in s.pc && s.pc[p] == Exit(ExitRemove)
    ensures s' in r && s' == At(s.(mount := None), p, Exit(ExitUnlock(Succeeded)))
  {
    s' := ExitOn(u, r, s, p);
  }

  /** The removal of the first two worker locks. */
  lemma RemoveTwo(u: Setup, r: iset<State>, s: State, p: Pid) returns (s': State)
    requires Closed(u, r) && s in r && p in s.pc && s.pc[p] == Exit(ExitUser)
    ensures s' in r && !s'.initLock
    ensures s' == s.(userLock := false, initLock := false, initRemovers := s'.initRemovers,
                     pc := s.pc[p := Exit(ExitOwn)])
  {
    var s3 := ExitOn(u, r, s, p);
    assert s3 == At(s.(userLock := false), p, Exit(ExitInit));
    s' := ExitOn(u, r, s3, p);
    assert s'.pc == s.pc[p := Exit(ExitOwn)];
  }

  /** The winner up to the removal of its own lock. */
  lemma AlmostClean(u: Setup, r: iset<State>, s: State, p: Pid) returns (s': State)
    requires Closed(u, r) && s in r && p in s.pc && s.pc[p] == Exit(ExitSettle) && Room(s) && p !in s.lock.pc
    ensures s' in r && Room(s') && !s'.initLock && s'.exitLock == s.exitLock && s'.exitWinners == s.exitWinners
    ensures s'.mount == if u.enroot then None else s.mount
    ensures s'.pc == s.pc[p := Exit(ExitOwn)]
  {
    var s2 := RemoveMount(u, r, s, p);
    s' := RemoveTwo(u, r, s2, p);
    assert s'.pc == s.pc[p := Exit(ExitOwn)];
  }

  lemma LastRemoval(u: Setup, r: iset<State>, s: State, p: Pid) returns (s': State)
    requires Closed(u, r) && s in r && p in s.pc && s.pc[p] == Exit(ExitOwn)
    ensures s' in r && s' == s.(exitLock := false, exitRemovers := s'.exitRemovers,
                                pc := s.pc[p := Exit(ExitDone(Succeeded))])
  {
    s' := ExitOn(u, r, s, p);
    assert s'.pc == s.pc[p := Exit(ExitDone(Succeeded))];
  }

  /** A whole exit hook that finds no lock cleans up. */
  lemma CleaningExit(u: Setup, r: iset<State>, s: State, p: Pid) returns (s': State)
    requires Closed(u, r) && s in r && p !in s.pc && InTurn(s, p, BeginExit) && !s.exitLock && Room(s)
    ensures s' in r && Room(s') && !s'.exitLock && s'.exitWinners == s.exitWinners + {p}
    ensures s'.pc == s.pc[p := Exit(ExitDone(Succeeded))]
  {
    var s1 := TryExit(u, r, s, p);
    var s2 := AlmostClean(u, r, s1, p);
    s' := LastRemoval(u, r, s2, p);
    assert s'.pc == s.pc[p := Exit(ExitDone(Succeeded))];
  }

  // What error-free runs can do

  /** Task A runs init hook 0 and exit hook 1, task B init hook 2 and exit hook 3. Hook 1
      begins after hook 0 has returned and stops before it removes its own lock (a);
      then hook 2 begins, finds no init lock and sets everything up again (b); then hook 3
      begins and finds the exit lock taken (c); then hook 1 returns. Every hook has
      returned without an error and after its own task's init hook, and the init lock
      stays, with Enroot the mount file too. */
  lemma LateInitLeavesResidue(u: Setup, e: Config.Env, s0: State)
    returns (start: State, a: State, b: State, c: State, end: State)
    requires u.rewrite(e).Some? && Start(s0) && !s0.initLock && !s0.exitLock && s0.mount == None
    ensures Leads(u, s0, start) && start.pc == map[0 := Init(InitDone(Succeeded))]
    ensures Leads(u, start, a) && a.pc == start.pc[1 := Exit(ExitOwn)]
    ensures Leads(u, a, b) && b.pc == a.pc[2 := Init(InitDone(Succeeded))]
    ensures Leads(u, b, c) && c.pc == b.pc[3 := Exit(ExitDone(AlreadyDone))]
    ensures Leads(u, c, end) && end.pc == c.pc[1 := Exit(ExitDone(Succeeded))]
    ensures Quiescent(end) && end.initLock && !end.exitLock && (end.mount.Some? <==> Mounts(u, u.rewrite(e).value))
  {
    start := WinningInit(u, e, Reached(u, s0), s0, 0);
    a := StopBeforeOwn(u, start);
    b := WinningInit(u, e, Reached(u, a), a, 2);
    assert forall p :: p in b.pc && p != 1 ==> p == 0 || p == 2;
    c, end := LateEnd(u, b);
  }

  lemma LateEnd(u: Setup, b: State) returns (c: State, end: State)
    requires b.exitLock && 1 in b.pc && b.pc[1] == Exit(ExitOwn) && 3 !in b.pc && InTurn(b, 3, BeginExit)
    requires forall p :: p in b.pc && p != 1 ==> b.pc[p].Terminal()
    ensures Leads(u, b, c) && c.pc == b.pc[3 := Exit(ExitDone(AlreadyDone))]
    ensures Leads(u, c, end) && end.pc == c.pc[1 := Exit(ExitDone(Succeeded))]
    ensures Quiescent(end) && !end.exitLock && end.initLock == b.initLock && end.mount == b.mount
  {
    c := TryExit(u, Reached(u, b), b, 3);
    assert c.pc[1] == Exit(ExitOwn);
    end := LastRemoval(u, Reached(u, c), c, 1);
  }

  lemma StopBeforeOwn(u: Setup, s: State) returns (a: State)
    requires !s.exitLock && Room(s) && 1 !in s.pc && InTurn(s, 1, BeginExit)
    ensures Leads(u, s, a) && a.pc == s.pc[1 := Exit(ExitOwn)] && Room(a) && !a.initLock && a.exitLock
    ensures a.mount == if u.enroot then None else s.mount
  {
    var r := Reached(u, s);
    var s1 := TryExit(u, r, s, 1);
    a := AlmostClean(u, r, s1, 1);
    assert a.pc == s.pc[1 := Exit(ExitOwn)];
  }

  /** A hook that finds the init lock taken. */
  lemma LosingInit(u: Setup, e: Config.Env, r: iset<State>, s: State, p: Pid) returns (s': State)
    requires u.rewrite(e).Some? && Closed(u, r) && s in r && p !in s.pc && p % 2 == 0 && s.initLock
    ensures s' in r && s' == s.(env := s'.env, pc := s.pc[p := Init(InitDone(AlreadyDone))])
    ensures forall q :: q in s.env && q != p ==> q in s'.env && s'.env[q] == s.env[q]
  {
    var s1 := BeginInitHook(u, e, r, s, p);
    var s2 := InitOn(u, r, s1, p);
    assert s2 == At(s1, p, Init(InitCreate));
    s' := InitOn(u, r, s2, p);
    assert s' == At(s1, p, Init(InitDone(AlreadyDone)));
    assert s'.pc == s.pc[p := Init(InitDone(AlreadyDone))];
  }

  /** The cleanup runs as often as exit hooks find the lock free: of two tasks, started
      together and ending one after the other, both clean. */
  lemma CleansTwice(u: Setup, e: Config.Env, s0: State) returns (start: State, a: State, b: State)
    requires u.rewrite(e).Some? && Start(s0) && !s0.initLock && !s0.exitLock
    ensures Leads(u, s0, start) && start.pc == map[0 := Init(InitDone(Succeeded)), 2 := Init(InitDone(AlreadyDone))]
    ensures Leads(u, start, a) && a.pc == start.pc[1 := Exit(ExitDone(Succeeded))] && a.exitWinners == {1}
    ensures Leads(u, a, b) && b.pc == a.pc[3 := Exit(ExitDone(Succeeded))] && b.exitWinners == {1, 3}
  {
    start := BothTasks(u, e, s0);
    a := NextExit(u, start, 1);
    b := NextExit(u, a, 3);
  }

  lemma NextExit(u: Setup, s: State, p: Pid) returns (s': State)
    requires p !in s.pc && InTurn(s, p, BeginExit) && !s.exitLock && Room(s)
    ensures Leads(u, s, s') && Room(s') && !s'.exitLock
    ensures s'.pc == s.pc[p := Exit(ExitDone(Succeeded))] && s'.exitWinners == s.exitWinners + {p}
  {
    s' := CleaningExit(u, Reached(u, s), s, p);
  }

  lemma BothTasks(u: Setup, e: Config.Env, s0: State) returns (s: State)
    requires u.rewrite(e).Some? && Start(s0) && !s0.initLock && !s0.exitLock
    ensures Leads(u, s0, s) && s.pc == map[0 := Init(InitDone(Succeeded)), 2 := Init(InitDone(AlreadyDone))]
    ensures Room(s) && !s.exitLock && s.exitWinners == {}
  {
    var r := Reached(u, s0);
    var s1 := WinningInit(u, e, r, s0, 0);
    s := LosingInit(u, e, r, s1, 2);
  }

  /** The once-per-worker guard does not wait: the hook of a task that loses the init lock
      can return, without error, before the winner has ensured or mounted anything. */
  lemma LoserOutrunsSetup(u: Setup, e: Config.Env, s0: State) returns (s: State)
    requires u.rewrite(e).Some? && Start(s0) && !s0.initLock && s0.mount == None
    ensures Leads(u, s0, s) && 2 in s.pc && s.pc[2] == Init(InitDone(AlreadyDone))
    ensures s.mount == None && s.dirs == s0.dirs
  {
    var r := Reached(u, s0);
    var s1 := BeginInitHook(u, e, r, s0, 0);
    var s2 := WinInit(u, r, s1, 0);
    s := LosingInit(u, e, r, s2, 2);
  }

  /** A cleanup can be stranded: one exit hook, alone, whose lock file cannot be settled. */
  lemma {:induction false} CleanupStrands(u: Setup, s0: State) returns (t: seq<Event>)
    requires Start(s0) && !s0.exitLock
    ensures Valid(u, s0, t) && After(u, s0, t).pc == map[1 := Exit(ExitStranded(Failed))]
    ensures |t| == 4 && forall k :: 0 <= k < 3 ==> !t[k].a.IsError()
  {
    var s1 := Do(u, s0, 1, BeginExit);
    var s2 := Do(u, s1, 1, Ok);
    assert s2.pc == map[1 := Exit(ExitCreate)] && !s2.exitLock;
    t := FailToSettle(u, s2);
    t := Prepend(u, s1, 1, Ok, t);
    t := Prepend(u, s0, 1, BeginExit, t);
  }

  lemma FailToSettle(u: Setup, s: State) returns (t: seq<Event>)
    requires s.pc == map[1 := Exit(ExitCreate)] && !s.exitLock
    ensures Valid(u, s, t) && After(u, s, t).pc == map[1 := Exit(ExitStranded(Failed))]
    ensures |t| == 2 && !t[0].a.IsError()
  {
    var s' := Do(u, s, 1, Ok);
    assert s' == ExitOk(u, s, 1) && s'.pc == map[1 := Exit(ExitSettle)];
    OneEvent(u, s', 1, Fail);
    t := Prepend(u, s, 1, Ok, [Event(1, Fail)]);
  }

  lemma Prepend(u: Setup, s: State, p: Pid, a: Action, t: seq<Event>) returns (t': seq<Event>)
    requires Enabled(u, s, p, a) && Valid(u, Do(u, s, p, a), t)
    ensures t' == [Event(p, a)] + t && Valid(u, s, t') && After(u, s, t') == After(u, Do(u, s, p, a), t)
  {
    t' := [Event(p, a)] + t;
    assert t'[1..] == t;
  }
}
