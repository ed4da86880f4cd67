/** Hooks that run one after another, each to its end: after every hook the init lock
    exists exactly when the mount file does, and an exit hook removes both. */
module HookSerial {
  import opened Wrappers
  import opened Hooks
  import opened HookSafety
  import F = Flock

  predicate BothOrNone(s: State) {
    s.initLock <==> s.mount.Some?
  }

  /** Between hooks. */
  predicate Settled(s: State) {
    Quiescent(s) && !s.exitLock && BothOrNone(s)
  }

  predicate OthersDone(s: State, p: Pid) {
    forall q :: q in s.pc && q != p ==> s.pc[q].Terminal()
  }

  /** The files at each point of a hook that runs alone. */
  predicate Alone(u: Setup, s: State, p: Pid)
    requires p in s.pc
  {
    match s.pc[p]
    case Init(i) =>
      !s.exitLock &&
      (match i
       case InitRender =>
         BothOrNone(s) && (u.rewrite(EnvOf(s, p)).Some? ==> u.dumpDir(u.rewrite(EnvOf(s, p)).value) != "")
       case InitTmp | InitCreate => BothOrNone(s) && u.dumpDir(EnvOf(s, p)) != ""
       case InitSettle | InitDump | InitEnroot | InitLock =>
         s.initLock && s.mount == None && u.dumpDir(EnvOf(s, p)) != ""
       case InitUnlock(out) => s.initLock && s.mount.Some? && out == Succeeded
       case InitDone(out) => s.initLock && s.mount.Some? && out != Failed)
    case Mount(m) =>
      !s.exitLock && s.initLock && (s.mount.Some? <==> m.MountWrite? || m.MountMode?)
    case Exit(e) =>
      (match e
       case ExitTmp | ExitCreate => !s.exitLock && BothOrNone(s)
       case ExitSettle | ExitEnroot | ExitLock | ExitRemove => s.exitLock && BothOrNone(s)
       case ExitUnlock(out) => s.exitLock && s.mount == None && out == Succeeded
       case ExitUser | ExitInit => s.exitLock && s.mount == None
       case ExitOwn => s.exitLock && s.mount == None && !s.initLock
       case ExitDone(out) => !s.exitLock && s.mount == None && !s.initLock && out == Succeeded
       case ExitStranded(_) => false)
  }

  lemma AloneInit(u: Setup, s: State, p: Pid)
    requires u.enroot && p in s.pc && s.pc[p].Init? && OkEnabled(u, s, p) && Alone(u, s, p)
    ensures Alone(u, InitOk(u, s, p), p)
  {
    if s.pc[p].i.InitRender? {
      assert EnvOf(InitOk(u, s, p), p) == u.rewrite(EnvOf(s, p)).value;
    } else {
      AloneInitLater(u, s, p);
    }
  }

  lemma AloneInitLater(u: Setup, s: State, p: Pid)
    requires u.enroot && p in s.pc && s.pc[p].Init? && !s.pc[p].i.InitRender? && OkEnabled(u, s, p) && Alone(u, s, p)
    ensures Alone(u, InitOk(u, s, p), p)
  {
    assert EnvOf(InitOk(u, s, p), p) == EnvOf(s, p);
  }

  lemma AloneMount(u: Setup, s: State, p: Pid)
    requires p in s.pc && s.pc[p].Mount? && OkEnabled(u, s, p) && Alone(u, s, p)
    ensures Alone(u, MountOk(u, s, p), p)
  {
  }

  lemma AloneExit(u: Setup, s: State, p: Pid)
    requires u.enroot && p in s.pc && s.pc[p].Exit? && OkEnabled(u, s, p) && Alone(u, s, p)
    ensures Alone(u, ExitOk(u, s, p), p)
  {
  }

  lemma AloneLock(u: Setup, s: State, p: Pid, a: F.Action)
    requires p in s.pc && LockEnabled(s, p, a) && !a.IsError() && Alone(u, s, p)
    ensures Alone(u, LockStep(s, p, a), p)
  {
    assert EnvOf(LockStep(s, p, a), p) == EnvOf(s, p);
  }

  lemma AloneStep(u: Setup, s: State, p: Pid, a: Action)
    requires u.enroot && p in s.pc && Enabled(u, s, p, a) && !a.IsError() && Alone(u, s, p)
    ensures Alone(u, Do(u, s, p, a), p)
  {
    match a
    case Ok =>
      if s.pc[p].Init? { AloneInit(u, s, p); }
      else if s.pc[p].Mount? { AloneMount(u, s, p); }
      else { AloneExit(u, s, p); }
    case Lock(b) => AloneLock(u, s, p, b);
    case Chunk(_) => assert EnvOf(Do(u, s, p, a), p) == EnvOf(s, p);
  }

  /** Same hook before and after. */
  lemma SameHook(u: Setup, s: State, p: Pid, a: Action)
    requires p in s.pc && Enabled(u, s, p, a)
    ensures Do(u, s, p, a).pc[p].IsInit() == s.pc[p].IsInit()
  {
  }

  lemma {:induction false} AloneRun(u: Setup, s: State, p: Pid, t: seq<Event>)
    requires u.enroot && p in s.pc && OthersDone(s, p) && Alone(u, s, p)
    requires Valid(u, s, t) && ErrorFree(t) && forall k :: 0 <= k < |t| ==> t[k].p == p
    ensures var s' := After(u, s, t);
            && p in s'.pc && OthersDone(s', p) && Alone(u, s', p)
            && s'.pc[p].IsInit() == s.pc[p].IsInit()
    decreases |t|
  {
    if t != [] {
      assert t[0].p == p && !t[0].a.IsError();
      AloneStep(u, s, p, t[0].a);
      SameHook(u, s, p, t[0].a);
      assert forall k :: 0 <= k < |t[1..]| ==> t[1..][k] == t[k + 1];
      AloneRun(u, Do(u, s, p, t[0].a), p, t[1..]);
    }
  }

  /** One whole hook, alone and without errors; an init hook has a dump directory. */
  predicate WholeHook(u: Setup, s: State, t: seq<Event>) {
    && t != [] && t[0].p !in s.pc && Valid(u, s, t) && ErrorFree(t)
    && (forall k :: 0 <= k < |t| ==> t[k].p == t[0].p)
    && t[0].p in After(u, s, t).pc && After(u, s, t).pc[t[0].p].Terminal()
    && (t[0].a.BeginInit? && u.rewrite(t[0].a.env).Some? ==> u.dumpDir(u.rewrite(t[0].a.env).value) != "")
  }

  lemma {:induction false} WholeHookEffect(u: Setup, s: State, t: seq<Event>)
    requires u.enroot && Settled(s) && WholeHook(u, s, t)
    ensures var s' := After(u, s, t);
            && Settled(s')
            && (t[0].a.BeginInit? ==> s'.initLock && s'.mount.Some?)
            && (!t[0].a.BeginInit? ==> t[0].a.BeginExit? && !s'.initLock && s'.mount == None)
  {
    var p, a := t[0].p, t[0].a;
    var s1 := Do(u, s, p, a);
    assert EnvOf(s1, p) == if a.BeginInit? then a.env else EnvOf(s, p);
    assert Alone(u, s1, p) && OthersDone(s1, p);
    assert forall k :: 0 <= k < |t[1..]| ==> t[1..][k] == t[k + 1];
    AloneRun(u, s1, p, t[1..]);
    HookEnd(u, After(u, s, t), p);
  }

  lemma HookEnd(u: Setup, s: State, p: Pid)
    requires p in s.pc && OthersDone(s, p) && Alone(u, s, p) && s.pc[p].Terminal()
    ensures Settled(s)
    ensures s.pc[p].IsInit() ==> s.initLock && s.mount.Some?
    ensures !s.pc[p].IsInit() ==> !s.initLock && s.mount == None
  {
  }

  predicate OneByOne(u: Setup, s: State, hooks: seq<seq<Event>>)
    decreases |hooks|
  {
    hooks == [] || (WholeHook(u, s, hooks[0]) && OneByOne(u, After(u, s, hooks[0]), hooks[1..]))
  }

  function AfterAll(u: Setup, s: State, hooks: seq<seq<Event>>): State
    requires OneByOne(u, s, hooks)
    decreases |hooks|
  {
    if hooks == [] then s else AfterAll(u, After(u, s, hooks[0]), hooks[1..])
  }

  /** Any order of whole error-free hooks with Enroot present, starting settled: after the
      last of them the exit lock is absent and the init lock exists exactly when the mount
      file does, both exist after an init hook and neither after an exit hook. */
  lemma {:induction false} SerialHooks(u: Setup, s: State, hooks: seq<seq<Event>>)
    requires u.enroot && Settled(s) && OneByOne(u, s, hooks)
    ensures var s' := AfterAll(u, s, hooks);
            && Settled(s')
            && (hooks != [] ==>
                  var last := hooks[|hooks| - 1];
                  && last != []
                  && (last[0].a.BeginInit? ==> s'.initLock && s'.mount.Some?)
                  && (!last[0].a.BeginInit? ==> !s'.initLock && s'.mount == None))
    decreases |hooks|
  {
    if hooks != [] {
      WholeHookEffect(u, s, hooks[0]);
      SerialHooks(u, After(u, s, hooks[0]), hooks[1..]);
    }
  }
}
