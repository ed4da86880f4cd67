/** Progress: a hook makes a bounded number of steps, whatever the others do, and as long
    as some hook has not returned, some process can go on without any call failing. So a
    run of finitely many hooks ends, and only when all of them have returned. */
module HookProgress {
  import opened Wrappers
  import opened Hooks
  import opened HookSafety
  import F = Flock
  import Config

  /** An upper bound on the steps a process has left; n bounds the mount text. */
  function Left(c: Pc, l: Option<F.Pc>, n: nat): nat {
    match c
    case Init(i) =>
      (match i
       case InitRender => 18 + n
       case InitTmp => 17 + n
       case InitCreate => 16 + n
       case InitSettle => 15 + n
       case InitDump => 14 + n
       case InitEnroot => 13 + n
       case InitLock => 10 + n + Acquiring(l)
       case InitUnlock(_) => 3 + Releasing(l)
       case InitDone(_) => 0)
    case Mount(m) =>
      (match m
       case MountStat => 9 + n
       case MountOpen => 8 + n
       case MountWrite(_, off) => 7 + (if off < n then n - off else 0)
       case MountMode => 6)
    case Exit(e) =>
      (match e
       case ExitTmp => 18
       case ExitCreate => 17
       case ExitSettle => 16
       case ExitEnroot => 15
       case ExitLock => 12 + Acquiring(l)
       case ExitRemove => 11
       case ExitUnlock(_) => 8 + Releasing(l)
       case ExitUser => 7
       case ExitInit => 6
       case ExitOwn => 5
       case ExitDone(_) | ExitStranded(_) => 0)
  }

  function Acquiring(l: Option<F.Pc>): nat {
    if l == None then 2 else if l.value.Opened? then 1 else 0
  }

  function Releasing(l: Option<F.Pc>): nat {
    if l == None then 0 else if l.value.Holding? then 2 else if l.value.Unlocked? then 1 else 0
  }

  function StepsLeft(s: State, p: Pid, n: nat): nat {
    if p in s.pc then Left(s.pc[p], Stage(s, p), n) else 20 + n
  }

  /** The mount text for an environment is no longer than n, before the rewrite or after. */
  predicate TextWithin(u: Setup, e: Config.Env, n: nat) {
    && |u.mountText(e)| <= n
    && (u.rewrite(e).Some? ==> |u.mountText(u.rewrite(e).value)| <= n)
  }

  /** So it is for every task whose init hook begins. */
  predicate TextsWithin(u: Setup, t: seq<Event>, n: nat) {
    forall k :: 0 <= k < |t| && t[k].a.BeginInit? ==> TextWithin(u, t[k].a.env, n)
  }

  predicate Within(u: Setup, c: Pc, e: Config.Env, n: nat) {
    if c == Init(InitRender) then TextWithin(u, e, n) else c.IsInit() ==> |u.mountText(e)| <= n
  }

  predicate WithinInv(u: Setup, s: State, n: nat) {
    forall p :: p in s.pc ==> Within(u, s.pc[p], EnvOf(s, p), n)
  }

  lemma WithinMove(u: Setup, s: State, p: Pid, a: Action, n: nat)
    requires Enabled(u, s, p, a) && (p in s.pc ==> Within(u, s.pc[p], EnvOf(s, p), n))
    requires a.BeginInit? ==> TextWithin(u, a.env, n)
    ensures Within(u, Do(u, s, p, a).pc[p], EnvOf(Do(u, s, p, a), p), n)
  {
    if a.Ok? && s.pc[p].Init? {
      WithinInit(u, s, p, n);
    }
  }

  lemma WithinInit(u: Setup, s: State, p: Pid, n: nat)
    requires p in s.pc && s.pc[p].Init? && OkEnabled(u, s, p) && Within(u, s.pc[p], EnvOf(s, p), n)
    ensures Within(u, InitOk(u, s, p).pc[p], EnvOf(InitOk(u, s, p), p), n)
  {
    var s' := InitOk(u, s, p);
    if s.pc[p].i.InitRender? {
      assert EnvOf(s', p) == u.rewrite(EnvOf(s, p)).value;
    } else {
      assert s'.env == s.env && s'.pc[p] != Init(InitRender);
    }
  }

  lemma WithinStep(u: Setup, s: State, p: Pid, a: Action, n: nat)
    requires Enabled(u, s, p, a) && WithinInv(u, s, n) && (a.BeginInit? ==> TextWithin(u, a.env, n))
    ensures WithinInv(u, Do(u, s, p, a), n)
  {
    WithinMove(u, s, p, a, n);
    OthersKeepEnv(u, s, p, a);
  }

  lemma OthersKeepEnv(u: Setup, s: State, p: Pid, a: Action)
    requires Enabled(u, s, p, a)
    ensures forall q :: q != p ==> EnvOf(Do(u, s, p, a), q) == EnvOf(s, q)
  {
  }

  lemma StepsDrop(u: Setup, s: State, p: Pid, a: Action, n: nat)
    requires Enabled(u, s, p, a) && LinkInv(s) && WithinInv(u, s, n)
    ensures StepsLeft(Do(u, s, p, a), p, n) < StepsLeft(s, p, n)
  {
    if p in s.pc {
      assert Linked(s.pc[p], Stage(s, p));
    }
    match a
    case Ok =>
      if s.pc[p].Init? {
        DropInit(u, s, p, n);
      } else if s.pc[p].Exit? {
        DropExit(u, s, p, n);
      } else {
        DropMount(u, s, p, n);
      }
    case Lock(b) => DropLock(s, p, b, n);
    case Fail => DropFail(u, s, p, n);
    case Chunk(k) => DropChunk(u, s, p, k, n);
    case _ =>
  }

  lemma DropInit(u: Setup, s: State, p: Pid, n: nat)
    requires p in s.pc && s.pc[p].Init? && OkEnabled(u, s, p) && Linked(s.pc[p], Stage(s, p))
    ensures Left(InitOk(u, s, p).pc[p], Stage(s, p), n) < Left(s.pc[p], Stage(s, p), n)
  {
    var i, c := s.pc[p].i, InitOk(u, s, p).pc[p];
    assert Stage(s, p) == None;
    if i.InitCreate? {
      assert c.i.InitDone? || c.i.InitSettle?;
    } else if i.InitEnroot? {
      assert c.i.InitDone? || c.i.InitLock?;
    } else if i.InitDump? {
      assert c.i.InitEnroot?;
    }
  }

  lemma DropMount(u: Setup, s: State, p: Pid, n: nat)
    requires p in s.pc && s.pc[p].Mount? && OkEnabled(u, s, p) && Linked(s.pc[p], Stage(s, p))
    ensures Left(MountOk(u, s, p).pc[p], Stage(s, p), n) < Left(s.pc[p], Stage(s, p), n)
  {
    if s.pc[p].m.MountOpen? {
      assert MountOk(u, s, p).pc[p].m.MountWrite? && MountOk(u, s, p).pc[p].m.off == 0;
    }
  }

  lemma DropChunk(u: Setup, s: State, p: Pid, k: nat, n: nat)
    requires p in s.pc && ChunkEnabled(u, s, p, k) && |u.mountText(EnvOf(s, p))| <= n
    ensures Left(WriteChunk(u, s, p, k).pc[p], Stage(s, p), n) < Left(s.pc[p], Stage(s, p), n)
  {
  }

  lemma DropExit(u: Setup, s: State, p: Pid, n: nat)
    requires p in s.pc && s.pc[p].Exit? && OkEnabled(u, s, p) && Linked(s.pc[p], Stage(s, p))
    ensures Left(ExitOk(u, s, p).pc[p], Stage(s, p), n) < Left(s.pc[p], Stage(s, p), n)
  {
  }

  lemma DropFail(u: Setup, s: State, p: Pid, n: nat)
    requires p in s.pc && FailEnabled(u, s, p) && Linked(s.pc[p], Stage(s, p))
    ensures Left(FailPc(s.pc[p]), Stage(s, p), n) < Left(s.pc[p], Stage(s, p), n)
  {
  }

  lemma DropLock(s: State, p: Pid, a: F.Action, n: nat)
    requires p in s.pc && LockEnabled(s, p, a) && Linked(s.pc[p], Stage(s, p))
    ensures var s' := LockStep(s, p, a);
            Left(s'.pc[p], Stage(s', p), n) < Left(s.pc[p], Stage(s, p), n)
  {
  }

  lemma OthersKeepSteps(u: Setup, s: State, p: Pid, a: Action, n: nat)
    requires Enabled(u, s, p, a)
    ensures forall q :: q != p ==> StepsLeft(Do(u, s, p, a), q, n) == StepsLeft(s, q, n)
  {
    var s' := Do(u, s, p, a);
    assert a.Lock? ==> s'.lock == F.Do(s.lock, p, a.a);
    assert !a.Lock? ==> s'.lock == s.lock;
  }

  function StepsOf(t: seq<Event>, p: Pid): nat {
    if t == [] then 0 else (if t[0].p == p then 1 else 0) + StepsOf(t[1..], p)
  }

  lemma {:induction false} StepsBounded(u: Setup, s: State, t: seq<Event>, p: Pid, n: nat)
    requires Valid(u, s, t) && LinkInv(s) && WithinInv(u, s, n) && TextsWithin(u, t, n)
    ensures StepsOf(t, p) + StepsLeft(After(u, s, t), p, n) <= StepsLeft(s, p, n)
    decreases |t|
  {
    if t != [] {
      StepsDrop(u, s, t[0].p, t[0].a, n);
      OthersKeepSteps(u, s, t[0].p, t[0].a, n);
      LinkStep(u, s, t[0].p, t[0].a);
      WithinStep(u, s, t[0].p, t[0].a, n);
      assert forall k :: 0 <= k < |t[1..]| ==> t[1..][k] == t[k + 1];
      StepsBounded(u, Do(u, s, t[0].p, t[0].a), t[1..], p, n);
    }
  }

  // Runs of finitely many hooks end

  /** The steps all started hooks have left. */
  ghost function Sum(m: map<Pid, nat>): nat
    decreases |m|
  {
    if m == map[] then 0
    else
      var p :| p in m;
      m[p] + Sum(m - {p})
  }

  lemma {:induction false} SumSplit(m: map<Pid, nat>, p: Pid)
    requires p in m
    ensures Sum(m) == m[p] + Sum(m - {p})
    decreases |m|
  {
    var q :| q in m && Sum(m) == m[q] + Sum(m - {q});
    if q != p {
      SumSplit(m - {q}, p);
      SumSplit(m - {p}, q);
      assert m - {q} - {p} == m - {p} - {q};
    }
  }

  ghost function Budget(s: State, n: nat): map<Pid, nat> {
    map p | p in s.pc :: StepsLeft(s, p, n)
  }

  lemma SumUpdate(m: map<Pid, nat>, p: Pid, v: nat)
    ensures Sum(m[p := v]) == Sum(m) + v - (if p in m then m[p] else 0)
  {
    SumSplit(m[p := v], p);
    if p in m {
      SumSplit(m, p);
      assert m[p := v] - {p} == m - {p};
    } else {
      assert m[p := v] - {p} == m;
    }
  }

  lemma BudgetUpdate(u: Setup, s: State, p: Pid, a: Action, n: nat)
    requires Enabled(u, s, p, a)
    ensures var s' := Do(u, s, p, a); Budget(s', n) == Budget(s, n)[p := StepsLeft(s', p, n)]
    ensures |Do(u, s, p, a).pc| == |s.pc| + if p in s.pc then 0 else 1
  {
    OthersKeepSteps(u, s, p, a, n);
    assert Do(u, s, p, a).pc.Keys == s.pc.Keys + {p};
  }

  lemma Spend(b: map<Pid, nat>, p: Pid, left: nat, most: nat, k: nat)
    requires left < if p in b then b[p] else most
    ensures 1 + Sum(b[p := left]) + most * k <= Sum(b) + most * (k + if p in b then 0 else 1)
  {
    SumUpdate(b, p, left);
    assert most * (k + 1) == most * k + most;
  }

  /** Every step uses up at least one of the 20 + n steps of its process. */
  lemma BudgetStep(u: Setup, s: State, p: Pid, a: Action, n: nat)
    requires Enabled(u, s, p, a) && LinkInv(s) && WithinInv(u, s, n)
    ensures var s' := Do(u, s, p, a);
            1 + Sum(Budget(s', n)) + (20 + n) * |s.pc| <= Sum(Budget(s, n)) + (20 + n) * |s'.pc|
  {
    var left := StepsLeft(Do(u, s, p, a), p, n);
    assert left < StepsLeft(s, p, n) by { StepsDrop(u, s, p, a, n); }
    BudgetUpdate(u, s, p, a, n);
    Spend(Budget(s, n), p, left, 20 + n, |s.pc|);
  }

  lemma {:induction false} RunLength(u: Setup, s: State, t: seq<Event>, n: nat)
    requires Valid(u, s, t) && LinkInv(s) && WithinInv(u, s, n) && TextsWithin(u, t, n)
    ensures |t| + Sum(Budget(After(u, s, t), n)) + (20 + n) * |s.pc|
            <= Sum(Budget(s, n)) + (20 + n) * |After(u, s, t).pc|
    decreases |t|
  {
    if t != [] {
      BudgetStep(u, s, t[0].p, t[0].a, n);
      LinkStep(u, s, t[0].p, t[0].a);
      WithinStep(u, s, t[0].p, t[0].a, n);
      assert forall k :: 0 <= k < |t[1..]| ==> t[1..][k] == t[k + 1];
      RunLength(u, Do(u, s, t[0].p, t[0].a), t[1..], n);
    }
  }

  // Nobody is stuck

  /** Writers hold inodes that exist and have not passed the end of the text. */
  predicate FilesInv(u: Setup, s: State) {
    && (s.mount.Some? ==> s.mount.value < |s.files|)
    && forall p :: p in s.pc && s.pc[p].Mount? && s.pc[p].m.MountWrite? ==>
         s.pc[p].m.ino < |s.files| && s.pc[p].m.off <= |u.mountText(EnvOf(s, p))|
  }

  lemma FilesStep(u: Setup, s: State, p: Pid, a: Action)
    requires Enabled(u, s, p, a) && FilesInv(u, s)
    ensures FilesInv(u, Do(u, s, p, a))
  {
    if a.Chunk? {
      assert WriteChunk(u, s, p, a.n).env == s.env;
    } else if a.Ok? && s.pc[p].Mount? {
      FilesMount(u, s, p);
    } else {
      NoWriteStep(u, s, p, a);
      OthersKeepEnv(u, s, p, a);
    }
  }

  lemma NoWriteStep(u: Setup, s: State, p: Pid, a: Action)
    requires Enabled(u, s, p, a) && !a.Chunk? && (a.Ok? ==> !s.pc[p].Mount?)
    ensures var s' := Do(u, s, p, a);
            && s'.files == s.files && (s'.mount == s.mount || s'.mount == None)
            && (s'.pc[p].Mount? ==> !s'.pc[p].m.MountWrite?)
  {
    if a.Ok? && s.pc[p].Init? {
      assert Do(u, s, p, a) == InitOk(u, s, p);
    } else if a.Ok? {
      NoWriteExit(u, s, p);
    }
  }

  lemma NoWriteExit(u: Setup, s: State, p: Pid)
    requires p in s.pc && s.pc[p].Exit? && OkEnabled(u, s, p)
    ensures var s' := ExitOk(u, s, p); s'.files == s.files && (s'.mount == s.mount || s'.mount == None)
  {
  }

  lemma FilesMount(u: Setup, s: State, p: Pid)
    requires p in s.pc && s.pc[p].Mount? && OkEnabled(u, s, p) && FilesInv(u, s)
    ensures FilesInv(u, MountOk(u, s, p))
  {
    assert |MountOk(u, s, p).files| >= |s.files| && MountOk(u, s, p).env == s.env;
  }

  /** The process can go on with no call failing. (A rendering that does not fit fails by
      itself; that is the one error exit nobody can avoid.) */
  ghost predicate CanStep(u: Setup, s: State, p: Pid) {
    exists a :: Enabled(u, s, p, a) && (!a.IsError() || (p in s.pc && s.pc[p] == Init(InitRender)))
  }

  /** The rewrite of an environment fails only where it has an error exit. */
  ghost predicate Total(u: Setup) {
    forall e :: u.rewrite(e).None? ==> u.owned(e)
  }

  /** Everyone can step but those that have returned and those waiting for the lock. */
  lemma StepsUnlessWaiting(u: Setup, s: State, p: Pid)
    requires Total(u) && LinkInv(s) && FilesInv(u, s) && p in s.pc && !s.pc[p].Terminal()
    ensures CanStep(u, s, p) || (p in s.lock.pc && s.lock.pc[p].ModeChecked? && s.lock.pc[p].ino in s.lock.holder)
  {
    assert Linked(s.pc[p], Stage(s, p));
    if s.pc[p] == Init(InitLock) || s.pc[p] == Exit(ExitLock) {
      AcquireCanStep(u, s, p);
    } else if (s.pc[p].Init? && s.pc[p].i.InitUnlock?) || (s.pc[p].Exit? && s.pc[p].e.ExitUnlock?) {
      ReleaseCanStep(u, s, p);
    } else if OkEnabled(u, s, p) {
      assert Enabled(u, s, p, Ok);
    } else {
      assert s.pc[p] == Init(InitRender);
      assert Enabled(u, s, p, Fail);
    }
  }

  lemma AcquireCanStep(u: Setup, s: State, p: Pid)
    requires p in s.pc && (s.pc[p] == Init(InitLock) || s.pc[p] == Exit(ExitLock)) && Linked(s.pc[p], Stage(s, p))
    ensures CanStep(u, s, p) || (p in s.lock.pc && s.lock.pc[p].ModeChecked? && s.lock.pc[p].ino in s.lock.holder)
  {
    var a := if p !in s.lock.pc then F.OpenOk else if s.lock.pc[p].Opened? then F.ModeOk else F.FlockOk;
    if F.Enabled(s.lock, p, a) {
      assert LockEnabled(s, p, a) && Enabled(u, s, p, Lock(a));
    }
  }

  lemma ReleaseCanStep(u: Setup, s: State, p: Pid)
    requires p in s.pc && Linked(s.pc[p], Stage(s, p))
    requires (s.pc[p].Init? && s.pc[p].i.InitUnlock?) || (s.pc[p].Exit? && s.pc[p].e.ExitUnlock?)
    ensures CanStep(u, s, p)
  {
    var l := s.lock.pc[p];
    var a := if l.Holding? then F.UnlockOk else if l.Unlocked? then F.UnlinkOk else F.Close;
    assert LockEnabled(s, p, a) && Enabled(u, s, p, Lock(a));
  }

  /** Whoever waits for the lock waits for a holder that can go on. */
  lemma NotStuck(u: Setup, s: State, p: Pid) returns (q: Pid)
    requires Total(u) && LinkInv(s) && FilesInv(u, s) && F.Inv(s.lock) && p in s.pc && !s.pc[p].Terminal()
    ensures q in s.pc && CanStep(u, s, q)
  {
    StepsUnlessWaiting(u, s, p);
    if CanStep(u, s, p) {
      q := p;
    } else {
      q := s.lock.holder[s.lock.pc[p].ino];
      assert q in s.pc && Linked(s.pc[q], Stage(s, q));
      StepsUnlessWaiting(u, s, q);
    }
  }

  lemma {:induction false} FilesRun(u: Setup, s: State, t: seq<Event>)
    requires Valid(u, s, t) && FilesInv(u, s)
    ensures FilesInv(u, After(u, s, t))
    decreases |t|
  {
    if t != [] {
      FilesStep(u, s, t[0].p, t[0].a);
      FilesRun(u, Do(u, s, t[0].p, t[0].a), t[1..]);
    }
  }

  /** No deadlock: as long as some hook has not returned, some process can go on. */
  lemma {:induction false} NoDeadlock(u: Setup, s0: State, t: seq<Event>)
    requires Total(u) && Start(s0) && Valid(u, s0, t)
    ensures Quiescent(After(u, s0, t)) <==> forall q :: q in After(u, s0, t).pc ==> !CanStep(u, After(u, s0, t), q)
  {
    var s := After(u, s0, t);
    assert F.Valid(s0.lock, []) && F.After(s0.lock, []) == s0.lock;
    LockRun(u, s0, t);
    F.ReachableInv(s.lock);
    FilesRun(u, s0, t);
    if w :| w in s.pc && !s.pc[w].Terminal() {
      var q := NotStuck(u, s, w);
    } else {
      forall q | q in s.pc
        ensures !CanStep(u, s, q)
      {
        if a :| Enabled(u, s, q, a) {
          Finished(u, s, q, a);
        }
      }
    }
  }

  /** In every run a process makes at most 20 + n steps, n being the length of the longest
      mount text, and a run of k hooks ends after at most (20 + n) * k. While some hook has
      not returned there is a process that can go on without an error. So however
      the steps interleave, finitely many hooks all return. */
  lemma {:induction false} HooksReturn(u: Setup, s0: State, t: seq<Event>, p: Pid, n: nat)
    requires Total(u) && TextsWithin(u, t, n) && Start(s0) && Valid(u, s0, t)
    ensures StepsOf(t, p) <= 20 + n
    ensures |t| <= (20 + n) * |After(u, s0, t).pc|
    ensures Quiescent(After(u, s0, t)) <==> forall q :: q in After(u, s0, t).pc ==> !CanStep(u, After(u, s0, t), q)
  {
    NoDeadlock(u, s0, t);
    RunBounds(u, s0, t, p, n);
  }

  lemma {:induction false} RunBounds(u: Setup, s0: State, t: seq<Event>, p: Pid, n: nat)
    requires TextsWithin(u, t, n) && Start(s0) && Valid(u, s0, t)
    ensures StepsOf(t, p) <= 20 + n
    ensures |t| <= (20 + n) * |After(u, s0, t).pc|
  {
    assert StepsLeft(s0, p, n) == 20 + n && Budget(s0, n) == map[];
    StepsBounded(u, s0, t, p, n);
    RunLength(u, s0, t, n);
  }
}
