/** What every interleaving of hooks keeps, error exits included: the exit lock is a
    correct try-lock, the init lock obeys a conservation law, and the mount file's lock
    calls are a run of the transient-lock machine. */
module HookSafety {
  import opened Wrappers
  import opened Hooks
  import F = Flock

  // Runs in general

  lemma {:induction false} RunConcat(u: Setup, s: State, t: seq<Event>, t': seq<Event>)
    requires Valid(u, s, t) && Valid(u, After(u, s, t), t')
    ensures Valid(u, s, t + t') && After(u, s, t + t') == After(u, After(u, s, t), t')
    decreases |t|
  {
    if t == [] {
      assert t + t' == t';
    } else {
      RunConcat(u, Do(u, s, t[0].p, t[0].a), t[1..], t');
      assert (t + t')[0] == t[0] && (t + t')[1..] == t[1..] + t';
    }
  }

  /** A process that has returned makes no further step. */
  lemma Finished(u: Setup, s: State, p: Pid, a: Action)
    requires Enabled(u, s, p, a) && p in s.pc
    ensures !s.pc[p].Terminal()
  {
  }

  // The exit lock

  /** The process owns the exit lock file: it is cleaning up, or it returned and left it. */
  predicate Owns(c: Pc) {
    c.InCleanup() || (c.Exit? && c.e.ExitStranded?)
  }

  /** `owner` is the one process that owns the exit lock, `left` says the lock file was
      there before any hook ran. */
  predicate ExitInv(s: State, left: bool, owner: Option<Pid>) {
    && (s.exitLock <==> left || owner.Some?)
    && (owner.Some? ==> !left && owner.value in s.pc)
    && (forall p :: p in s.pc ==> (Owns(s.pc[p]) <==> owner == Some(p)))
  }

  ghost predicate ExitMove(s: State, s': State, p: Pid)
    requires p in s'.pc
  {
    var was, is_ := p in s.pc && Owns(s.pc[p]), Owns(s'.pc[p]);
    || (!s.exitLock && s'.exitLock && !was && is_)
    || (!s'.exitLock && was && !is_)
    || (s'.exitLock == s.exitLock && was == is_)
  }

  /** A step takes a free exit lock, or removes its own, or changes neither the file nor
      who owns it. */
  lemma ExitShape(u: Setup, s: State, p: Pid, a: Action)
    requires Enabled(u, s, p, a)
    ensures ExitMove(s, Do(u, s, p, a), p)
  {
    match a
    case Ok => ExitShapeOk(u, s, p);
    case Lock(b) => ExitShapeLock(s, p, b);
    case _ =>
  }

  lemma ExitShapeOk(u: Setup, s: State, p: Pid)
    requires Enabled(u, s, p, Ok)
    ensures ExitMove(s, Do(u, s, p, Ok), p)
  {
    if s.pc[p].Exit? {
      ExitShapeExit(u, s, p);
    }
  }

  lemma ExitShapeExit(u: Setup, s: State, p: Pid)
    requires p in s.pc && s.pc[p].Exit? && OkEnabled(u, s, p)
    ensures ExitMove(s, ExitOk(u, s, p), p)
  {
  }

  lemma ExitShapeLock(s: State, p: Pid, a: F.Action)
    requires p in s.pc && LockEnabled(s, p, a)
    ensures ExitMove(s, LockStep(s, p, a), p)
  {
  }

  lemma ExitStep(u: Setup, s: State, p: Pid, a: Action, left: bool, owner: Option<Pid>)
    returns (owner': Option<Pid>)
    requires Enabled(u, s, p, a) && ExitInv(s, left, owner)
    ensures ExitInv(Do(u, s, p, a), left, owner')
    ensures owner.Some? && owner.value != p ==> owner' == owner
  {
    var s' := Do(u, s, p, a);
    ExitShape(u, s, p, a);
    owner' := if Owns(s'.pc[p]) then Some(p) else if owner == Some(p) then None else owner;
  }

  lemma {:induction false} ExitRun(u: Setup, s: State, t: seq<Event>, left: bool, owner: Option<Pid>)
    returns (owner': Option<Pid>)
    requires Valid(u, s, t) && ExitInv(s, left, owner)
    ensures ExitInv(After(u, s, t), left, owner')
    decreases |t|
  {
    if t == [] {
      owner' := owner;
    } else {
      var o := ExitStep(u, s, t[0].p, t[0].a, left, owner);
      owner' := ExitRun(u, Do(u, s, t[0].p, t[0].a), t[1..], left, o);
    }
  }

  /** In every run at most one process is cleaning up. The exit lock file exists exactly
      when one is, or when one returned without removing it, or when it was there from
      the start. */
  lemma {:induction false} ExitTryLock(u: Setup, s0: State, t: seq<Event>)
    requires Start(s0) && Valid(u, s0, t)
    ensures var s := After(u, s0, t);
            && (forall p, q :: p in s.pc && q in s.pc && Owns(s.pc[p]) && Owns(s.pc[q]) ==> p == q)
            && (s.exitLock <==> s0.exitLock || exists p :: p in s.pc && Owns(s.pc[p]))
            && (s0.exitLock ==> forall p :: p in s.pc ==> !s.pc[p].InCleanup())
  {
    var owner := ExitRun(u, s0, t, s0.exitLock, None);
  }

  /** Without errors nothing is ever stranded, so the file exists exactly while some
      process is cleaning up. */
  lemma {:induction false} ExitLockMeansCleanup(u: Setup, s0: State, t: seq<Event>)
    requires Start(s0) && !s0.exitLock && Valid(u, s0, t) && ErrorFree(t)
    ensures var s := After(u, s0, t);
            s.exitLock <==> exists p :: p in s.pc && s.pc[p].InCleanup()
  {
    ExitTryLock(u, s0, t);
    NeverStranded(u, s0, t);
  }

  /** Not stranded and not about to be. */
  predicate Unhurt(c: Pc) {
    c.Exit? ==> !c.e.ExitStranded? && c.e != ExitUnlock(Failed) && c.e != ExitUnlock(AlreadyDone)
  }

  predicate Sound(s: State) {
    forall p :: p in s.pc ==> Unhurt(s.pc[p])
  }

  lemma UnhurtMove(u: Setup, s: State, p: Pid, a: Action)
    requires Enabled(u, s, p, a) && !a.IsError() && (p in s.pc ==> Unhurt(s.pc[p]))
    ensures Unhurt(Do(u, s, p, a).pc[p])
  {
    if a == Ok && s.pc[p].Exit? {
      assert Unhurt(ExitOk(u, s, p).pc[p]);
    }
  }

  lemma SoundStep(u: Setup, s: State, p: Pid, a: Action)
    requires Enabled(u, s, p, a) && Sound(s) && !a.IsError()
    ensures Sound(Do(u, s, p, a))
  {
    UnhurtMove(u, s, p, a);
  }

  lemma {:induction false} NeverStranded(u: Setup, s: State, t: seq<Event>)
    requires Valid(u, s, t) && ErrorFree(t) && Sound(s)
    ensures Sound(After(u, s, t))
    decreases |t|
  {
    if t != [] {
      assert !t[0].a.IsError();
      SoundStep(u, s, t[0].p, t[0].a);
      assert forall k :: 0 <= k < |t[1..]| ==> t[1..][k] == t[k + 1];
      NeverStranded(u, Do(u, s, t[0].p, t[0].a), t[1..]);
    }
  }

  /** Once a cleanup has returned without removing the lock, the lock file stays in every
      continuation, its owner stays as it is, and nobody cleans up any more. */
  lemma {:induction false} StrandedForever(u: Setup, s0: State, t: seq<Event>, t': seq<Event>, q: Pid)
    requires Start(s0) && !s0.exitLock && Valid(u, s0, t) && Valid(u, After(u, s0, t), t')
    requires var s := After(u, s0, t); q in s.pc && s.pc[q].Exit? && s.pc[q].e.ExitStranded?
    ensures var s, s' := After(u, s0, t), After(u, After(u, s0, t), t');
            && s'.exitLock && q in s'.pc && s'.pc[q] == s.pc[q]
            && forall p :: p in s'.pc ==> !s'.pc[p].InCleanup()
  {
    var owner := ExitRun(u, s0, t, false, None);
    StrandedStays(u, After(u, s0, t), t', q);
  }

  lemma {:induction false} StrandedStays(u: Setup, s: State, t: seq<Event>, q: Pid)
    requires ExitInv(s, false, Some(q)) && s.pc[q].Exit? && s.pc[q].e.ExitStranded? && Valid(u, s, t)
    ensures var s' := After(u, s, t);
            && s'.exitLock && q in s'.pc && s'.pc[q] == s.pc[q]
            && forall p :: p in s'.pc ==> !s'.pc[p].InCleanup()
    decreases |t|
  {
    if t != [] {
      var p, a := t[0].p, t[0].a;
      if p == q { Finished(u, s, p, a); }
      var o := ExitStep(u, s, p, a, false, Some(q));
      StrandedStays(u, Do(u, s, p, a), t[1..], q);
    }
  }

  /** The exit hook is a try-lock and no more: at its create step a hook returns with
      nothing done exactly when some process owns the lock right then or the file was there
      before any hook ran. However many cleanups went before, a free lock is won. */
  lemma {:induction false} ExitSkippedIff(u: Setup, s0: State, t: seq<Event>, p: Pid)
    requires Start(s0) && Valid(u, s0, t)
    requires var s := After(u, s0, t); p in s.pc && s.pc[p] == Exit(ExitCreate)
    ensures var s := After(u, s0, t);
            var s' := Do(u, s, p, Ok);
            && (s'.pc[p] == Exit(ExitDone(AlreadyDone)) <==>
                  s0.exitLock || exists q :: q in s.pc && Owns(s.pc[q]))
            && (s'.pc[p] != Exit(ExitDone(AlreadyDone)) ==> s'.pc[p] == Exit(ExitSettle) && p in s'.exitWinners)
  {
    ExitTryLock(u, s0, t);
    var s := After(u, s0, t);
    assert Do(u, s, p, Ok) == ExitOk(u, s, p);
  }

  // How many cleanups

  function Count(b: bool): nat {
    if b then 1 else 0
  }

  predicate WonExit(c: Pc) {
    Owns(c) || FreedExit(c)
  }

  predicate FreedExit(c: Pc) {
    c == Exit(ExitDone(Succeeded))
  }

  predicate ExitCounts(s: State, left: bool) {
    && (forall p :: p in s.exitWinners ==> p in s.pc && WonExit(s.pc[p]))
    && (forall p :: p in s.exitRemovers ==> p in s.pc && FreedExit(s.pc[p]))
    && |s.exitWinners| + Count(left) == |s.exitRemovers| + Count(s.exitLock)
  }

  ghost predicate ExitCountMove(s: State, s': State, p: Pid)
    requires p in s'.pc
  {
    && (p in s.pc && WonExit(s.pc[p]) ==> WonExit(s'.pc[p]))
    && (p in s.pc && FreedExit(s.pc[p]) ==> FreedExit(s'.pc[p]))
    && (|| (s'.exitLock == s.exitLock && s'.exitWinners == s.exitWinners && s'.exitRemovers == s.exitRemovers)
        || (!s.exitLock && s'.exitLock && s'.exitWinners == s.exitWinners + {p} && s'.exitRemovers == s.exitRemovers
            && p in s.pc && !WonExit(s.pc[p]) && WonExit(s'.pc[p]))
        || (s.exitLock && !s'.exitLock && s'.exitWinners == s.exitWinners && s'.exitRemovers == s.exitRemovers + {p}
            && p in s.pc && !FreedExit(s.pc[p]) && FreedExit(s'.pc[p])))
  }

  lemma ExitCountShape(u: Setup, s: State, p: Pid, a: Action)
    requires Enabled(u, s, p, a)
    ensures ExitCountMove(s, Do(u, s, p, a), p)
  {
    match a
    case Ok => if s.pc[p].Exit? { ExitCountExit(u, s, p); }
    case Lock(b) => ExitCountLock(s, p, b);
    case _ =>
  }

  lemma ExitCountExit(u: Setup, s: State, p: Pid)
    requires p in s.pc && s.pc[p].Exit? && OkEnabled(u, s, p)
    ensures ExitCountMove(s, ExitOk(u, s, p), p)
  {
  }

  lemma ExitCountLock(s: State, p: Pid, a: F.Action)
    requires p in s.pc && LockEnabled(s, p, a)
    ensures ExitCountMove(s, LockStep(s, p, a), p)
  {
  }

  lemma ExitCountStep(u: Setup, s: State, p: Pid, a: Action, left: bool)
    requires Enabled(u, s, p, a) && ExitCounts(s, left)
    ensures ExitCounts(Do(u, s, p, a), left)
    ensures s.exitWinners <= Do(u, s, p, a).exitWinners && s.exitRemovers <= Do(u, s, p, a).exitRemovers
  {
    ExitCountShape(u, s, p, a);
  }

  lemma {:induction false} ExitCountRun(u: Setup, s: State, t: seq<Event>, left: bool)
    requires Valid(u, s, t) && ExitCounts(s, left)
    ensures ExitCounts(After(u, s, t), left)
    ensures s.exitWinners <= After(u, s, t).exitWinners && s.exitRemovers <= After(u, s, t).exitRemovers
    decreases |t|
  {
    if t != [] {
      ExitCountStep(u, s, t[0].p, t[0].a, left);
      ExitCountRun(u, Do(u, s, t[0].p, t[0].a), t[1..], left);
    }
  }

  /** Conservation for the exit lock: cleanups begun and a lock found at the start balance
      the locks that cleanups removed and the lock that exists now. */
  lemma {:induction false} ExitConservation(u: Setup, s0: State, t: seq<Event>)
    requires Start(s0) && Valid(u, s0, t)
    ensures var s := After(u, s0, t);
            |s.exitWinners| + Count(s0.exitLock) == |s.exitRemovers| + Count(s.exitLock)
  {
    ExitCountRun(u, s0, t, s0.exitLock);
  }

  // The init lock

  /** The process is past the exclusive create of the init lock. */
  predicate PastCreate(c: Pc) {
    c.Mount? || (c.Init? && !c.i.InitRender? && !c.i.InitTmp? && !c.i.InitCreate?)
  }

  predicate PastRemoval(c: Pc) {
    c.Exit? && (c.e.ExitOwn? || c.e.ExitDone? || c.e.ExitStranded?)
  }

  predicate InitInv(s: State, left: bool) {
    && (forall p :: p in s.initWinners ==> p in s.pc && PastCreate(s.pc[p]))
    && (forall p :: p in s.initRemovers ==> p in s.pc && PastRemoval(s.pc[p]))
    && |s.initWinners| + Count(left) == |s.initRemovers| + Count(s.initLock)
  }

  ghost predicate InitMove(s: State, s': State, p: Pid)
    requires p in s'.pc
  {
    && (p in s.pc && PastCreate(s.pc[p]) ==> PastCreate(s'.pc[p]))
    && (p in s.pc && PastRemoval(s.pc[p]) ==> PastRemoval(s'.pc[p]))
    && (|| (s'.initLock == s.initLock && s'.initWinners == s.initWinners && s'.initRemovers == s.initRemovers)
        || (!s.initLock && s'.initLock && s'.initWinners == s.initWinners + {p} && s'.initRemovers == s.initRemovers
            && p in s.pc && !PastCreate(s.pc[p]) && PastCreate(s'.pc[p]))
        || (s.initLock && !s'.initLock && s'.initWinners == s.initWinners && s'.initRemovers == s.initRemovers + {p}
            && p in s.pc && !PastRemoval(s.pc[p]) && PastRemoval(s'.pc[p])))
  }

  lemma InitShape(u: Setup, s: State, p: Pid, a: Action)
    requires Enabled(u, s, p, a)
    ensures InitMove(s, Do(u, s, p, a), p)
  {
    match a
    case Ok =>
      if s.pc[p].Exit? { InitShapeExit(u, s, p); } else if s.pc[p].Init? { InitShapeInit(u, s, p); }
    case Lock(b) => InitShapeLock(s, p, b);
    case _ =>
  }

  lemma InitShapeInit(u: Setup, s: State, p: Pid)
    requires p in s.pc && s.pc[p].Init? && OkEnabled(u, s, p)
    ensures InitMove(s, InitOk(u, s, p), p)
  {
    if s.pc[p].i.InitCreate? {
      InitShapeCreate(u, s, p);
    } else {
      var r := InitOk(u, s, p);
      assert r.initLock == s.initLock && r.initWinners == s.initWinners;
    }
  }

  lemma InitShapeCreate(u: Setup, s: State, p: Pid)
    requires p in s.pc && s.pc[p] == Init(InitCreate)
    ensures InitMove(s, InitOk(u, s, p), p)
  {
    if s.initLock {
      assert InitOk(u, s, p) == At(s, p, Init(InitDone(AlreadyDone)));
    }
  }

  lemma InitShapeExit(u: Setup, s: State, p: Pid)
    requires p in s.pc && s.pc[p].Exit? && OkEnabled(u, s, p)
    ensures InitMove(s, ExitOk(u, s, p), p)
  {
  }

  lemma InitShapeLock(s: State, p: Pid, a: F.Action)
    requires p in s.pc && LockEnabled(s, p, a)
    ensures InitMove(s, LockStep(s, p, a), p)
  {
  }

  lemma InitStep(u: Setup, s: State, p: Pid, a: Action, left: bool)
    requires Enabled(u, s, p, a) && InitInv(s, left)
    ensures InitInv(Do(u, s, p, a), left)
    ensures s.initWinners <= Do(u, s, p, a).initWinners && s.initRemovers <= Do(u, s, p, a).initRemovers
  {
    InitShape(u, s, p, a);
  }

  lemma {:induction false} InitRun(u: Setup, s: State, t: seq<Event>, left: bool)
    requires Valid(u, s, t) && InitInv(s, left)
    ensures InitInv(After(u, s, t), left)
    ensures s.initWinners <= After(u, s, t).initWinners && s.initRemovers <= After(u, s, t).initRemovers
    decreases |t|
  {
    if t != [] {
      InitStep(u, s, t[0].p, t[0].a, left);
      InitRun(u, Do(u, s, t[0].p, t[0].a), t[1..], left);
    }
  }

  /** Conservation: setups won and locks found at the start balance effective removals and
      the lock that exists now. */
  lemma {:induction false} InitConservation(u: Setup, s0: State, t: seq<Event>)
    requires Start(s0) && Valid(u, s0, t)
    ensures var s := After(u, s0, t);
            |s.initWinners| + Count(s0.initLock) == |s.initRemovers| + Count(s.initLock)
  {
    InitRun(u, s0, t, s0.initLock);
  }

  lemma AtMostOneMore(a: set<Pid>, b: set<Pid>, p: Pid, q: Pid)
    requires a <= b && |b| <= |a| + 1 && p in b - a && q in b - a
    ensures p == q
  {
    assert b == a + (b - a);
    F.SubsetSize({p, q}, b - a);
  }

  /** Between two removals, of any number of racing hooks at most one does the setup. */
  lemma {:induction false} OneSetupBetweenRemovals(u: Setup, s0: State, t: seq<Event>, t': seq<Event>, p: Pid, q: Pid)
    requires Start(s0) && Valid(u, s0, t) && Valid(u, After(u, s0, t), t')
    requires var s, s' := After(u, s0, t), After(u, After(u, s0, t), t');
             && s'.initRemovers == s.initRemovers
             && p in s'.initWinners - s.initWinners && q in s'.initWinners - s.initWinners
    ensures p == q
  {
    var s := After(u, s0, t);
    var s' := After(u, s, t');
    InitRun(u, s0, t, s0.initLock);
    InitRun(u, s, t', s0.initLock);
    AtMostOneMore(s.initWinners, s'.initWinners, p, q);
  }

  // The mount file's lock

  function Stage(s: State, p: Pid): Option<F.Pc> {
    if p in s.lock.pc then Some(s.lock.pc[p]) else None
  }

  /** How far a hook is and how far its `with_lock` call is. */
  predicate Linked(c: Pc, l: Option<F.Pc>) {
    if c.InCallback() then l.Some? && l.value.Holding?
    else if c == Init(InitLock) || c == Exit(ExitLock) then l.Some? ==> l.value.Opened? || l.value.ModeChecked?
    else if (c.Init? && c.i.InitUnlock?) || (c.Exit? && c.e.ExitUnlock?) then
      l.Some? && (l.value.Holding? || l.value.Unlocked? || l.value.Unlinked?)
    else if c.Exit? && (c.e.ExitUser? || c.e.ExitInit? || c.e.ExitOwn?) then l.Some? ==> l.value.Terminal()
    else if c.Terminal() then l.Some? ==> l.value.Terminal()
    else l == None
  }

  predicate LinkInv(s: State) {
    && (forall p :: p in s.pc ==> Linked(s.pc[p], Stage(s, p)))
    && (forall p :: p in s.lock.pc ==> p in s.pc)
  }

  lemma LinkLock(s: State, p: Pid, a: F.Action)
    requires p in s.pc && LockEnabled(s, p, a) && Linked(s.pc[p], Stage(s, p))
    ensures var s' := LockStep(s, p, a);
            && Linked(s'.pc[p], Stage(s', p))
            && s'.lock.pc == s.lock.pc[p := s'.lock.pc[p]]
  {
  }

  lemma LinkOk(u: Setup, s: State, p: Pid)
    requires p in s.pc && OkEnabled(u, s, p) && Linked(s.pc[p], Stage(s, p))
    ensures var s' := Do(u, s, p, Ok); s'.lock == s.lock && Linked(s'.pc[p], Stage(s', p))
  {
    if s.pc[p].Init? {
      assert Linked(InitOk(u, s, p).pc[p], Stage(s, p));
    } else if s.pc[p].Mount? {
      assert Linked(MountOk(u, s, p).pc[p], Stage(s, p));
    } else {
      LinkExit(u, s, p);
    }
  }

  lemma LinkExit(u: Setup, s: State, p: Pid)
    requires p in s.pc && s.pc[p].Exit? && OkEnabled(u, s, p) && Linked(s.pc[p], Stage(s, p))
    ensures Linked(ExitOk(u, s, p).pc[p], Stage(s, p))
  {
  }

  lemma LinkStep(u: Setup, s: State, p: Pid, a: Action)
    requires Enabled(u, s, p, a) && LinkInv(s)
    ensures LinkInv(Do(u, s, p, a))
  {
    match a
    case Ok => LinkOk(u, s, p);
    case Lock(b) => LinkLock(s, p, b);
    case Fail => assert Linked(FailPc(s.pc[p]), Stage(s, p));
    case _ =>
  }

  lemma LockReach(u: Setup, s: State, p: Pid, a: Action)
    requires Enabled(u, s, p, a) && F.Reachable(s.lock)
    ensures F.Reachable(Do(u, s, p, a).lock)
  {
    if a.Lock? {
      F.ReachStep(s.lock, p, a.a);
    }
  }

  lemma {:induction false} LockRun(u: Setup, s: State, t: seq<Event>)
    requires Valid(u, s, t) && LinkInv(s) && F.Reachable(s.lock)
    ensures LinkInv(After(u, s, t)) && F.Reachable(After(u, s, t).lock)
    decreases |t|
  {
    if t != [] {
      LinkStep(u, s, t[0].p, t[0].a);
      LockReach(u, s, t[0].p, t[0].a);
      LockRun(u, Do(u, s, t[0].p, t[0].a), t[1..]);
    }
  }

  /** In every run of hooks the mount file's lock calls form a run of the transient-lock
      machine and each callback runs while its call holds the lock. So callbacks on the
      mount file that run at once are at most one more than the effective unlinks of the
      lock name, and removals never overlap one another at all. */
  lemma {:induction false} MountCallbacks(u: Setup, s0: State, t: seq<Event>)
    requires Start(s0) && Valid(u, s0, t)
    ensures var s := After(u, s0, t);
            var busy := set p | p in s.pc && s.pc[p].InCallback();
            && F.Reachable(s.lock)
            && busy <= F.Callbacks(s.lock)
            && |busy| <= 1 + |s.lock.unlinkers|
            && 2 * |busy| <= 1 + |s.lock.pc|
            && (forall p, q :: p in s.pc && q in s.pc && s.pc[p] == Exit(ExitRemove) == s.pc[q] ==> p == q)
  {
    assert F.Valid(s0.lock, []) && F.After(s0.lock, []) == s0.lock;
    LockRun(u, s0, t);
    var s := After(u, s0, t);
    var busy := set p | p in s.pc && s.pc[p].InCallback();
    BusyHolds(s, busy);
    F.CallbackBound(s.lock);
    F.SubsetSize(busy, F.Callbacks(s.lock));
    ExitTryLock(u, s0, t);
  }

  lemma BusyHolds(s: State, busy: set<Pid>)
    requires LinkInv(s) && forall p :: p in busy ==> p in s.pc && s.pc[p].InCallback()
    ensures busy <= F.Callbacks(s.lock)
  {
    forall p | p in busy
      ensures p in F.Callbacks(s.lock)
    {
      assert Linked(s.pc[p], Stage(s, p));
    }
  }
}
