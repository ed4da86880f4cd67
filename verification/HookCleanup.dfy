/** What is left on the worker when all hooks have returned. */
module HookCleanup {
  import opened Wrappers
  import opened Hooks
  import opened HookSafety
  import F = Flock

  /** Every init hook has returned. */
  predicate Calm(s: State) {
    forall p :: p in s.pc && s.pc[p].IsInit() ==> s.pc[p].Terminal()
  }

  /** An exit hook that has yet to try for the exit lock. */
  predicate Pending(c: Pc) {
    c.Exit? && (c.e.ExitTmp? || c.e.ExitCreate?)
  }

  ghost predicate HasPending(s: State) {
    exists p :: p in s.pc && Pending(s.pc[p])
  }

  predicate Begins(t: seq<Event>) {
    exists k :: 0 <= k < |t| && t[k].a.BeginExit?
  }

  predicate NoInitStarts(t: seq<Event>) {
    forall k :: 0 <= k < |t| ==> !t[k].a.BeginInit?
  }

  /** None of the three worker locks, and with Enroot neither the mount file nor its
      transient lock. */
  predicate Clean(u: Setup, s: State) {
    && !s.initLock && !s.userLock && !s.exitLock
    && (u.enroot ==> s.mount == None && s.lock.name == None)
  }

  /** Every file the process cleaning up has passed is still absent. */
  predicate Passed(u: Setup, s: State, p: Pid)
    requires p in s.pc && s.pc[p].Exit?
  {
    var e := s.pc[p].e;
    && (u.enroot && (e.ExitUnlock? || e.ExitUser? || e.ExitInit? || e.ExitOwn?) ==> s.mount == None)
    && (e.ExitUnlock? && p in s.lock.pc && s.lock.pc[p].Unlinked? ==> s.lock.name == None)
    && (u.enroot && (e.ExitUser? || e.ExitInit? || e.ExitOwn?) ==> s.lock.name == None)
    && (e.ExitInit? || e.ExitOwn? ==> !s.userLock)
    && (e.ExitOwn? ==> !s.initLock)
  }

  /** Only with Enroot does a cleanup take the mount file's lock, and it holds it when it
      removes the file. */
  predicate Shaped(u: Setup, c: Pc, l: Option<F.Pc>) {
    c.Exit? ==>
      && (c.e.ExitRemove? ==> l.Some? && l.value.Holding?)
      && (c.e.ExitLock? || c.e.ExitRemove? || c.e.ExitUnlock? ==> u.enroot)
  }

  predicate Sofar(u: Setup, s: State, p: Pid)
    requires p in s.pc && s.pc[p].Exit?
  {
    Shaped(u, s.pc[p], Stage(s, p)) && Passed(u, s, p)
  }

  ghost predicate Phase(u: Setup, s: State, owner: Option<Pid>) {
    && Calm(s) && Sound(s) && ExitInv(s, false, owner)
    && (owner.Some? ==> Sofar(u, s, owner.value))
  }

  /** The owner's next step keeps what it achieved; its last one leaves everything clean. */
  lemma OwnerStep(u: Setup, s: State, p: Pid, a: Action)
    requires Enabled(u, s, p, a) && !a.IsError()
    requires p in s.pc && s.pc[p].InCleanup() && Unhurt(s.pc[p]) && Sofar(u, s, p)
    ensures var s' := Do(u, s, p, a);
            && s'.pc[p].Exit?
            && (s'.pc[p].InCleanup() ==> Sofar(u, s', p))
            && (!s'.pc[p].InCleanup() ==> Clean(u, s'))
  {
    match a
    case Ok => OwnerOk(u, s, p);
    case Lock(b) => OwnerLock(u, s, p, b);
  }

  lemma OwnerOk(u: Setup, s: State, p: Pid)
    requires p in s.pc && s.pc[p].InCleanup() && OkEnabled(u, s, p) && Sofar(u, s, p)
    ensures var s' := ExitOk(u, s, p);
            && (s'.pc[p].InCleanup() ==> Sofar(u, s', p))
            && (!s'.pc[p].InCleanup() ==> Clean(u, s'))
  {
  }

  lemma OwnerLock(u: Setup, s: State, p: Pid, a: F.Action)
    requires p in s.pc && LockEnabled(s, p, a) && !a.IsError()
    requires s.pc[p].InCleanup() && Unhurt(s.pc[p]) && Sofar(u, s, p)
    ensures var s' := LockStep(s, p, a); s'.pc[p].InCleanup() && Sofar(u, s', p)
  {
  }

  /** A step of anyone else touches no file but a free exit lock. */
  lemma OtherStep(u: Setup, s: State, p: Pid, a: Action)
    requires Enabled(u, s, p, a) && !a.IsError() && !a.BeginInit?
    requires p in s.pc ==> !s.pc[p].InCleanup() && (s.pc[p].IsInit() ==> s.pc[p].Terminal())
    ensures var s' := Do(u, s, p, a);
            && s' == s.(pc := s'.pc, exitLock := s'.exitLock, exitWinners := s'.exitWinners)
            && s'.pc[p].Exit?
            && (p in s.pc ==> Pending(s.pc[p]))
            && (s'.pc[p].InCleanup() ==> s'.pc[p] == Exit(ExitSettle))
            && (!s.exitLock ==> Pending(s'.pc[p]) || s'.pc[p].InCleanup())
            && (s'.exitLock ==> s.exitLock || s'.pc[p].InCleanup())
  {
    if p in s.pc {
      Finished(u, s, p, a);
      if a.Ok? {
        OtherOk(u, s, p);
      }
    }
  }

  lemma OtherOk(u: Setup, s: State, p: Pid)
    requires p in s.pc && OkEnabled(u, s, p) && Pending(s.pc[p])
    ensures var s' := ExitOk(u, s, p);
            && s' == s.(pc := s'.pc, exitLock := s'.exitLock, exitWinners := s'.exitWinners)
            && (s'.pc[p].InCleanup() ==> s'.pc[p] == Exit(ExitSettle))
            && (!s.exitLock ==> Pending(s'.pc[p]) || s'.pc[p].InCleanup())
            && (s'.exitLock ==> s.exitLock || s'.pc[p].InCleanup())
  {
  }

  lemma PhaseStep(u: Setup, s: State, p: Pid, a: Action, owner: Option<Pid>) returns (owner': Option<Pid>)
    requires Phase(u, s, owner) && Enabled(u, s, p, a) && !a.IsError() && !a.BeginInit?
    ensures Phase(u, Do(u, s, p, a), owner')
    ensures owner.Some? ==> owner'.Some? || Clean(u, Do(u, s, p, a))
    ensures owner.None? && Clean(u, s) ==> owner'.Some? || Clean(u, Do(u, s, p, a))
    ensures owner.None? && HasPending(s) ==> owner'.Some? || HasPending(Do(u, s, p, a))
    ensures a.BeginExit? && owner.None? ==> HasPending(Do(u, s, p, a))
  {
    var s' := Do(u, s, p, a);
    owner' := ExitStep(u, s, p, a, false, owner);
    SoundStep(u, s, p, a);
    if owner == Some(p) {
      OwnerStep(u, s, p, a);
      OwnedStays(u, s, s', p, owner');
    } else {
      OtherStep(u, s, p, a);
      PendingStays(s, s', p, owner');
    }
  }

  lemma OwnedStays(u: Setup, s: State, s': State, p: Pid, owner': Option<Pid>)
    requires Calm(s) && p in s.pc && s.pc[p].Exit? && p in s'.pc && s'.pc == s.pc[p := s'.pc[p]] && s'.pc[p].Exit?
    requires ExitInv(s, false, Some(p)) && ExitInv(s', false, owner') && Sound(s')
    requires s'.pc[p].InCleanup() ==> Sofar(u, s', p)
    ensures Calm(s') && (owner' == None || owner' == Some(p))
    ensures owner'.Some? ==> Sofar(u, s', owner'.value)
    ensures owner'.None? ==> !s'.pc[p].InCleanup()
  {
  }

  lemma PendingStays(s: State, s': State, p: Pid, owner': Option<Pid>)
    requires p in s'.pc && s'.pc == s.pc[p := s'.pc[p]] && s'.pc[p].Exit?
    requires ExitInv(s', false, owner')
    requires !s.exitLock ==> Pending(s'.pc[p]) || s'.pc[p].InCleanup()
    ensures !s.exitLock ==> owner'.Some? || HasPending(s')
  {
    if Pending(s'.pc[p]) {
      assert HasPending(s');
    }
  }

  /** All init hooks have returned: with a cleanup that has everything it passed behind it,
      or with one to come, or with nothing left, the end is clean. */
  lemma {:induction false} CleanPhase(u: Setup, s: State, t: seq<Event>, owner: Option<Pid>)
    requires Phase(u, s, owner) && Valid(u, s, t) && ErrorFree(t) && NoInitStarts(t)
    requires owner.Some? || Clean(u, s) || HasPending(s) || Begins(t)
    requires Quiescent(After(u, s, t))
    ensures Clean(u, After(u, s, t))
    decreases |t|
  {
    if t == [] {
      if owner.Some? {
        assert false;
      }
    } else {
      var p, a := t[0].p, t[0].a;
      assert !a.IsError() && !a.BeginInit?;
      assert forall k :: 0 <= k < |t[1..]| ==> t[1..][k] == t[k + 1];
      var o := PhaseStep(u, s, p, a, owner);
      if Begins(t) && !a.BeginExit? {
        var k :| 0 <= k < |t| && t[k].a.BeginExit?;
        assert t[1..][k - 1].a.BeginExit?;
      }
      CleanPhase(u, Do(u, s, p, a), t[1..], o);
    }
  }

  // Exactly when

  predicate ShapedInv(u: Setup, s: State) {
    forall p :: p in s.pc ==> Shaped(u, s.pc[p], Stage(s, p))
  }

  lemma ShapedMove(u: Setup, s: State, p: Pid, a: Action)
    requires Enabled(u, s, p, a) && (p in s.pc ==> Shaped(u, s.pc[p], Stage(s, p)))
    ensures var s' := Do(u, s, p, a); Shaped(u, s'.pc[p], Stage(s', p))
  {
    match a
    case Ok => if s.pc[p].Exit? { ShapedOk(u, s, p); }
    case Lock(b) => ShapedLock(u, s, p, b);
    case _ =>
  }

  lemma ShapedOk(u: Setup, s: State, p: Pid)
    requires p in s.pc && s.pc[p].Exit? && OkEnabled(u, s, p) && Shaped(u, s.pc[p], Stage(s, p))
    ensures Shaped(u, ExitOk(u, s, p).pc[p], Stage(s, p))
  {
  }

  lemma ShapedLock(u: Setup, s: State, p: Pid, a: F.Action)
    requires p in s.pc && LockEnabled(s, p, a) && Shaped(u, s.pc[p], Stage(s, p))
    ensures var s' := LockStep(s, p, a); Shaped(u, s'.pc[p], Stage(s', p))
  {
  }

  lemma OthersKeepStage(u: Setup, s: State, p: Pid, a: Action)
    requires Enabled(u, s, p, a)
    ensures forall q :: q != p ==> Stage(Do(u, s, p, a), q) == Stage(s, q)
  {
    var s' := Do(u, s, p, a);
    assert a.Lock? ==> s'.lock == F.Do(s.lock, p, a.a);
    assert !a.Lock? ==> s'.lock == s.lock;
  }

  lemma {:induction false} ShapedRun(u: Setup, s: State, t: seq<Event>)
    requires Valid(u, s, t) && ShapedInv(u, s)
    ensures ShapedInv(u, After(u, s, t))
    decreases |t|
  {
    if t != [] {
      ShapedMove(u, s, t[0].p, t[0].a);
      OthersKeepStage(u, s, t[0].p, t[0].a);
      ShapedRun(u, Do(u, s, t[0].p, t[0].a), t[1..]);
    }
  }

  /** A moment at which every init hook has returned and no cleanup has failed. */
  ghost predicate Quiet(u: Setup, s: State, owner: Option<Pid>) {
    && Calm(s) && Sound(s) && ExitInv(s, false, owner) && ShapedInv(u, s) && ExitCounts(s, false)
  }

  /** What the process cleaning up has passed or, with none, everything is absent. */
  ghost predicate PassedOrClean(u: Setup, s: State, owner: Option<Pid>)
    requires owner.Some? ==> owner.value in s.pc && s.pc[owner.value].Exit?
  {
    if owner.Some? then Passed(u, s, owner.value) else Clean(u, s)
  }

  lemma OwnerBack(u: Setup, s: State, p: Pid, a: Action)
    requires Enabled(u, s, p, a) && !a.IsError()
    requires p in s.pc && s.pc[p].InCleanup() && Unhurt(s.pc[p]) && Shaped(u, s.pc[p], Stage(s, p))
    ensures var s' := Do(u, s, p, a);
            && s'.pc[p].Exit? && s'.exitWinners == s.exitWinners
            && ((if s'.pc[p].InCleanup() then Passed(u, s', p) else Clean(u, s')) ==> Passed(u, s, p))
  {
    match a
    case Ok => OwnerOkBack(u, s, p);
    case Lock(b) => OwnerLockBack(u, s, p, b);
  }

  lemma OwnerOkBack(u: Setup, s: State, p: Pid)
    requires p in s.pc && s.pc[p].InCleanup() && OkEnabled(u, s, p) && Shaped(u, s.pc[p], Stage(s, p))
    ensures var s' := ExitOk(u, s, p);
            && s'.exitWinners == s.exitWinners
            && ((if s'.pc[p].InCleanup() then Passed(u, s', p) else Clean(u, s')) ==> Passed(u, s, p))
  {
  }

  lemma OwnerLockBack(u: Setup, s: State, p: Pid, a: F.Action)
    requires p in s.pc && LockEnabled(s, p, a) && !a.IsError()
    requires s.pc[p].InCleanup() && Unhurt(s.pc[p]) && Shaped(u, s.pc[p], Stage(s, p))
    ensures var s' := LockStep(s, p, a); s'.pc[p].InCleanup() && (Passed(u, s', p) ==> Passed(u, s, p))
  {
  }

  lemma QuietStep(u: Setup, s: State, p: Pid, a: Action, owner: Option<Pid>) returns (owner': Option<Pid>)
    requires Quiet(u, s, owner) && Enabled(u, s, p, a) && !a.IsError() && !a.BeginInit?
    ensures Quiet(u, Do(u, s, p, a), owner')
    ensures owner == Some(p) ==> owner' == if Do(u, s, p, a).pc[p].InCleanup() then owner else None
    ensures owner != Some(p) ==> owner' == if Do(u, s, p, a).pc[p].InCleanup() then Some(p) else owner
  {
    owner' := ExitStep(u, s, p, a, false, owner);
    QuietParts(u, s, p, a);
    CalmStep(u, s, p, a, owner);
    var s' := Do(u, s, p, a);
    assert !Owns(s'.pc[p]) || s'.pc[p].InCleanup();
  }

  lemma QuietParts(u: Setup, s: State, p: Pid, a: Action)
    requires Enabled(u, s, p, a) && !a.IsError() && Sound(s) && ShapedInv(u, s) && ExitCounts(s, false)
    ensures var s' := Do(u, s, p, a); Sound(s') && ShapedInv(u, s') && ExitCounts(s', false)
  {
    SoundStep(u, s, p, a);
    ShapedMove(u, s, p, a);
    OthersKeepStage(u, s, p, a);
    ExitCountStep(u, s, p, a, false);
  }

  lemma CalmStep(u: Setup, s: State, p: Pid, a: Action, owner: Option<Pid>)
    requires Enabled(u, s, p, a) && !a.IsError() && !a.BeginInit? && Calm(s) && ExitInv(s, false, owner)
    ensures Calm(Do(u, s, p, a))
  {
    if owner == Some(p) {
      assert Owns(s.pc[p]);
      SameHook(u, s, p, a);
    } else {
      assert p in s.pc ==> !Owns(s.pc[p]);
      OtherStep(u, s, p, a);
    }
  }

  lemma SameHook(u: Setup, s: State, p: Pid, a: Action)
    requires p in s.pc && Enabled(u, s, p, a) && s.pc[p].Exit?
    ensures Do(u, s, p, a).pc[p].Exit?
  {
  }

  lemma ExitWon(u: Setup, s: State, p: Pid, a: Action)
    requires Enabled(u, s, p, a) && !a.IsError() && !a.BeginInit?
    requires p in s.pc ==> !s.pc[p].InCleanup() && (s.pc[p].IsInit() ==> s.pc[p].Terminal())
    ensures var s' := Do(u, s, p, a);
            s'.exitWinners == if s'.pc[p].InCleanup() then s.exitWinners + {p} else s.exitWinners
  {
    if p in s.pc {
      Finished(u, s, p, a);
      if a.Ok? {
        assert Do(u, s, p, a) == ExitOk(u, s, p);
      }
    }
  }

  /** One step, read in both directions. */
  lemma ExactStep(u: Setup, s: State, p: Pid, a: Action, owner: Option<Pid>, owner': Option<Pid>)
    requires Quiet(u, s, owner) && Enabled(u, s, p, a) && !a.IsError() && !a.BeginInit?
    requires Quiet(u, Do(u, s, p, a), owner')
    requires owner == Some(p) ==> owner' == if Do(u, s, p, a).pc[p].InCleanup() then owner else None
    requires owner != Some(p) ==> owner' == if Do(u, s, p, a).pc[p].InCleanup() then Some(p) else owner
    ensures var s' := Do(u, s, p, a);
            || (s'.exitWinners == s.exitWinners && (PassedOrClean(u, s', owner') <==> PassedOrClean(u, s, owner)))
            || (p !in s.exitWinners && s'.exitWinners == s.exitWinners + {p} && PassedOrClean(u, s', owner'))
  {
    if owner == Some(p) {
      assert Owns(s.pc[p]);
      OwnerBack(u, s, p, a);
      if Passed(u, s, p) {
        OwnerStep(u, s, p, a);
      }
    } else {
      assert p in s.pc ==> !Owns(s.pc[p]);
      OtherStep(u, s, p, a);
      ExitWon(u, s, p, a);
      OtherExact(u, s, Do(u, s, p, a), p, owner, owner');
    }
  }

  lemma OtherExact(u: Setup, s: State, s': State, p: Pid, owner: Option<Pid>, owner': Option<Pid>)
    requires ExitInv(s, false, owner) && ExitInv(s', false, owner') && ExitCounts(s, false) && Sound(s) && Sound(s')
    requires owner != Some(p) && p in s'.pc && s'.pc == s.pc[p := s'.pc[p]] && s'.pc[p].Exit?
    requires s' == s.(pc := s'.pc, exitLock := s'.exitLock, exitWinners := s'.exitWinners)
    requires p in s.pc ==> Pending(s.pc[p])
    requires s'.pc[p].InCleanup() ==> s'.pc[p] == Exit(ExitSettle)
    requires s'.exitWinners == if s'.pc[p].InCleanup() then s.exitWinners + {p} else s.exitWinners
    requires owner' == if s'.pc[p].InCleanup() then Some(p) else owner
    ensures || (s'.exitWinners == s.exitWinners && (PassedOrClean(u, s', owner') <==> PassedOrClean(u, s, owner)))
            || (p !in s.exitWinners && s'.exitWinners == s.exitWinners + {p} && PassedOrClean(u, s', owner'))
  {
    if s'.pc[p].InCleanup() {
      assert p !in s.exitWinners;
    } else if owner.Some? {
      SameFiles(u, s, s', p, owner.value);
    }
  }

  lemma SameFiles(u: Setup, s: State, s': State, p: Pid, q: Pid)
    requires p in s'.pc && s'.pc == s.pc[p := s'.pc[p]] && p != q && q in s.pc && s.pc[q].Exit?
    requires s' == s.(pc := s'.pc, exitLock := s'.exitLock, exitWinners := s'.exitWinners)
    ensures Passed(u, s', q) <==> Passed(u, s, q)
  {
  }

  /** All init hooks have returned: the end is clean exactly if another cleanup begins, or
      all the one going on has passed is still absent, or none is going on and all is
      absent already. */
  lemma {:induction false} ExactRun(u: Setup, s: State, t: seq<Event>, owner: Option<Pid>)
    requires Quiet(u, s, owner) && Valid(u, s, t) && ErrorFree(t) && NoInitStarts(t)
    requires Quiescent(After(u, s, t))
    ensures s.exitWinners <= After(u, s, t).exitWinners
    ensures Clean(u, After(u, s, t)) <==>
              After(u, s, t).exitWinners != s.exitWinners || PassedOrClean(u, s, owner)
    decreases |t|
  {
    if t == [] {
      if owner.Some? {
        assert false;
      }
    } else {
      var p, a := t[0].p, t[0].a;
      assert !a.IsError() && !a.BeginInit?;
      assert forall k :: 0 <= k < |t[1..]| ==> t[1..][k] == t[k + 1];
      var o := QuietStep(u, s, p, a, owner);
      ExactStep(u, s, p, a, owner, o);
      ExactRun(u, Do(u, s, p, a), t[1..], o);
    }
  }

  predicate Cleaning(s: State, q: Pid) {
    q in s.pc && s.pc[q].InCleanup()
  }

  ghost predicate Calmed(u: Setup, s0: State, t: seq<Event>, t': seq<Event>) {
    && Start(s0) && !s0.exitLock && Valid(u, s0, t) && Valid(u, After(u, s0, t), t')
    && Calm(After(u, s0, t)) && Sound(After(u, s0, t))
    && ErrorFree(t') && NoInitStarts(t') && Quiescent(After(u, After(u, s0, t), t'))
  }

  lemma {:induction false} CalmedQuiet(u: Setup, s0: State, t: seq<Event>, t': seq<Event>) returns (owner: Option<Pid>)
    requires Calmed(u, s0, t, t')
    ensures Quiet(u, After(u, s0, t), owner)
    ensures forall q: Pid :: Cleaning(After(u, s0, t), q) <==> owner == Some(q)
  {
    owner := ExitRun(u, s0, t, false, None);
    ShapedRun(u, s0, t);
    ExitCountRun(u, s0, t, false);
  }

  /** Exactly when the worker is clean in the end, seen from any moment at which every init
      hook has returned and no cleanup has failed: another cleanup begins after that
      moment; or one is going on, and every file it has already passed is still absent; or
      none is going on and nothing is left. */
  lemma {:induction false} CleanIff(u: Setup, s0: State, t: seq<Event>, t': seq<Event>)
    requires Calmed(u, s0, t, t')
    ensures var s, end := After(u, s0, t), After(u, After(u, s0, t), t');
            Clean(u, end) <==>
              || end.exitWinners != s.exitWinners
              || (exists q :: Cleaning(s, q) && Passed(u, s, q))
              || ((forall q :: !Cleaning(s, q)) && Clean(u, s))
  {
    var owner := CalmedQuiet(u, s0, t, t');
    ExactRun(u, After(u, s0, t), t', owner);
    if owner.Some? {
      assert Cleaning(After(u, s0, t), owner.value);
    }
  }

  /** From any moment at which every init hook has returned and no cleanup has failed: if
      every file that a cleanup going on has passed is still absent, and there is such a
      cleanup or one to come or nothing is left, the end is clean. */
  lemma {:induction false} CleanRun(u: Setup, s0: State, t: seq<Event>, t': seq<Event>)
    requires Calmed(u, s0, t, t')
    requires var s := After(u, s0, t);
             && PassedByAll(u, s)
             && ((exists q :: Cleaning(s, q)) || Clean(u, s) || HasPending(s) || Begins(t'))
    ensures Clean(u, After(u, After(u, s0, t), t'))
  {
    var owner := CalmedQuiet(u, s0, t, t');
    var s := After(u, s0, t);
    if owner.Some? {
      OwnerPassed(u, s, owner.value);
    }
    CleanPhase(u, s, t', owner);
  }

  /** Whoever is cleaning up has everything it passed behind it. */
  ghost predicate PassedByAll(u: Setup, s: State) {
    forall q :: Cleaning(s, q) ==> Passed(u, s, q)
  }

  lemma OwnerPassed(u: Setup, s: State, q: Pid)
    requires PassedByAll(u, s) && Cleaning(s, q)
    ensures Passed(u, s, q)
  {
  }

  /** The same where the moment alone decides. During a cleanup with no other exit hook to
      come: exactly if every file it has passed is still absent, that is, no init hook has
      made one again. With no cleanup going on: exactly if an exit hook is still to come or
      nothing is left. */
  lemma {:induction false} CleanDecided(u: Setup, s0: State, t: seq<Event>, t': seq<Event>)
    requires Calmed(u, s0, t, t')
    ensures var s, end := After(u, s0, t), After(u, After(u, s0, t), t');
            && (forall q :: Cleaning(s, q) && !HasPending(s) && !Begins(t') ==>
                  (Clean(u, end) <==> Passed(u, s, q)))
            && ((forall q :: !Cleaning(s, q)) ==>
                  (Clean(u, end) <==> Clean(u, s) || HasPending(s) || Begins(t')))
  {
    var s := After(u, s0, t);
    var owner := CalmedQuiet(u, s0, t, t');
    ExactRun(u, s, t', owner);
    if owner.Some? {
      assert Cleaning(s, owner.value);
      if !HasPending(s) && !Begins(t') {
        NobodyElse(u, s, t', owner);
      }
    } else if HasPending(s) || Begins(t') {
      CleanPhase(u, s, t', owner);
    } else {
      NobodyElse(u, s, t', owner);
    }
  }

  /** With no exit hook pending or beginning, no further cleanup begins. */
  lemma {:induction false} NobodyElse(u: Setup, s: State, t: seq<Event>, owner: Option<Pid>)
    requires Quiet(u, s, owner) && Valid(u, s, t) && ErrorFree(t) && NoInitStarts(t)
    requires !HasPending(s) && !Begins(t)
    ensures After(u, s, t).exitWinners == s.exitWinners
    decreases |t|
  {
    if t != [] {
      var p, a := t[0].p, t[0].a;
      assert !a.IsError() && !a.BeginInit? && !a.BeginExit?;
      assert forall k :: 0 <= k < |t[1..]| ==> t[1..][k] == t[k + 1];
      var o := QuietStep(u, s, p, a, owner);
      OnlyOwner(u, s, p, a, owner);
      NobodyElse(u, Do(u, s, p, a), t[1..], o);
    }
  }

  lemma OnlyOwner(u: Setup, s: State, p: Pid, a: Action, owner: Option<Pid>)
    requires Quiet(u, s, owner) && Enabled(u, s, p, a) && !a.IsError() && !a.BeginInit? && !a.BeginExit?
    requires !HasPending(s)
    ensures Do(u, s, p, a).exitWinners == s.exitWinners && !HasPending(Do(u, s, p, a))
  {
    if owner == Some(p) {
      assert Owns(s.pc[p]);
      OwnerBack(u, s, p, a);
      NotPending(u, s, p, a);
    } else {
      assert p in s.pc ==> !Owns(s.pc[p]);
      OtherStep(u, s, p, a);
      assert false;
    }
  }

  lemma NotPending(u: Setup, s: State, p: Pid, a: Action)
    requires Enabled(u, s, p, a) && p in s.pc && s.pc[p].InCleanup()
    ensures !Pending(Do(u, s, p, a).pc[p])
  {
  }

  /** What a cleanup has passed comes back only through an init hook. */
  lemma OnlyInitsUndo(u: Setup, s: State, p: Pid, a: Action, q: Pid)
    requires Enabled(u, s, p, a) && p != q && Cleaning(s, q) && Passed(u, s, q)
    requires p in s.pc ==> !s.pc[p].InCleanup()
    ensures Passed(u, Do(u, s, p, a), q) || (p in s.pc && s.pc[p].IsInit())
  {
    var s' := Do(u, s, p, a);
    assert s'.pc[q] == s.pc[q];
    OthersKeepStage(u, s, p, a);
    if !(p in s.pc && s.pc[p].IsInit()) {
      NoFileMade(u, s, p, a);
    }
  }

  lemma NoFileMade(u: Setup, s: State, p: Pid, a: Action)
    requires Enabled(u, s, p, a) && (p in s.pc ==> !s.pc[p].IsInit() && !s.pc[p].InCleanup())
    ensures var s' := Do(u, s, p, a);
            s'.mount == s.mount && s'.lock == s.lock && s'.userLock == s.userLock && s'.initLock == s.initLock
  {
  }

  /** All init hooks before any exit hook: whatever errors the init hooks met and whatever
      was left from earlier, the last exit hook leaves no worker lock, no mount file and
      no transient lock. */
  lemma {:induction false} CleanAfterLastExit(u: Setup, s0: State, t: seq<Event>, t': seq<Event>)
    requires Start(s0) && !s0.exitLock && Valid(u, s0, t) && Valid(u, After(u, s0, t), t')
    requires !Begins(t) && Calm(After(u, s0, t))
    requires NoInitStarts(t') && ErrorFree(t') && Begins(t')
    requires Quiescent(After(u, After(u, s0, t), t'))
    ensures Clean(u, After(u, After(u, s0, t), t'))
  {
    var s := After(u, s0, t);
    var owner := ExitRun(u, s0, t, false, None);
    NoExits(u, s0, t);
    if owner.Some? {
      assert Owns(s.pc[owner.value]);
    }
    CleanPhase(u, s, t', None);
  }

  lemma {:induction false} NoExits(u: Setup, s: State, t: seq<Event>)
    requires Valid(u, s, t) && !Begins(t) && forall p :: p in s.pc ==> s.pc[p].IsInit()
    ensures forall p :: p in After(u, s, t).pc ==> After(u, s, t).pc[p].IsInit()
    decreases |t|
  {
    if t != [] {
      assert !t[0].a.BeginExit?;
      StaysInit(u, s, t[0].p, t[0].a);
      assert forall k :: 0 <= k < |t[1..]| ==> t[1..][k] == t[k + 1];
      NoExits(u, Do(u, s, t[0].p, t[0].a), t[1..]);
    }
  }

  lemma StaysInit(u: Setup, s: State, p: Pid, a: Action)
    requires Enabled(u, s, p, a) && !a.BeginExit? && (p in s.pc ==> s.pc[p].IsInit())
    ensures Do(u, s, p, a).pc[p].IsInit()
  {
  }
}
