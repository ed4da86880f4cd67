/** The transient file lock of `snccliprecon_with_lock`: any number of calls on one
    path, each system call an atomic step, with the error exits the code has.

    The lock file `<path>.lock` is a directory entry that denotes an inode. A call
    opens (and possibly creates) it, fixes its mode, takes an exclusive `flock` on the
    inode, runs the callback, unlocks, unlinks the name and closes. Because the name
    goes away while others may still wait on the old inode, the lock is not a mutex;
    the theorems say exactly how far from one it is. */
module Flock {
  import opened Wrappers

  type Pid = nat
  type Inode = nat

  /** Where one call stands. `unlinked` records whether its own `unlink` left the name
      absent (success or ENOENT) or failed for another reason. */
  datatype Pc =
    | Opened(ino: Inode)
    | ModeChecked(ino: Inode)
    | Holding(ino: Inode)                      // the callback runs here
    | Unlocked(ino: Inode)
    | Unlinked(ino: Inode, unlinked: bool)
    | NotOpened                                // returned -1, `open` failed
    | Abandoned                                // returned -1 after a successful `open`
    | Returned(unlinked: bool)                 // returned the callback's code
  {
    predicate HasFd() {
      Opened? || ModeChecked? || Holding? || Unlocked? || Unlinked?
    }

    predicate MayHold() {
      Holding? || Unlocked? || Unlinked?
    }

    predicate Terminal() {
      !HasFd()
    }

    predicate DidUnlink() {
      (Unlinked? || Returned?) && unlinked
    }
  }

  datatype Action =
    | OpenOk | OpenFail
    | ModeOk | ModeFail
    | FlockOk | FlockFail
    | UnlockOk | UnlockFail
    | UnlinkOk | UnlinkFail
    | Close
  {
    predicate IsError() {
      OpenFail? || ModeFail? || FlockFail? || UnlockFail? || UnlinkFail?
    }
  }

  /** `creator[i]` is the call whose `open` made inode `i`, or None for a lock file left
      from before; its length counts the inodes the name has ever denoted. `unlinkers`
      are the calls whose `unlink` removed the name. */
  datatype State = State(
    name: Option<Inode>,
    creator: seq<Option<Pid>>,
    holder: map<Inode, Pid>,
    pc: map<Pid, Pc>,
    unlinkers: set<Pid>)

  predicate Init(s: State) {
    && s.pc == map[] && s.holder == map[] && s.unlinkers == {}
    && (|| (s.name == None && s.creator == [])
        || (s.name == Some(0) && s.creator == [None]))
  }

  // Steps

  predicate Enabled(s: State, p: Pid, a: Action) {
    match a
    case OpenOk | OpenFail => p !in s.pc
    case ModeOk | ModeFail => p in s.pc && s.pc[p].Opened?
    case FlockOk => p in s.pc && s.pc[p].ModeChecked? && s.pc[p].ino !in s.holder
    case FlockFail => p in s.pc && s.pc[p].ModeChecked?
    case UnlockOk | UnlockFail => p in s.pc && s.pc[p].Holding?
    case UnlinkOk | UnlinkFail => p in s.pc && s.pc[p].Unlocked?
    case Close => p in s.pc && s.pc[p].Unlinked?
  }

  /** The lock is dropped by LOCK_UN and, should that fail, by closing the descriptor. */
  function Release(s: State, p: Pid, i: Inode): map<Inode, Pid> {
    if i in s.holder && s.holder[i] == p then s.holder - {i} else s.holder
  }

  function Do(s: State, p: Pid, a: Action): State
    requires Enabled(s, p, a)
  {
    match a
    case OpenOk =>
      (match s.name
       case Some(i) => s.(pc := s.pc[p := Opened(i)])
       case None => s.(name := Some(|s.creator|), creator := s.creator + [Some(p)],
                       pc := s.pc[p := Opened(|s.creator|)]))
    case OpenFail => s.(pc := s.pc[p := NotOpened])
    case ModeOk => s.(pc := s.pc[p := ModeChecked(s.pc[p].ino)])
    case ModeFail => s.(pc := s.pc[p := Abandoned])
    case FlockOk => s.(holder := s.holder[s.pc[p].ino := p], pc := s.pc[p := Holding(s.pc[p].ino)])
    case FlockFail => s.(pc := s.pc[p := Abandoned])
    case UnlockOk => s.(holder := Release(s, p, s.pc[p].ino), pc := s.pc[p := Unlocked(s.pc[p].ino)])
    case UnlockFail => s.(pc := s.pc[p := Unlocked(s.pc[p].ino)])
    case UnlinkOk =>
      s.(name := None,
         unlinkers := if s.name.Some? then s.unlinkers + {p} else s.unlinkers,
         pc := s.pc[p := Unlinked(s.pc[p].ino, true)])
    case UnlinkFail => s.(pc := s.pc[p := Unlinked(s.pc[p].ino, false)])
    case Close =>
      s.(holder := Release(s, p, s.pc[p].ino), pc := s.pc[p := Returned(s.pc[p].unlinked)])
  }

  // Runs

  datatype Event = Event(p: Pid, a: Action)

  predicate Valid(s: State, t: seq<Event>)
    decreases |t|
  {
    t == [] || (Enabled(s, t[0].p, t[0].a) && Valid(Do(s, t[0].p, t[0].a), t[1..]))
  }

  function After(s: State, t: seq<Event>): State
    requires Valid(s, t)
    decreases |t|
  {
    if t == [] then s else After(Do(s, t[0].p, t[0].a), t[1..])
  }

  ghost predicate Reachable(s: State) {
    exists s0, t :: Init(s0) && Valid(s0, t) && After(s0, t) == s
  }

  lemma {:induction false} RunConcat(s: State, t: seq<Event>, u: seq<Event>)
    requires Valid(s, t) && Valid(After(s, t), u)
    ensures Valid(s, t + u) && After(s, t + u) == After(After(s, t), u)
    decreases |t|
  {
    if t == [] {
      assert t + u == u;
    } else {
      RunConcat(Do(s, t[0].p, t[0].a), t[1..], u);
      assert (t + u)[0] == t[0] && (t + u)[1..] == t[1..] + u;
    }
  }

  // The inductive invariant

  predicate HolderInv(s: State) {
    && (forall p :: p in s.pc && s.pc[p].HasFd() ==> s.pc[p].ino < |s.creator|)
    && (forall i :: i in s.holder ==>
          s.holder[i] in s.pc && s.pc[s.holder[i]].MayHold() && s.pc[s.holder[i]].ino == i)
    && (forall p :: p in s.pc && s.pc[p].Holding? ==>
          s.pc[p].ino in s.holder && s.holder[s.pc[p].ino] == p)
  }

  predicate NameInv(s: State) {
    && (s.name.Some? ==> s.name.value < |s.creator|)
    && |s.creator| == |s.unlinkers| + (if s.name.Some? then 1 else 0)
    && (forall p :: p in s.unlinkers ==> p in s.pc && s.pc[p].DidUnlink())
    && (forall i :: 0 <= i < |s.creator| && s.creator[i].Some? ==>
          s.creator[i].value in s.pc && !s.pc[s.creator[i].value].NotOpened?)
    && (s.name.Some? && s.creator[s.name.value].Some? ==>
          !s.pc[s.creator[s.name.value].value].DidUnlink())
  }

  predicate Inv(s: State) {
    HolderInv(s) && NameInv(s)
  }

  lemma StepHolder(s: State, p: Pid, a: Action)
    requires HolderInv(s) && Enabled(s, p, a) && (a.OpenOk? && s.name.Some? ==> s.name.value < |s.creator|)
    ensures HolderInv(Do(s, p, a))
  {
    match a
    case OpenOk =>
    case UnlockOk =>
    case Close =>
    case _ =>
  }

  lemma StepName(s: State, p: Pid, a: Action)
    requires NameInv(s) && Enabled(s, p, a)
    ensures NameInv(Do(s, p, a))
  {
    match a
    case OpenOk => OpenName(s, p);
    case UnlinkOk =>
      assert p !in s.unlinkers;
    case Close =>
    case _ =>
  }

  lemma OpenName(s: State, p: Pid)
    requires NameInv(s) && p !in s.pc
    ensures NameInv(Do(s, p, OpenOk))
  {
  }

  lemma StepInv(s: State, p: Pid, a: Action)
    requires Inv(s) && Enabled(s, p, a)
    ensures Inv(Do(s, p, a))
  {
    StepHolder(s, p, a);
    StepName(s, p, a);
  }

  lemma {:induction false} RunInv(s: State, t: seq<Event>)
    requires Inv(s) && Valid(s, t)
    ensures Inv(After(s, t))
    decreases |t|
  {
    if t != [] {
      StepInv(s, t[0].p, t[0].a);
      RunInv(Do(s, t[0].p, t[0].a), t[1..]);
    }
  }

  lemma ReachableInv(s: State)
    requires Reachable(s)
    ensures Inv(s)
  {
    var s0, t :| Init(s0) && Valid(s0, t) && After(s0, t) == s;
    RunInv(s0, t);
  }

  // How many callbacks can run at once

  function Callbacks(s: State): set<Pid> {
    set p | p in s.pc && s.pc[p].Holding?
  }

  /** An injective map into the numbers below n has at most n entries. */
  lemma {:induction false} Pigeonhole(m: map<Pid, nat>, n: nat)
    requires forall p :: p in m ==> m[p] < n
    requires forall p, q :: p in m && q in m && m[p] == m[q] ==> p == q
    ensures |m| <= n
    decreases n
  {
    if p :| p in m && m[p] == n - 1 {
      var rest := m - {p};
      Pigeonhole(rest, n - 1);
      assert m == rest[p := m[p]];
    } else if n == 0 {
      assert m == map[];
    } else {
      Pigeonhole(m, n - 1);
    }
  }

  /** Each inode has at most one holder; callbacks running together sit on distinct inodes. */
  lemma OneHolderPerInode(s: State, p: Pid, q: Pid)
    requires Reachable(s)
    requires p in Callbacks(s) && q in Callbacks(s) && s.pc[p].ino == s.pc[q].ino
    ensures p == q
  {
    ReachableInv(s);
  }

  lemma CallbacksBelowInodes(s: State)
    requires Inv(s)
    ensures |Callbacks(s)| <= |s.creator|
  {
    var m := map p | p in Callbacks(s) :: s.pc[p].ino;
    assert m.Keys == Callbacks(s);
    Pigeonhole(m, |s.creator|);
  }

  /** The quantitative bound: callbacks running at once are at most one more than the
      effective unlinks so far, and at most half of one more than the calls ever made. */
  lemma CallbackBound(s: State)
    requires Reachable(s)
    ensures |s.creator| == |s.unlinkers| + (if s.name.Some? then 1 else 0)
    ensures |Callbacks(s)| <= 1 + |s.unlinkers|
    ensures 2 * |Callbacks(s)| <= 1 + |s.pc|
  {
    ReachableInv(s);
    CallbacksBelowInodes(s);
    var c, u := Callbacks(s), s.unlinkers;
    assert c !! u && c + u <= s.pc.Keys;
    SubsetSize(c + u, s.pc.Keys);
    assert |c + u| == |c| + |u|;
  }

  lemma {:induction false} SubsetSize<T>(a: set<T>, b: set<T>)
    requires a <= b
    ensures |a| <= |b|
    decreases a
  {
    if x :| x in a {
      SubsetSize(a - {x}, b - {x});
    }
  }

  /** With at most two calls on the path the lock is a mutex after all. */
  lemma TwoCallsExclude(s: State, p: Pid, q: Pid)
    requires Reachable(s) && |s.pc| <= 2
    requires p in Callbacks(s) && q in Callbacks(s)
    ensures p == q
  {
    CallbackBound(s);
    SubsetSize({p, q}, Callbacks(s));
  }

  // The bound is reached

  lemma {:induction false} OneEvent(s: State, p: Pid, a: Action)
    requires Enabled(s, p, a)
    ensures Valid(s, [Event(p, a)]) && After(s, [Event(p, a)]) == Do(s, p, a)
  {
    var u := [Event(p, a)];
    assert u[1..] == [];
    assert Valid(Do(s, p, a), u[1..]);
  }

  lemma ReachStep(s: State, p: Pid, a: Action)
    requires Reachable(s) && Enabled(s, p, a)
    ensures Reachable(Do(s, p, a))
  {
    var s0, t :| Init(s0) && Valid(s0, t) && After(s0, t) == s;
    OneEvent(s, p, a);
    RunConcat(s0, t, [Event(p, a)]);
  }

  /** A call finds no lock file, makes one and starts its callback. */
  lemma Newcomer(s: State, p: Pid) returns (s': State)
    requires Reachable(s) && s.name == None && p !in s.pc
    ensures Reachable(s') && s'.name == Some(|s.creator|) && s'.pc == s.pc[p := Holding(|s.creator|)]
  {
    ReachableInv(s);
    var n := |s.creator|;
    assert n !in s.holder;
    var s1 := Do(s, p, OpenOk);
    ReachStep(s, p, OpenOk);
    var s2 := Do(s1, p, ModeOk);
    ReachStep(s1, p, ModeOk);
    s' := Do(s2, p, FlockOk);
    ReachStep(s2, p, FlockOk);
    assert s'.pc == s.pc[p := Holding(n)];
  }

  /** q opens the inode the name denotes and waits. */
  lemma Waiter(s: State, q: Pid) returns (s': State)
    requires Reachable(s) && s.name.Some? && q !in s.pc
    ensures Reachable(s') && s' == s.(pc := s.pc[q := ModeChecked(s.name.value)])
  {
    var s1 := Do(s, q, OpenOk);
    ReachStep(s, q, OpenOk);
    s' := Do(s1, q, ModeOk);
    ReachStep(s1, q, ModeOk);
    assert s'.pc == s.pc[q := ModeChecked(s.name.value)];
  }

  /** q gets the lock as p unlocks. */
  lemma HandOver(s: State, p: Pid, q: Pid) returns (s': State)
    requires Reachable(s) && s.name.Some? && p in s.pc && q in s.pc && p != q
    requires s.pc[p] == Holding(s.name.value) && s.pc[q] == ModeChecked(s.name.value)
    ensures Reachable(s') && s'.name == s.name
    ensures s'.pc == s.pc[p := Unlocked(s.name.value)][q := Holding(s.name.value)]
  {
    ReachableInv(s);
    var s1 := Do(s, p, UnlockOk);
    ReachStep(s, p, UnlockOk);
    assert s.name.value !in s1.holder;
    s' := Do(s1, q, FlockOk);
    ReachStep(s1, q, FlockOk);
  }

  /** p removes the name, under the feet of whoever holds the inode now. */
  lemma Leave(s: State, p: Pid) returns (s': State)
    requires Reachable(s) && p in s.pc && s.pc[p].Unlocked?
    ensures Reachable(s') && s'.name == None && s'.pc == s.pc[p := Returned(true)]
  {
    var s1 := Do(s, p, UnlinkOk);
    ReachStep(s, p, UnlinkOk);
    s' := Do(s1, p, Close);
    ReachStep(s1, p, Close);
    assert s'.pc == s.pc[p := Returned(true)];
  }

  /** Two more calls, one more callback that is still running, and again no name. */
  lemma Round(s: State, p: Pid, q: Pid) returns (s': State)
    requires Reachable(s) && s.name == None && p !in s.pc && q !in s.pc && p != q
    ensures Reachable(s') && s'.name == None
    ensures s'.pc == s.pc[p := Returned(true)][q := Holding(|s.creator|)]
  {
    var s2 := Meet(s, p, q);
    var s3 := HandOver(s2, p, q);
    s' := Leave(s3, p);
  }

  lemma Meet(s: State, p: Pid, q: Pid) returns (s': State)
    requires Reachable(s) && s.name == None && p !in s.pc && q !in s.pc && p != q
    ensures Reachable(s') && s'.name == Some(|s.creator|)
    ensures s'.pc == s.pc[p := Holding(|s.creator|)][q := ModeChecked(|s.creator|)]
  {
    var s1 := Newcomer(s, p);
    s' := Waiter(s1, q);
  }

  lemma {:induction false} BuildTower(c: nat) returns (s: State)
    ensures Reachable(s) && s.name == None && |s.pc| == 2*c && |Callbacks(s)| == c
    ensures forall p :: p in s.pc ==> p < 2*c
  {
    if c == 0 {
      s := State(None, [], map[], map[], {});
      assert Init(s) && Valid(s, []) && After(s, []) == s;
    } else {
      var b := BuildTower(c - 1);
      var p, q := 2*c - 2, 2*c - 1;
      s := Round(b, p, q);
      Grown(b, s, p, q);
    }
  }

  lemma Grown(b: State, s: State, p: Pid, q: Pid)
    requires p !in b.pc && q !in b.pc && p != q
    requires s.pc == b.pc[p := Returned(true)][q := Holding(|b.creator|)]
    ensures |s.pc| == |b.pc| + 2 && |Callbacks(s)| == |Callbacks(b)| + 1
  {
    assert Callbacks(s) == Callbacks(b) + {q};
  }

  /** The bound is exact: for every c there is a run of only 2c - 1 calls in which c
      callbacks run at the same time. */
  lemma BoundIsTight(c: nat) returns (s: State)
    requires c > 0
    ensures Reachable(s) && |s.pc| == 2*c - 1 && |Callbacks(s)| == c
  {
    var b := BuildTower(c - 1);
    var p := 2*c - 2;
    s := Newcomer(b, p);
    assert Callbacks(s) == Callbacks(b) + {p};
    assert s.pc.Keys == b.pc.Keys + {p};
  }

  /** Exactly how many calls a path can see before the lock stops excluding: two. */
  lemma ExclusionIff(n: nat)
    ensures (forall s: State :: Reachable(s) && |s.pc| <= n ==> |Callbacks(s)| <= 1) <==> n <= 2
  {
    if n <= 2 {
      forall s: State | Reachable(s) && |s.pc| <= n
        ensures |Callbacks(s)| <= 1
      {
        CallbackBound(s);
      }
    } else {
      var s := BoundIsTight(2);
      assert |s.pc| <= n && |Callbacks(s)| == 2;
    }
  }

  // How long a call can wait

  /** Calls that have inode i open and have yet to get its lock. */
  function Awaiting(s: State, i: Inode): set<Pid> {
    set p | p in s.pc && (s.pc[p].Opened? || s.pc[p].ModeChecked?) && s.pc[p].ino == i
  }

  /** How often the lock of inode i is handed out in a run. */
  function Acquisitions(s: State, t: seq<Event>, i: Inode): nat
    requires Valid(s, t)
    decreases |t|
  {
    if t == [] then 0
    else
      (if t[0].a.FlockOk? && s.pc[t[0].p].ino == i then 1 else 0)
      + Acquisitions(Do(s, t[0].p, t[0].a), t[1..], i)
  }

  lemma NobodyJoins(s: State, p: Pid, a: Action, i: Inode)
    requires Enabled(s, p, a) && i < |s.creator| && s.name != Some(i)
    ensures Do(s, p, a).name != Some(i) && i < |Do(s, p, a).creator|
    ensures Awaiting(Do(s, p, a), i) <= Awaiting(s, i)
    ensures a.FlockOk? && s.pc[p].ino == i ==> p in Awaiting(s, i) && p !in Awaiting(Do(s, p, a), i)
  {
  }

  /** Once the name no longer denotes an inode, which it stops doing with the first unlink,
      nobody joins those who wait on it, and each of them gets its lock at most once: a
      waiting call is overtaken by fewer calls than are waiting with it, whatever the order
      in which the kernel grants the lock. */
  lemma {:induction false} WaitingBounded(s: State, t: seq<Event>, i: Inode)
    requires Valid(s, t) && i < |s.creator| && s.name != Some(i)
    ensures Awaiting(After(s, t), i) <= Awaiting(s, i)
    ensures Acquisitions(s, t, i) + |Awaiting(After(s, t), i)| <= |Awaiting(s, i)|
    decreases |t|
  {
    if t != [] {
      var p, a := t[0].p, t[0].a;
      var s' := Do(s, p, a);
      NobodyJoins(s, p, a, i);
      if a.FlockOk? && s.pc[p].ino == i {
        SubsetSize(Awaiting(s', i), Awaiting(s, i) - {p});
      } else {
        SubsetSize(Awaiting(s', i), Awaiting(s, i));
      }
      WaitingBounded(s', t[1..], i);
    }
  }

  // What is left behind

  predicate Quiescent(s: State) {
    forall p :: p in s.pc ==> s.pc[p].Terminal()
  }

  /** If the lock name exists, the call that created its inode has not removed the name;
      once every call has returned, a name that is left was left by a call that failed
      after its `open` or in its `unlink`, or was there from before. */
  lemma NoResidue(s: State)
    requires Reachable(s) && s.name.Some?
    ensures s.name.value < |s.creator|
    ensures s.creator[s.name.value].Some? ==>
              var p := s.creator[s.name.value].value;
              && p in s.pc && !s.pc[p].DidUnlink()
              && (Quiescent(s) ==> s.pc[p] == Abandoned || s.pc[p] == Returned(false))
  {
    ReachableInv(s);
  }

  predicate StrandsLock(a: Action) {
    a.ModeFail? || a.FlockFail? || a.UnlinkFail?
  }

  predicate Unfaulted(s: State) {
    && (forall p :: p in s.pc ==> !s.pc[p].Abandoned?)
    && (forall p :: p in s.pc && (s.pc[p].Unlinked? || s.pc[p].Returned?) ==> s.pc[p].unlinked)
    && (forall i :: 0 <= i < |s.creator| ==> s.creator[i].Some?)
  }

  lemma {:induction false} UnfaultedRun(s: State, t: seq<Event>)
    requires Unfaulted(s) && Valid(s, t)
    requires forall k :: 0 <= k < |t| ==> !StrandsLock(t[k].a)
    ensures Unfaulted(After(s, t))
    decreases |t|
  {
    if t != [] {
      assert !StrandsLock(t[0].a);
      UnfaultedRun(Do(s, t[0].p, t[0].a), t[1..]);
    }
  }

  /** Starting with no lock file and with no error after an `open`, the lock file is gone
      once every call has returned, however many calls there were. */
  lemma {:induction false} NoErrorsNoResidue(s0: State, t: seq<Event>)
    requires Init(s0) && s0.name == None && Valid(s0, t)
    requires forall k :: 0 <= k < |t| ==> !StrandsLock(t[k].a)
    requires Quiescent(After(s0, t))
    ensures After(s0, t).name == None
  {
    var s := After(s0, t);
    UnfaultedRun(s0, t);
    assert Reachable(s);
    if s.name.Some? {
      NoResidue(s);
    }
  }

  /** The hypothesis is needed: one call that cannot fix the mode leaves the file. */
  lemma ModeErrorLeavesResidue() returns (s: State)
    ensures Reachable(s) && Quiescent(s) && s.name.Some? && |s.pc| == 1
  {
    s := ResidueRun(ModeFail);
    var s0, t :| Leaves(s0, t, {ModeFail}) && After(s0, t) == s;
  }

  // Exactly which errors leave the file behind

  /** From no lock file, with no errors but the allowed ones. */
  ghost predicate Allowed(s0: State, t: seq<Event>, allowed: set<Action>) {
    && Init(s0) && s0.name == None && Valid(s0, t)
    && forall k :: 0 <= k < |t| && t[k].a.IsError() ==> t[k].a in allowed
  }

  /** A run of complete calls that leaves the lock file. */
  ghost predicate Leaves(s0: State, t: seq<Event>, allowed: set<Action>) {
    Allowed(s0, t, allowed) && Quiescent(After(s0, t)) && After(s0, t).name.Some?
  }

  lemma AllowedStep(s0: State, t: seq<Event>, allowed: set<Action>, p: Pid, a: Action) returns (t': seq<Event>)
    requires Allowed(s0, t, allowed) && Enabled(After(s0, t), p, a) && (a.IsError() ==> a in allowed)
    ensures Allowed(s0, t', allowed) && After(s0, t') == Do(After(s0, t), p, a)
  {
    OneEvent(After(s0, t), p, a);
    RunConcat(s0, t, [Event(p, a)]);
    t' := t + [Event(p, a)];
  }

  /** One call on an empty path that meets the error `bad`. */
  lemma ResidueRun(bad: Action) returns (s: State)
    requires StrandsLock(bad)
    ensures exists s0, t :: Leaves(s0, t, {bad}) && After(s0, t) == s
    ensures Reachable(s) && |s.pc| == 1
  {
    var s0 := State(None, [], map[], map[], {});
    var t := AllowedStep(s0, [], {bad}, 0, OpenOk);
    if !bad.ModeFail? {
      t := AllowedStep(s0, t, {bad}, 0, ModeOk);
    }
    if bad.UnlinkFail? {
      t := UpToUnlink(s0, t, bad);
    }
    t := AllowedStep(s0, t, {bad}, 0, bad);
    if bad.UnlinkFail? {
      t := AllowedStep(s0, t, {bad}, 0, Close);
    }
    s := After(s0, t);
    assert Leaves(s0, t, {bad});
  }

  lemma UpToUnlink(s0: State, t: seq<Event>, bad: Action) returns (t': seq<Event>)
    requires Allowed(s0, t, {bad})
    requires var s := After(s0, t); s.name == Some(0) && s.pc == map[0 := ModeChecked(0)] && s.holder == map[]
    ensures Allowed(s0, t', {bad})
    ensures var s := After(s0, t'); s.name == Some(0) && s.pc == map[0 := Unlocked(0)] && s.holder == map[]
  {
    t' := AllowedStep(s0, t, {bad}, 0, FlockOk);
    t' := AllowedStep(s0, t', {bad}, 0, UnlockOk);
  }

  /** Whatever errors are allowed, some run of complete calls leaves the lock file exactly
      if one of three is: a call that cannot fix the mode, cannot take the lock, or cannot
      unlink the name. Failing to open or to unlock is harmless. */
  lemma ResidueIff(allowed: set<Action>)
    ensures (exists s0, t :: Leaves(s0, t, allowed)) <==> exists a :: a in allowed && StrandsLock(a)
  {
    if bad :| bad in allowed && StrandsLock(bad) {
      var s := ResidueRun(bad);
      var s0, t :| Leaves(s0, t, {bad}) && After(s0, t) == s;
      assert Leaves(s0, t, allowed);
    } else {
      forall s0, t | Allowed(s0, t, allowed) && Quiescent(After(s0, t))
        ensures After(s0, t).name == None
      {
        NoErrorsNoResidue(s0, t);
      }
    }
  }
}
