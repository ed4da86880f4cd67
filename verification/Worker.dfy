/** The hooks as their code runs: system calls on the files of one worker that answer with
    codes, branches on those codes, and between any two calls arbitrary steps of the other
    processes.

    `disk` is what the kernel keeps; the hooks reach it only through the calls. `m` is the
    machine of `Hooks` and `log` the run that led there. Next to each call of the code
    stands the step of the machine it is, and the two stay in agreement: whatever a hook
    does and whoever interferes, the worker's history is a run of the machine, so all that
    is proved of its runs holds of the code. */
module Worker {
  import opened Wrappers
  import opened Hooks
  import opened HookSafety
  import F = Flock
  import Config
  import CStrings
  import Environment
  import HookAgreement
  import HookProgress
  import MountFile

  // What the kernel keeps

  datatype LockFile = UserFile | InitFile | ExitFile

  datatype Disk = Disk(
    user: bool, init: bool, exit: bool,
    mount: Option<nat>, files: seq<string>,
    lockName: Option<nat>, lockInodes: nat, holder: map<nat, Pid>,
    dirs: set<string>)

  function DiskOf(m: State): Disk {
    Disk(m.userLock, m.initLock, m.exitLock, m.mount, m.files,
         m.lock.name, |m.lock.creator|, m.lock.holder, m.dirs)
  }

  predicate Present(d: Disk, l: LockFile) {
    match l
    case UserFile => d.user
    case InitFile => d.init
    case ExitFile => d.exit
  }

  function Put(d: Disk, l: LockFile, present: bool): Disk {
    match l
    case UserFile => d.(user := present)
    case InitFile => d.(init := present)
    case ExitFile => d.(exit := present)
  }

  /** 0, EEXIST, ENOENT, any other error; `Waits` is a call that has not returned. */
  datatype Answer = Done | Exists | Missing | Fault | Waits

  /** The calls of a hook that can fail for reasons of their own. */
  datatype Call =
    | EnsureTmp | CreateLock | ModeLock | CloseLock | EnsureDump
    | OpenFlock | ModeFlock | TakeFlock | DropFlock | UnlinkFlock
    | StatMount | OpenMount | WriteMount | CloseMount | ModeMount
    | UnlinkMount | UnlinkUser | UnlinkInit | UnlinkOwn

  // Which ends a hook can come to when the calls in f fail

  /** The callback that makes the mount file. Whether its middle calls are made depends on
      whether the file is there. */
  function MountMay(f: set<Call>): set<Outcome> {
    if StatMount in f || ModeMount in f then {Failed}
    else if OpenMount in f || WriteMount in f || CloseMount in f then {Succeeded, Failed}
    else {Succeeded}
  }

  function SetupMay(f: set<Call>, dir: string, enroot: bool): set<Outcome> {
    if ModeLock in f || CloseLock in f || (dir != "" && EnsureDump in f) then {Failed}
    else if !enroot || dir == "" then {Succeeded}
    else if OpenFlock in f || ModeFlock in f || TakeFlock in f then {Failed}
    else MountMay(f)
  }

  function InitMay(f: set<Call>, rewritten: bool, dir: string, enroot: bool): set<Outcome> {
    if !rewritten || EnsureTmp in f || CreateLock in f then {Failed}
    else {AlreadyDone} + SetupMay(f, dir, enroot)
  }

  /** A cleanup that has begun comes to exactly one end. */
  function CleanupEnd(f: set<Call>, enroot: bool): ExitPc {
    if ModeLock in f || CloseLock in f then ExitStranded(Failed)
    else if enroot && (OpenFlock in f || ModeFlock in f || TakeFlock in f || UnlinkMount in f) then ExitStranded(Failed)
    else if UnlinkOwn in f then ExitStranded(Succeeded)
    else ExitDone(Succeeded)
  }

  function ExitMay(f: set<Call>, enroot: bool): set<ExitPc> {
    if EnsureTmp in f || CreateLock in f then {ExitDone(Failed)}
    else {ExitDone(AlreadyDone), CleanupEnd(f, enroot)}
  }

  // What an undisturbed cleanup leaves when the calls in f fail

  /** Which of the five files are there. */
  datatype Remains = Remains(user: bool, init: bool, exit: bool, mount: bool, flock: bool)

  function RemainsOf(d: Disk): Remains {
    Remains(d.user, d.init, d.exit, d.mount.Some?, d.lockName.Some?)
  }

  function AfterRemovals(r: Remains, f: set<Call>): Remains {
    r.(user := r.user && UnlinkUser in f, init := r.init && UnlinkInit in f, exit := r.exit && UnlinkOwn in f)
  }

  /** `with_lock` around the unlink of the mount file. */
  function MountRemoved(r: Remains, f: set<Call>): Remains {
    if OpenFlock in f then r
    else if ModeFlock in f || TakeFlock in f then r.(flock := true)
    else r.(mount := r.mount && UnlinkMount in f, flock := UnlinkFlock in f)
  }

  /** With the exit lock taken and settled. */
  function AfterCleanup(r: Remains, f: set<Call>, enroot: bool): Remains {
    if !enroot then AfterRemovals(r, f)
    else if CleanupEnd(f, enroot) == ExitStranded(Failed) then MountRemoved(r, f)
    else AfterRemovals(MountRemoved(r, f), f)
  }

  function AfterExit(r: Remains, f: set<Call>, enroot: bool): Remains {
    if EnsureTmp in f || CreateLock in f || r.exit then r
    else if ModeLock in f || CloseLock in f then r.(exit := true)
    else AfterCleanup(r.(exit := true), f, enroot)
  }

  predicate Nothing(r: Remains, enroot: bool) {
    !r.user && !r.init && !r.exit && (enroot ==> !r.mount && !r.flock)
  }

  /** Exactly which failing calls make an undisturbed exit hook leave something: any of the
      first four or of its own removal, with Enroot any of five more, and the removal of a
      worker lock that was there; unless it gives up at once and there was nothing. */
  lemma ExitLeavesNothingIff(r: Remains, f: set<Call>, enroot: bool)
    requires !r.exit
    ensures Nothing(AfterExit(r, f, enroot), enroot) <==>
              if EnsureTmp in f || CreateLock in f then Nothing(r, enroot)
              else
                && f !! {ModeLock, CloseLock, UnlinkOwn}
                && (enroot ==> f !! {OpenFlock, ModeFlock, TakeFlock, UnlinkMount, UnlinkFlock})
                && (r.user ==> UnlinkUser !in f) && (r.init ==> UnlinkInit !in f)
  {
  }

  /** p sleeps in `flock` on an inode someone holds. */
  predicate Asleep(s: State, p: Pid) {
    && p in s.pc && (s.pc[p] == Init(InitLock) || s.pc[p] == Exit(ExitLock))
    && p in s.lock.pc && s.lock.pc[p].ModeChecked? && s.lock.pc[p].ino in s.lock.holder
  }

  // Steps of other processes

  /** Nothing that is p's own has changed. */
  predicate Untouched(s: State, s': State, p: Pid) {
    && (p in s'.pc <==> p in s.pc) && (p in s.pc ==> s'.pc[p] == s.pc[p])
    && Stage(s', p) == Stage(s, p) && EnvOf(s', p) == EnvOf(s, p)
  }

  lemma OtherStep(u: Setup, s: State, q: Pid, a: Action, p: Pid)
    requires Enabled(u, s, q, a) && q != p
    ensures Untouched(s, Do(u, s, q, a), p)
  {
    HookProgress.OthersKeepEnv(u, s, q, a);
    var s' := Do(u, s, q, a);
    assert a.Lock? ==> s'.lock == F.Do(s.lock, q, a.a);
    assert !a.Lock? ==> s'.lock == s.lock;
  }

  lemma {:induction false} OtherSteps(u: Setup, s: State, t: seq<Event>, p: Pid)
    requires Valid(u, s, t) && forall k :: 0 <= k < |t| ==> t[k].p != p
    ensures Untouched(s, After(u, s, t), p)
    decreases |t|
  {
    if t != [] {
      assert t[0].p != p;
      OtherStep(u, s, t[0].p, t[0].a, p);
      assert forall k :: 0 <= k < |t[1..]| ==> t[1..][k] == t[k + 1];
      OtherSteps(u, Do(u, s, t[0].p, t[0].a), t[1..], p);
    }
  }

  lemma {:induction false} KeepsInv(u: Setup, s: State, t: seq<Event>)
    requires Valid(u, s, t) && LinkInv(s) && HookProgress.FilesInv(u, s)
    ensures LinkInv(After(u, s, t)) && HookProgress.FilesInv(u, After(u, s, t))
    decreases |t|
  {
    if t != [] {
      LinkStep(u, s, t[0].p, t[0].a);
      HookProgress.FilesStep(u, s, t[0].p, t[0].a);
      KeepsInv(u, Do(u, s, t[0].p, t[0].a), t[1..]);
    }
  }

  /** A hook that has not come to its lock call has not made it. */
  lemma {:induction false} NoCallYet(u: Setup, s0: State, t: seq<Event>, p: Pid)
    requires Start(s0) && Valid(u, s0, t)
    requires var s := After(u, s0, t);
             p in s.pc ==> s.pc[p] == Init(InitDump) || s.pc[p] == Exit(ExitEnroot)
    ensures p !in After(u, s0, t).lock.pc
  {
    KeepsInv(u, s0, t);
    var s := After(u, s0, t);
    if p in s.pc {
      assert Linked(s.pc[p], Stage(s, p));
    }
  }

  lemma {:induction false} FilesInRange(u: Setup, s0: State, t: seq<Event>, p: Pid)
    requires Start(s0) && Valid(u, s0, t)
    ensures var s := After(u, s0, t);
            && (s.mount.Some? ==> s.mount.value < |s.files|)
            && (p in s.pc && s.pc[p].Mount? && s.pc[p].m.MountWrite? ==> s.pc[p].m.ino < |s.files|)
  {
    KeepsInv(u, s0, t);
  }

  predicate DirInv(u: Setup, s: State) {
    forall p :: p in s.pc && HookAgreement.PastDump(s.pc[p]) && u.dumpDir(EnvOf(s, p)) != "" ==>
      u.dumpDir(EnvOf(s, p)) in s.dirs
  }

  lemma DirMove(u: Setup, s: State, p: Pid, a: Action)
    requires Enabled(u, s, p, a) && DirInv(u, s)
    ensures var s' := Do(u, s, p, a);
            && s.dirs <= s'.dirs
            && (HookAgreement.PastDump(s'.pc[p]) && u.dumpDir(EnvOf(s', p)) != "" ==>
                  u.dumpDir(EnvOf(s', p)) in s'.dirs)
  {
    HookAgreement.DirStep(u, s, p, a, EnvOf(s, p), EnvOf(s, p));
    SameEnv(u, s, p, a);
  }

  lemma SameEnv(u: Setup, s: State, p: Pid, a: Action)
    requires Enabled(u, s, p, a)
    ensures HookAgreement.PastDump(Do(u, s, p, a).pc[p]) ==> EnvOf(Do(u, s, p, a), p) == EnvOf(s, p)
  {
    if a.Ok? && s.pc[p].Init? {
      SameEnvInit(u, s, p);
    }
  }

  lemma SameEnvInit(u: Setup, s: State, p: Pid)
    requires p in s.pc && s.pc[p].Init? && OkEnabled(u, s, p)
    ensures HookAgreement.PastDump(InitOk(u, s, p).pc[p]) ==> InitOk(u, s, p).env == s.env
  {
  }

  lemma {:induction false} DirRun(u: Setup, s: State, t: seq<Event>)
    requires Valid(u, s, t) && DirInv(u, s)
    ensures DirInv(u, After(u, s, t))
    decreases |t|
  {
    if t != [] {
      DirMove(u, s, t[0].p, t[0].a);
      HookProgress.OthersKeepEnv(u, s, t[0].p, t[0].a);
      DirRun(u, Do(u, s, t[0].p, t[0].a), t[1..]);
    }
  }

  /** Whoever has finished the setup has had its dump directory ensured. */
  lemma {:induction false} DirEnsured(u: Setup, s0: State, t: seq<Event>, p: Pid)
    requires Start(s0) && Valid(u, s0, t)
    ensures var s := After(u, s0, t);
            p in s.pc && s.pc[p] == Init(InitDone(Succeeded)) && u.dumpDir(EnvOf(s, p)) != "" ==>
              u.dumpDir(EnvOf(s, p)) in s.dirs
  {
    DirRun(u, s0, t);
  }

  lemma {:induction false} Singleton(u: Setup, s: State, p: Pid, a: Action)
    requires Enabled(u, s, p, a)
    ensures Valid(u, s, [Event(p, a)]) && After(u, s, [Event(p, a)]) == Do(u, s, p, a)
  {
    var t := [Event(p, a)];
    assert t[1..] == [];
    assert Valid(u, Do(u, s, p, a), t[1..]);
  }

  // What an init hook makes of its task's environment

  predicate Rewritable(
      e: Config.Env, refused: set<string>, cfg: Config.Settings, job: Environment.Uint32, step: Environment.Uint32)
  {
    Environment.MarkedOwned(e) ==>
      |Environment.StepDir(cfg, job, step)| < CStrings.PATH_MAX && Environment.DUMP_KEY !in refused
  }

  lemma OwnedRewrite(
      e: Config.Env, refused: set<string>, cfg: Config.Settings, job: Environment.Uint32, step: Environment.Uint32)
    ensures Environment.MarkedOwned(e) && Rewritable(e, refused, cfg, job, step) ==>
              Environment.StepRewrite(e, refused, cfg, job, step).0 ==
                e[Environment.DUMP_KEY := Environment.StepDir(cfg, job, step)]
  {
  }

  lemma NothingFails(f: set<Call>, dir: string, enroot: bool)
    ensures f == {} ==> Failed !in InitMay(f, true, dir, enroot)
  {
  }

  lemma RewriteIs(
      u: Setup, cfg: Config.Settings, job: Environment.Uint32, step: Environment.Uint32, e: Config.Env,
      refused: set<string>)
    requires u == HookAgreement.PluginSetup(u.enroot, cfg, job, step)
    ensures var (e', rc) := Environment.StepRewrite(e, refused, cfg, job, step);
            && (rc == Success <==> Rewritable(e, refused, cfg, job, step))
            && (rc == Success ==> u.rewrite(e) == Some(e'))
            && (rc != Success ==> u.owned(e) && e' == e)
  {
  }

  lemma SetupIs(u: Setup, cfg: Config.Settings, job: Environment.Uint32, step: Environment.Uint32, e: Config.Env)
    requires u == HookAgreement.PluginSetup(u.enroot, cfg, job, step)
    ensures u.dumpDir(e) == Environment.DumpDirOf(e)
    ensures u.mountText(e) == MountFile.Text(Environment.PluginOf(e, cfg), Environment.DumpDirOf(e))
  {
  }

  /** Nothing but the transient lock has changed. */
  predicate SameFiles(d: Disk, d': Disk) {
    d' == d.(lockName := d'.lockName, lockInodes := d'.lockInodes, holder := d'.holder)
  }

  // What a step of with_lock does, as seen from the disk

  function Fd(l: F.Pc): nat {
    if l.HasFd() then l.ino else 0
  }

  /** The inode that `open` gives. */
  function Opening(d: Disk): nat {
    if d.lockName.Some? then d.lockName.value else d.lockInodes
  }

  function Dropped(d: Disk, p: Pid, ino: nat): Disk {
    d.(holder := if ino in d.holder && d.holder[ino] == p then d.holder - {ino} else d.holder)
  }

  function LockDisk(d: Disk, p: Pid, ino: nat, a: F.Action): Disk {
    match a
    case OpenOk => if d.lockName.Some? then d else d.(lockName := Some(ino), lockInodes := ino + 1)
    case FlockOk => d.(holder := d.holder[ino := p])
    case UnlockOk | Close => Dropped(d, p, ino)
    case UnlinkOk => d.(lockName := None)
    case _ => d
  }

  function LockPc(ino: nat, a: F.Action): F.Pc {
    match a
    case OpenOk => F.Opened(ino)
    case OpenFail => F.NotOpened
    case ModeOk => F.ModeChecked(ino)
    case ModeFail | FlockFail => F.Abandoned
    case FlockOk => F.Holding(ino)
    case UnlockOk | UnlockFail => F.Unlocked(ino)
    case UnlinkOk => F.Unlinked(ino, true)
    case UnlinkFail => F.Unlinked(ino, false)
    case Close => F.Returned(true)
  }

  predicate Expects(s: State, p: Pid, ino: nat, a: F.Action) {
    && p in s.pc && LockEnabled(s, p, a)
    && (if a.OpenOk? || a.OpenFail? then ino == Opening(DiskOf(s)) else p in s.lock.pc && ino == Fd(s.lock.pc[p]))
  }

  lemma LockEffect(s: State, p: Pid, ino: nat, a: F.Action)
    requires Expects(s, p, ino, a)
    ensures var s' := LockStep(s, p, a);
            && p in s'.pc && s'.pc[p] == AfterLock(s.pc[p], LockPc(ino, a)) && EnvOf(s', p) == EnvOf(s, p)
            && p in s'.lock.pc && (a.Close? || s'.lock.pc[p] == LockPc(ino, a))
    ensures DiskOf(LockStep(s, p, a)) == LockDisk(DiskOf(s), p, ino, a)
  {
    LockEffectPc(s, p, ino, a);
    LockEffectDisk(s, p, ino, a);
  }

  lemma LockEffectPc(s: State, p: Pid, ino: nat, a: F.Action)
    requires Expects(s, p, ino, a)
    ensures var s' := LockStep(s, p, a);
            && p in s'.pc && s'.pc[p] == AfterLock(s.pc[p], LockPc(ino, a)) && EnvOf(s', p) == EnvOf(s, p)
            && p in s'.lock.pc && (a.Close? || s'.lock.pc[p] == LockPc(ino, a))
  {
  }

  lemma LockEffectDisk(s: State, p: Pid, ino: nat, a: F.Action)
    requires Expects(s, p, ino, a)
    ensures DiskOf(LockStep(s, p, a)) == LockDisk(DiskOf(s), p, ino, a)
  {
  }

  // What opening and writing the mount file do to the disk

  /** The file at ino, made if it is not there, is empty. */
  function Truncated(d: Disk, ino: nat): Disk
    requires ino <= |d.files|
  {
    if ino < |d.files| then d.(files := d.files[ino := ""]) else d.(mount := Some(ino), files := d.files + [""])
  }

  function Written(d: Disk, ino: nat, off: nat, part: string): Disk
    requires ino < |d.files|
  {
    d.(files := d.files[ino := WriteAt(d.files[ino], off, part)])
  }

  lemma WritePrefix(text: string, off: nat, n: nat)
    requires off + n <= |text|
    ensures WriteAt(text[..off], off, text[off..off + n]) == text[..off + n]
  {
    assert text[..off] + text[off..off + n] == text[..off + n];
  }

  class Node {
    const u: Setup
    const quiet: bool            // no other process runs meanwhile
    var disk: Disk
    var m: State
    ghost const start: State
    ghost var log: seq<Event>

    constructor (u: Setup, quiet: bool, start: State)
      requires Start(start)
      ensures this.u == u && this.quiet == quiet && this.start == start && m == start && log == []
      ensures Agrees()
    {
      this.u := u;
      this.quiet := quiet;
      this.start := start;
      m := start;
      disk := DiskOf(start);
      log := [];
    }

    /** The history is a run of the machine. */
    ghost predicate Run()
      reads this`m, this`log
    {
      Start(start) && Valid(u, start, log) && m == After(u, start, log)
    }

    /** ... and the machine's files are the kernel's. */
    ghost predicate Agrees()
      reads this
    {
      Run() && disk == DiskOf(m)
    }

    method Extend(t: seq<Event>)
      requires Run() && Valid(u, m, t)
      modifies this`m, this`log
      ensures Run() && m == After(u, old(m), t) && log == old(log) + t
    {
      RunConcat(u, start, log, t);
      m := After(u, m, t);
      log := log + t;
    }

    /** The machine's step for the call that p has just made. */
    method Step(p: Pid, a: Action)
      requires Run() && Enabled(u, m, p, a)
      modifies this`m, this`log
      ensures Run() && m == Do(u, old(m), p, a) && log == old(log) + [Event(p, a)]
    {
      Singleton(u, m, p, a);
      Extend([Event(p, a)]);
    }

    method StepLock(p: Pid, ino: nat, a: F.Action)
      requires Run() && Expects(m, p, ino, a) && disk == LockDisk(DiskOf(m), p, ino, a)
      modifies this`m, this`log
      ensures Agrees() && p in m.pc && m.pc[p] == AfterLock(old(m).pc[p], LockPc(ino, a))
      ensures EnvOf(m, p) == EnvOf(old(m), p) && old(log) <= log
      ensures p in m.lock.pc && (a.Close? || m.lock.pc[p] == LockPc(ino, a))
    {
      LockEffect(m, p, ino, a);
      Step(p, Lock(a));
    }

    /** The scheduler runs other processes for a while. */
    method Others(p: Pid)
      requires Agrees()
      modifies this
      ensures Agrees() && Untouched(old(m), m, p) && old(log) <= log
      ensures quiet ==> m == old(m)
    {
      var t: seq<Event> := *;
      if !quiet && Valid(u, m, t) && forall k :: 0 <= k < |t| ==> t[k].p != p {
        OtherSteps(u, m, t, p);
        Extend(t);
        disk := DiskOf(m);
      }
    }

    // System calls; `bad` says that the call fails for a reason of its own

    /** `open` with O_CREAT and O_EXCL. */
    method CreateExclusive(l: LockFile, bad: bool) returns (a: Answer)
      modifies this`disk
      ensures a == if bad then Fault else if Present(old(disk), l) then Exists else Done
      ensures disk == if a == Done then Put(old(disk), l, true) else old(disk)
    {
      if bad { return Fault; }
      if Present(disk, l) { return Exists; }
      disk := Put(disk, l, true);
      a := Done;
    }

    /** `unlink` of a worker lock. */
    method UnlinkLock(l: LockFile, bad: bool) returns (a: Answer)
      modifies this`disk
      ensures a == if bad then Fault else if Present(old(disk), l) then Done else Missing
      ensures disk == if a == Fault then old(disk) else Put(old(disk), l, false)
    {
      if bad { return Fault; }
      a := if Present(disk, l) then Done else Missing;
      disk := Put(disk, l, false);
    }

    /** `open` with O_CREAT of the transient lock file. */
    method OpenLockFile(bad: bool) returns (a: Answer, ino: nat)
      modifies this`disk
      ensures a == if bad then Fault else Done
      ensures ino == Opening(old(disk))
      ensures bad || old(disk).lockName.Some? ==> disk == old(disk)
      ensures !bad && old(disk).lockName.None? ==> disk == old(disk).(lockName := Some(ino), lockInodes := ino + 1)
    {
      ino := if disk.lockName.Some? then disk.lockName.value else disk.lockInodes;
      if bad { return Fault, ino; }
      if disk.lockName.Some? { return Done, ino; }
      disk := disk.(lockName := Some(ino), lockInodes := ino + 1);
      a := Done;
    }

    /** `flock` with LOCK_EX: waits while another call holds the inode. */
    method FlockExclusive(p: Pid, ino: nat, bad: bool) returns (a: Answer)
      modifies this`disk
      ensures a == if bad then Fault else if ino in old(disk).holder then Waits else Done
      ensures disk == if a == Done then old(disk).(holder := old(disk).holder[ino := p]) else old(disk)
    {
      if bad { return Fault; }
      if ino in disk.holder { return Waits; }
      disk := disk.(holder := disk.holder[ino := p]);
      a := Done;
    }

    /** The lock goes with LOCK_UN and at the latest with the descriptor. */
    method DropHolder(p: Pid, ino: nat)
      modifies this`disk
      ensures disk == Dropped(old(disk), p, ino)
    {
      if ino in disk.holder && disk.holder[ino] == p {
        disk := disk.(holder := disk.holder - {ino});
      }
    }

    method UnlinkLockFile(bad: bool) returns (a: Answer)
      modifies this`disk
      ensures a == if bad then Fault else if old(disk).lockName.Some? then Done else Missing
      ensures disk == if a == Fault then old(disk) else old(disk).(lockName := None)
    {
      if bad { return Fault; }
      a := if disk.lockName.Some? then Done else Missing;
      disk := disk.(lockName := None);
    }

    method StatMountFile(bad: bool) returns (a: Answer)
      ensures a == if bad then Fault else if disk.mount.Some? then Done else Missing
    {
      a := if bad then Fault else if disk.mount.Some? then Done else Missing;
    }

    /** `open` with O_CREAT and O_TRUNC of the mount file. */
    method OpenMountFile(bad: bool) returns (a: Answer, ino: nat)
      requires disk.mount.Some? ==> disk.mount.value < |disk.files|
      modifies this`disk
      ensures a == if bad then Fault else Done
      ensures ino == if old(disk).mount.Some? then old(disk).mount.value else |old(disk).files|
      ensures disk == if bad then old(disk) else Truncated(old(disk), ino)
    {
      ino := if disk.mount.Some? then disk.mount.value else |disk.files|;
      if bad { return Fault, ino; }
      a := Done;
      disk := Truncated(disk, ino);
    }

    method WriteFile(ino: nat, off: nat, part: string)
      requires ino < |disk.files|
      modifies this`disk
      ensures disk == Written(old(disk), ino, off, part)
    {
      disk := Written(disk, ino, off, part);
    }

    method UnlinkMountFile(bad: bool) returns (a: Answer)
      modifies this`disk
      ensures a == if bad then Fault else if old(disk).mount.Some? then Done else Missing
      ensures disk == if a == Fault then old(disk) else old(disk).(mount := None)
    {
      if bad { return Fault; }
      a := if disk.mount.Some? then Done else Missing;
      disk := disk.(mount := None);
    }

    /** `ensure_dir` of the dump directory. */
    method EnsureDir(dir: string, bad: bool) returns (a: Answer)
      modifies this`disk
      ensures a == if bad then Fault else Done
      ensures disk == if bad then old(disk) else old(disk).(dirs := old(disk).dirs + {dir})
    {
      if bad { return Fault; }
      disk := disk.(dirs := disk.dirs + {dir});
      a := Done;
    }

    // snccliprecon_create_once_per_worker_lock

    /** The lock directory, the exclusive create, mode and close, for either hook. */
    method CreateOnce(p: Pid, l: LockFile, f: set<Call>) returns (a: Answer)
      requires Agrees() && p in m.pc && l != UserFile
      requires m.pc[p] == if l == InitFile then Init(InitTmp) else Exit(ExitTmp)
      modifies this
      ensures Agrees() && p in m.pc && old(log) <= log && EnvOf(m, p) == EnvOf(old(m), p)
      ensures a == Fault || a == Exists || a == Done
      ensures EnsureTmp in f || CreateLock in f ==> a == Fault
      ensures a == Fault ==> EnsureTmp in f || CreateLock in f || ModeLock in f || CloseLock in f
      ensures a == Done ==> ModeLock !in f && CloseLock !in f
      ensures l == InitFile ==>
                m.pc[p] == Init(if a == Fault then InitDone(Failed)
                                else if a == Exists then InitDone(AlreadyDone) else InitDump)
      ensures l == ExitFile && a != Fault ==> m.pc[p] == Exit(if a == Exists then ExitDone(AlreadyDone) else ExitEnroot)
      ensures l == ExitFile && a == Fault ==>
                m.pc[p] == Exit(if EnsureTmp in f || CreateLock in f then ExitDone(Failed) else ExitStranded(Failed))
      ensures quiet ==> (a == Exists <==> EnsureTmp !in f && CreateLock !in f && Present(old(disk), l))
      ensures quiet ==>
                disk == if EnsureTmp in f || CreateLock in f || Present(old(disk), l) then old(disk)
                        else Put(old(disk), l, true)
    {
      a := EnsureLockDir(p, l, f);
      if a == Done {
        a := CreateFile(p, l, f);
      }
      if a == Done {
        a := SettleFile(p, l, f);
      }
    }

    method EnsureLockDir(p: Pid, l: LockFile, f: set<Call>) returns (a: Answer)
      requires Agrees() && p in m.pc && l != UserFile
      requires m.pc[p] == if l == InitFile then Init(InitTmp) else Exit(ExitTmp)
      modifies this
      ensures Agrees() && p in m.pc && old(log) <= log && EnvOf(m, p) == EnvOf(old(m), p)
      ensures a == if EnsureTmp in f then Fault else Done
      ensures l == InitFile ==> m.pc[p] == Init(if a == Fault then InitDone(Failed) else InitCreate)
      ensures l == ExitFile ==> m.pc[p] == Exit(if a == Fault then ExitDone(Failed) else ExitCreate)
      ensures quiet ==> disk == old(disk)
    {
      Others(p);
      a := if EnsureTmp in f then Fault else Done;
      Step(p, if a == Fault then Fail else Ok);
    }

    method CreateFile(p: Pid, l: LockFile, f: set<Call>) returns (a: Answer)
      requires Agrees() && p in m.pc && l != UserFile
      requires m.pc[p] == if l == InitFile then Init(InitCreate) else Exit(ExitCreate)
      modifies this
      ensures Agrees() && p in m.pc && old(log) <= log && EnvOf(m, p) == EnvOf(old(m), p)
      ensures a == Fault || a == Exists || a == Done
      ensures a == Fault <==> CreateLock in f
      ensures l == InitFile ==>
                m.pc[p] == Init(if a == Fault then InitDone(Failed)
                                else if a == Exists then InitDone(AlreadyDone) else InitSettle)
      ensures l == ExitFile ==>
                m.pc[p] == Exit(if a == Fault then ExitDone(Failed)
                                else if a == Exists then ExitDone(AlreadyDone) else ExitSettle)
      ensures quiet ==> (a == Exists <==> CreateLock !in f && Present(old(disk), l))
      ensures quiet ==> disk == if a == Done then Put(old(disk), l, true) else old(disk)
    {
      Others(p);
      a := CreateExclusive(l, CreateLock in f);
      Step(p, if a == Fault then Fail else Ok);
    }

    /** `ensure_mode` and `close` of the lock file just created. */
    method SettleFile(p: Pid, l: LockFile, f: set<Call>) returns (a: Answer)
      requires Agrees() && p in m.pc && l != UserFile
      requires m.pc[p] == if l == InitFile then Init(InitSettle) else Exit(ExitSettle)
      modifies this
      ensures Agrees() && p in m.pc && old(log) <= log && EnvOf(m, p) == EnvOf(old(m), p)
      ensures a == if ModeLock in f || CloseLock in f then Fault else Done
      ensures l == InitFile ==> m.pc[p] == Init(if a == Fault then InitDone(Failed) else InitDump)
      ensures l == ExitFile ==> m.pc[p] == Exit(if a == Fault then ExitStranded(Failed) else ExitEnroot)
      ensures quiet ==> disk == old(disk)
    {
      Others(p);
      a := if ModeLock in f then Fault else Done;
      if a == Done {
        Others(p);
        a := if CloseLock in f then Fault else Done;
      }
      StepSettled(p, l, a == Done);
    }

    method StepSettled(p: Pid, l: LockFile, ok: bool)
      requires Agrees() && p in m.pc && l != UserFile
      requires m.pc[p] == if l == InitFile then Init(InitSettle) else Exit(ExitSettle)
      modifies this`m, this`log
      ensures Agrees() && p in m.pc && old(log) <= log && EnvOf(m, p) == EnvOf(old(m), p)
      ensures l == InitFile ==> m.pc[p] == Init(if ok then InitDump else InitDone(Failed))
      ensures l == ExitFile ==> m.pc[p] == Exit(if ok then ExitEnroot else ExitStranded(Failed))
    {
      Step(p, if ok then Ok else Fail);
    }

    // snccliprecon_with_lock

    /** Up to the callback. The call ends with the lock held, with an error, or it sleeps. */
    method Acquire(p: Pid, f: set<Call>) returns (a: Answer, ino: nat)
      requires Agrees() && p in m.pc && (m.pc[p] == Init(InitLock) || m.pc[p] == Exit(ExitLock))
      requires p !in m.lock.pc
      modifies this
      ensures Agrees() && p in m.pc && old(log) <= log && EnvOf(m, p) == EnvOf(old(m), p)
      ensures a == Fault || a == Waits || a == Done
      ensures a == Fault <==> OpenFlock in f || ModeFlock in f || TakeFlock in f
      ensures a == Fault ==>
                m.pc[p] == if old(m).pc[p].Init? then Init(InitDone(Failed)) else Exit(ExitStranded(Failed))
      ensures a == Waits ==> Asleep(m, p) && m.pc[p] == old(m).pc[p]
      ensures a == Done ==> p in m.lock.pc && m.lock.pc[p] == F.Holding(ino)
      ensures a == Done ==> m.pc[p] == if old(m).pc[p].Init? then Mount(MountStat) else Exit(ExitRemove)
      ensures quiet ==> SameFiles(old(disk), disk)
      ensures quiet ==> if OpenFlock in f then disk.lockName == old(disk).lockName else disk.lockName.Some?
    {
      a, ino := OpenLock(p, f);
      if a == Done {
        a := TakeLock(p, ino, f);
      }
    }

    method OpenLock(p: Pid, f: set<Call>) returns (a: Answer, ino: nat)
      requires Agrees() && p in m.pc && (m.pc[p] == Init(InitLock) || m.pc[p] == Exit(ExitLock))
      requires p !in m.lock.pc
      modifies this
      ensures Agrees() && p in m.pc && old(log) <= log && EnvOf(m, p) == EnvOf(old(m), p)
      ensures a == if OpenFlock in f then Fault else Done
      ensures a == Fault ==>
                m.pc[p] == if old(m).pc[p].Init? then Init(InitDone(Failed)) else Exit(ExitStranded(Failed))
      ensures a == Done ==> m.pc[p] == old(m).pc[p] && p in m.lock.pc && m.lock.pc[p] == F.Opened(ino)
      ensures quiet ==> SameFiles(old(disk), disk)
      ensures quiet ==> if OpenFlock in f then disk.lockName == old(disk).lockName else disk.lockName.Some?
    {
      Others(p);
      a, ino := OpenLockFile(OpenFlock in f);
      StepOpen(p, ino, a == Done);
    }

    method StepOpen(p: Pid, ino: nat, ok: bool)
      requires Run() && p in m.pc && (m.pc[p] == Init(InitLock) || m.pc[p] == Exit(ExitLock))
      requires p !in m.lock.pc && ino == Opening(DiskOf(m))
      requires disk == LockDisk(DiskOf(m), p, ino, if ok then F.OpenOk else F.OpenFail)
      modifies this`m, this`log
      ensures Agrees() && p in m.pc && old(log) <= log && EnvOf(m, p) == EnvOf(old(m), p)
      ensures !ok ==> m.pc[p] == if old(m).pc[p].Init? then Init(InitDone(Failed)) else Exit(ExitStranded(Failed))
      ensures ok ==> m.pc[p] == old(m).pc[p] && p in m.lock.pc && m.lock.pc[p] == F.Opened(ino)
    {
      StepLock(p, ino, if ok then F.OpenOk else F.OpenFail);
    }

    /** `ensure_mode` and `flock`. */
    method TakeLock(p: Pid, ino: nat, f: set<Call>) returns (a: Answer)
      requires Agrees() && p in m.pc && (m.pc[p] == Init(InitLock) || m.pc[p] == Exit(ExitLock))
      requires p in m.lock.pc && m.lock.pc[p] == F.Opened(ino)
      modifies this
      ensures Agrees() && p in m.pc && old(log) <= log && EnvOf(m, p) == EnvOf(old(m), p)
      ensures a == Fault || a == Waits || a == Done
      ensures a == Fault <==> ModeFlock in f || TakeFlock in f
      ensures a == Fault ==>
                m.pc[p] == if old(m).pc[p].Init? then Init(InitDone(Failed)) else Exit(ExitStranded(Failed))
      ensures a == Waits ==> Asleep(m, p) && m.pc[p] == old(m).pc[p]
      ensures a == Done ==> p in m.lock.pc && m.lock.pc[p] == F.Holding(ino)
      ensures a == Done ==> m.pc[p] == if old(m).pc[p].Init? then Mount(MountStat) else Exit(ExitRemove)
      ensures quiet ==> SameFiles(old(disk), disk) && disk.lockName == old(disk).lockName
    {
      Others(p);
      if ModeFlock in f {
        StepLock(p, ino, F.ModeFail);
        return Fault;
      }
      StepLock(p, ino, F.ModeOk);
      a := WaitForLock(p, ino, f);
    }

    method WaitForLock(p: Pid, ino: nat, f: set<Call>) returns (a: Answer)
      requires Agrees() && p in m.pc && (m.pc[p] == Init(InitLock) || m.pc[p] == Exit(ExitLock))
      requires p in m.lock.pc && m.lock.pc[p] == F.ModeChecked(ino)
      modifies this
      ensures Agrees() && p in m.pc && old(log) <= log && EnvOf(m, p) == EnvOf(old(m), p)
      ensures a == Fault || a == Waits || a == Done
      ensures a == Fault <==> TakeFlock in f
      ensures a == Fault ==>
                m.pc[p] == if old(m).pc[p].Init? then Init(InitDone(Failed)) else Exit(ExitStranded(Failed))
      ensures a == Waits ==> Asleep(m, p) && m.pc[p] == old(m).pc[p]
      ensures a == Done ==> p in m.lock.pc && m.lock.pc[p] == F.Holding(ino)
      ensures a == Done ==> m.pc[p] == if old(m).pc[p].Init? then Mount(MountStat) else Exit(ExitRemove)
      ensures quiet ==> SameFiles(old(disk), disk) && disk.lockName == old(disk).lockName
    {
      Others(p);
      a := FlockExclusive(p, ino, TakeFlock in f);
      if a != Waits {
        StepFlock(p, ino, a == Done);
      }
    }

    method StepFlock(p: Pid, ino: nat, granted: bool)
      requires Run() && p in m.pc && (m.pc[p] == Init(InitLock) || m.pc[p] == Exit(ExitLock))
      requires p in m.lock.pc && m.lock.pc[p] == F.ModeChecked(ino) && (granted ==> ino !in m.lock.holder)
      requires disk == LockDisk(DiskOf(m), p, ino, if granted then F.FlockOk else F.FlockFail)
      modifies this`m, this`log
      ensures Agrees() && p in m.pc && old(log) <= log && EnvOf(m, p) == EnvOf(old(m), p)
      ensures !granted ==>
                m.pc[p] == if old(m).pc[p].Init? then Init(InitDone(Failed)) else Exit(ExitStranded(Failed))
      ensures granted ==> p in m.lock.pc && m.lock.pc[p] == F.Holding(ino)
      ensures granted ==> m.pc[p] == if old(m).pc[p].Init? then Mount(MountStat) else Exit(ExitRemove)
    {
      StepLock(p, ino, if granted then F.FlockOk else F.FlockFail);
    }

    predicate Releasing(out: Outcome, p: Pid)
      reads this
    {
      p in m.pc && (m.pc[p] == Init(InitUnlock(out)) || m.pc[p] == Exit(ExitUnlock(out))) && p in m.lock.pc
    }

    method StepReleasing(p: Pid, ino: nat, out: Outcome, a: F.Action)
      requires Run() && Releasing(out, p) && disk == LockDisk(DiskOf(m), p, ino, a)
      requires || ((a.UnlockOk? || a.UnlockFail?) && m.lock.pc[p] == F.Holding(ino))
               || ((a.UnlinkOk? || a.UnlinkFail?) && m.lock.pc[p] == F.Unlocked(ino))
      modifies this`m, this`log
      ensures Agrees() && Releasing(out, p) && m.pc[p] == old(m).pc[p] && old(log) <= log
      ensures m.lock.pc[p] == LockPc(ino, a) && EnvOf(m, p) == EnvOf(old(m), p)
    {
      StepLock(p, ino, a);
    }

    /** After the callback: unlock, unlink and close, with every error ignored. */
    method Release(p: Pid, ino: nat, out: Outcome, f: set<Call>)
      requires Agrees() && Releasing(out, p) && m.lock.pc[p] == F.Holding(ino)
      modifies this
      ensures Agrees() && p in m.pc && old(log) <= log
      ensures old(m).pc[p].Init? ==> m.pc[p] == Init(InitDone(out))
      ensures old(m).pc[p].Exit? ==> m.pc[p] == Exit(if out == Succeeded then ExitUser else ExitStranded(Failed))
      ensures EnvOf(m, p) == EnvOf(old(m), p)
      ensures quiet ==> SameFiles(old(disk), disk)
      ensures quiet ==> disk.lockName == if UnlinkFlock in f then old(disk).lockName else None
    {
      Unlock(p, ino, out, f);
      Unlink(p, ino, out, f);
      CloseLockFile(p, ino, out);
    }

    method CloseLockFile(p: Pid, ino: nat, out: Outcome)
      requires Agrees() && Releasing(out, p) && m.lock.pc[p].Unlinked? && m.lock.pc[p].ino == ino
      modifies this
      ensures Agrees() && p in m.pc && old(log) <= log
      ensures old(m).pc[p].Init? ==> m.pc[p] == Init(InitDone(out))
      ensures old(m).pc[p].Exit? ==> m.pc[p] == Exit(if out == Succeeded then ExitUser else ExitStranded(Failed))
      ensures EnvOf(m, p) == EnvOf(old(m), p)
      ensures quiet ==> SameFiles(old(disk), disk) && disk.lockName == old(disk).lockName
    {
      Others(p);
      DropHolder(p, ino);
      StepLock(p, ino, F.Close);
    }

    method Unlock(p: Pid, ino: nat, out: Outcome, f: set<Call>)
      requires Agrees() && Releasing(out, p) && m.lock.pc[p] == F.Holding(ino)
      modifies this
      ensures Agrees() && Releasing(out, p) && m.pc[p] == old(m).pc[p] && old(log) <= log
      ensures m.lock.pc[p] == F.Unlocked(ino) && EnvOf(m, p) == EnvOf(old(m), p)
      ensures quiet ==> SameFiles(old(disk), disk) && disk.lockName == old(disk).lockName
    {
      Others(p);
      if DropFlock !in f {
        DropHolder(p, ino);
      }
      StepReleasing(p, ino, out, if DropFlock in f then F.UnlockFail else F.UnlockOk);
    }

    method Unlink(p: Pid, ino: nat, out: Outcome, f: set<Call>)
      requires Agrees() && Releasing(out, p) && m.lock.pc[p] == F.Unlocked(ino)
      modifies this
      ensures Agrees() && Releasing(out, p) && m.pc[p] == old(m).pc[p] && old(log) <= log
      ensures m.lock.pc[p] == F.Unlinked(ino, UnlinkFlock !in f) && EnvOf(m, p) == EnvOf(old(m), p)
      ensures quiet ==> SameFiles(old(disk), disk)
      ensures quiet ==> disk.lockName == if UnlinkFlock in f then old(disk).lockName else None
    {
      Others(p);
      var a := UnlinkLockFile(UnlinkFlock in f);
      StepReleasing(p, ino, out, if a == Fault then F.UnlinkFail else F.UnlinkOk);
    }

    // create_mount_file_locked

    predicate HasText(d: Disk, text: string) {
      d.mount.Some? && d.mount.value < |d.files| && d.files[d.mount.value] == text
    }

    predicate StartsEmpty(d: Disk, ino: nat) {
      d.mount == Some(ino) && HasText(d, "")
    }

    /** The mount file is there and binds the library read-only and the directory
        read-write. */
    predicate Bound(d: Disk, plugin: string, dumpDir: string) {
      d.mount.Some? && d.mount.value < |d.files| && MountFile.Binds(d.files[d.mount.value], plugin, dumpDir)
    }

    /** The callback. With nobody else running, success leaves the file in place, with both
        bindings if it was not there before. */
    method CreateMountFileLocked(p: Pid, plugin: string, dumpDir: string, f: set<Call>) returns (out: Outcome)
      requires Agrees() && p in m.pc && m.pc[p] == Mount(MountStat)
      requires MountFile.Text(plugin, dumpDir) == u.mountText(EnvOf(m, p))
      modifies this
      ensures Agrees() && p in m.pc && m.pc[p] == Init(InitUnlock(out)) && old(log) <= log
      ensures Stage(m, p) == Stage(old(m), p) && EnvOf(m, p) == EnvOf(old(m), p)
      ensures out in MountMay(f)
      ensures quiet && out == Succeeded ==>
                if old(disk).mount.Some? then disk == old(disk)
                else HasText(disk, MountFile.Text(plugin, dumpDir)) && Bound(disk, plugin, dumpDir)
    {
      MountFile.TextBinds(plugin, dumpDir);
      var a := StatMountPath(p, f);
      if a == Fault {
        return Failed;
      }
      if a == Missing {
        out := WriteMountFile(p, MountFile.Text(plugin, dumpDir), f);
        if out == Failed {
          return;
        }
      }
      out := FinishMount(p, f);
    }

    method StatMountPath(p: Pid, f: set<Call>) returns (a: Answer)
      requires Agrees() && p in m.pc && m.pc[p] == Mount(MountStat)
      modifies this
      ensures Agrees() && p in m.pc && old(log) <= log && Stage(m, p) == Stage(old(m), p)
      ensures EnvOf(m, p) == EnvOf(old(m), p)
      ensures a == Fault || a == Done || a == Missing
      ensures a == Fault <==> StatMount in f
      ensures m.pc[p] == if a == Fault then Init(InitUnlock(Failed))
                         else Mount(if a == Done then MountMode else MountOpen)
      ensures quiet ==> disk == old(disk) && (a == Done ==> disk.mount.Some?) && (a == Missing ==> disk.mount.None?)
    {
      Others(p);
      a := StatMountFile(StatMount in f);
      Step(p, if a == Fault then Fail else Ok);
    }

    /** The last `ensure_mode`. */
    method FinishMount(p: Pid, f: set<Call>) returns (out: Outcome)
      requires Agrees() && p in m.pc && m.pc[p] == Mount(MountMode)
      modifies this
      ensures Agrees() && p in m.pc && m.pc[p] == Init(InitUnlock(out)) && old(log) <= log
      ensures Stage(m, p) == Stage(old(m), p) && EnvOf(m, p) == EnvOf(old(m), p)
      ensures out == if ModeMount in f then Failed else Succeeded
      ensures quiet ==> disk == old(disk)
    {
      Others(p);
      out := if ModeMount in f then Failed else Succeeded;
      Step(p, if out == Failed then Fail else Ok);
    }

    /** Open with truncation, print and close. */
    method WriteMountFile(p: Pid, text: string, f: set<Call>) returns (out: Outcome)
      requires Agrees() && p in m.pc && m.pc[p] == Mount(MountOpen) && text == u.mountText(EnvOf(m, p))
      modifies this
      ensures Agrees() && p in m.pc && old(log) <= log && Stage(m, p) == Stage(old(m), p)
      ensures EnvOf(m, p) == EnvOf(old(m), p)
      ensures out == if OpenMount in f || WriteMount in f || CloseMount in f then Failed else Succeeded
      ensures m.pc[p] == if out == Failed then Init(InitUnlock(Failed)) else Mount(MountMode)
      ensures quiet && out == Succeeded ==> HasText(disk, text)
    {
      var ino;
      out, ino := OpenMountPath(p, f);
      if out == Failed {
        return;
      }
      out := Print(p, ino, text, f);
      if out == Failed {
        return;
      }
      Others(p);
      if CloseMount in f {
        Step(p, Fail);
        out := Failed;
      }
    }

    method OpenMountPath(p: Pid, f: set<Call>) returns (out: Outcome, ino: nat)
      requires Agrees() && p in m.pc && m.pc[p] == Mount(MountOpen)
      modifies this
      ensures Agrees() && p in m.pc && old(log) <= log && Stage(m, p) == Stage(old(m), p)
      ensures EnvOf(m, p) == EnvOf(old(m), p)
      ensures out == if OpenMount in f then Failed else Succeeded
      ensures m.pc[p] == if out == Failed then Init(InitUnlock(Failed)) else Mount(MountWrite(ino, 0))
      ensures quiet && out == Succeeded ==> disk.mount == Some(ino) && ino < |disk.files| && disk.files[ino] == ""
    {
      Others(p);
      FilesInRange(u, start, log, p);
      var a;
      a, ino := OpenMountFile(OpenMount in f);
      if a == Fault {
        Step(p, Fail);
        return Failed, ino;
      }
      StepOpened(p, ino);
      out := Succeeded;
    }

    method StepOpened(p: Pid, ino: nat)
      requires Run() && p in m.pc && m.pc[p] == Mount(MountOpen)
      requires m.mount.Some? ==> m.mount.value < |m.files|
      requires ino == (if m.mount.Some? then m.mount.value else |m.files|) && disk == Truncated(DiskOf(m), ino)
      modifies this`m, this`log
      ensures Agrees() && p in m.pc && old(log) <= log && Stage(m, p) == Stage(old(m), p)
      ensures EnvOf(m, p) == EnvOf(old(m), p) && m.pc[p] == Mount(MountWrite(ino, 0))
    {
      Step(p, Ok);
    }

    /** `dprintf`: any number of writes, each of some of what is left. */
    method Print(p: Pid, ino: nat, text: string, f: set<Call>) returns (out: Outcome)
      requires Agrees() && p in m.pc && m.pc[p] == Mount(MountWrite(ino, 0)) && text == u.mountText(EnvOf(m, p))
      modifies this
      ensures Agrees() && p in m.pc && old(log) <= log && Stage(m, p) == Stage(old(m), p)
      ensures EnvOf(m, p) == EnvOf(old(m), p)
      ensures out == if WriteMount in f then Failed else Succeeded
      ensures m.pc[p] == if out == Failed then Init(InitUnlock(Failed)) else Mount(MountMode)
      ensures quiet && out == Succeeded && StartsEmpty(old(disk), ino) ==>
                disk.mount == Some(ino) && ino < |disk.files| && disk.files[ino] == text
    {
      var off: nat := 0;
      var n: nat := *;
      while 0 < n < |text| - off
        invariant Agrees() && p in m.pc && m.pc[p] == Mount(MountWrite(ino, off)) && EnvOf(m, p) == EnvOf(old(m), p)
        invariant old(log) <= log && Stage(m, p) == Stage(old(m), p) && off <= |text|
        invariant quiet && StartsEmpty(old(disk), ino) ==>
                    disk.mount == Some(ino) && ino < |disk.files| && disk.files[ino] == text[..off]
        decreases |text| - off
      {
        WriteSome(p, ino, off, n, text);
        off := off + n;
        n := *;
      }
      out := WriteRest(p, ino, off, text, f);
    }

    method WriteSome(p: Pid, ino: nat, off: nat, n: nat, text: string)
      requires Agrees() && p in m.pc && m.pc[p] == Mount(MountWrite(ino, off)) && text == u.mountText(EnvOf(m, p))
      requires 0 < n < |text| - off
      modifies this
      ensures Agrees() && p in m.pc && m.pc[p] == Mount(MountWrite(ino, off + n)) && EnvOf(m, p) == EnvOf(old(m), p)
      ensures old(log) <= log && Stage(m, p) == Stage(old(m), p)
      ensures quiet && ino < |old(disk).files| && old(disk).files[ino] == text[..off] ==>
                disk.mount == old(disk).mount && ino < |disk.files| && disk.files[ino] == text[..off + n]
    {
      Others(p);
      FilesInRange(u, start, log, p);
      WriteFile(ino, off, text[off..off + n]);
      StepWrite(p, ino, off, text[off..off + n], Chunk(n));
      WritePrefix(text, off, n);
    }

    /** The step for a write: `Chunk` with some of the rest, `Ok` with all of it. */
    method StepWrite(p: Pid, ino: nat, off: nat, part: string, a: Action)
      requires Run() && p in m.pc && m.pc[p] == Mount(MountWrite(ino, off)) && ino < |m.files|
      requires disk == Written(DiskOf(m), ino, off, part)
      requires var text := u.mountText(EnvOf(m, p));
               || (a == Chunk(|part|) && 0 < |part| < |text| - off && part == text[off..off + |part|])
               || (a == Ok && off <= |text| && part == text[off..])
      modifies this`m, this`log
      ensures Agrees() && p in m.pc && old(log) <= log && Stage(m, p) == Stage(old(m), p)
      ensures EnvOf(m, p) == EnvOf(old(m), p)
      ensures m.pc[p] == Mount(if a == Ok then MountMode else MountWrite(ino, off + |part|))
    {
      Step(p, a);
    }

    method WriteRest(p: Pid, ino: nat, off: nat, text: string, f: set<Call>) returns (out: Outcome)
      requires Agrees() && p in m.pc && m.pc[p] == Mount(MountWrite(ino, off)) && text == u.mountText(EnvOf(m, p))
      requires off <= |text|
      modifies this
      ensures Agrees() && p in m.pc && old(log) <= log && Stage(m, p) == Stage(old(m), p)
      ensures EnvOf(m, p) == EnvOf(old(m), p)
      ensures out == if WriteMount in f then Failed else Succeeded
      ensures m.pc[p] == if out == Failed then Init(InitUnlock(Failed)) else Mount(MountMode)
      ensures quiet && out == Succeeded && ino < |old(disk).files| && old(disk).files[ino] == text[..off] ==>
                disk.mount == old(disk).mount && ino < |disk.files| && disk.files[ino] == text
    {
      Others(p);
      if WriteMount in f {
        Step(p, WriteFail);
        return Failed;
      }
      FilesInRange(u, start, log, p);
      WriteFile(ino, off, text[off..]);
      StepWrite(p, ino, off, text[off..], Ok);
      out := Succeeded;
      assert text[off..off + (|text| - off)] == text[off..] && text[..|text|] == text;
      WritePrefix(text, off, |text| - off);
    }

    // task_init_privileged

    /** `snccliprecon_task_init_privileged`. */
    method TaskInitPrivileged(
        p: Pid, env: Environment.JobEnv, cfg: Config.Settings, job: Environment.Uint32, step: Environment.Uint32,
        batch: bool, f: set<Call>)
      returns (rc: Option<Rc>)
      requires Agrees() && p !in m.pc && u == HookAgreement.PluginSetup(u.enroot, cfg, job, step)
      modifies this, env
      ensures Agrees() && old(log) <= log
      ensures !cfg.enabled || batch ==> rc == Some(Success) && log == old(log) && env.vars == old(env.vars)
      ensures cfg.enabled && !batch ==>
                && p in m.pc && EnvOf(m, p) == env.vars
                && env.vars == Environment.StepRewrite(old(env.vars), env.refused, cfg, job, step).0
      ensures cfg.enabled && !batch && rc.Some? ==>
                && m.pc[p].Init? && m.pc[p].i.InitDone?
                && rc == Some(if m.pc[p].i.out == Failed then Error else Success)
                && m.pc[p].i.out in InitMay(f, Rewritable(old(env.vars), env.refused, cfg, job, step),
                                            Environment.DumpDirOf(env.vars), u.enroot)
      ensures cfg.enabled && !batch && rc.None? ==> Asleep(m, p)
      ensures cfg.enabled && !batch && rc == Some(Success) ==>
                && (Environment.MarkedOwned(old(env.vars)) ==>
                      env.vars == old(env.vars)[Environment.DUMP_KEY := Environment.StepDir(cfg, job, step)])
                && (m.pc[p].i.out == Succeeded && Environment.DumpDirOf(env.vars) != "" ==>
                      Environment.DumpDirOf(env.vars) in disk.dirs)
      ensures cfg.enabled && !batch && f == {} && rc.Some? && Rewritable(old(env.vars), env.refused, cfg, job, step) ==>
                rc == Some(Success)
      ensures cfg.enabled && !batch && quiet && old(disk).init && EnsureTmp !in f && CreateLock !in f
              && Rewritable(old(env.vars), env.refused, cfg, job, step) ==>
                rc == Some(Success) && disk == old(disk)
      ensures cfg.enabled && !batch && quiet && rc == Some(Success) && !old(disk).init && old(disk).mount.None?
              && u.enroot && Environment.DumpDirOf(env.vars) != "" ==>
                Bound(disk, Environment.PluginOf(env.vars, cfg), Environment.DumpDirOf(env.vars))
    {
      if !cfg.enabled || batch {
        return Some(Success);
      }
      OwnedRewrite(old(env.vars), env.refused, cfg, job, step);
      ghost var after := Environment.StepRewrite(env.vars, env.refused, cfg, job, step).0;
      NothingFails(f, Environment.DumpDirOf(after), u.enroot);
      rc := InitHookWithDir(p, env, cfg, job, step, f);
    }

    /** The same, and where the dump directory is. */
    method InitHookWithDir(
        p: Pid, env: Environment.JobEnv, cfg: Config.Settings, job: Environment.Uint32, step: Environment.Uint32,
        f: set<Call>)
      returns (rc: Option<Rc>)
      requires Agrees() && p !in m.pc && u == HookAgreement.PluginSetup(u.enroot, cfg, job, step)
      modifies this, env
      ensures Agrees() && old(log) <= log && p in m.pc && EnvOf(m, p) == env.vars
      ensures env.vars == Environment.StepRewrite(old(env.vars), env.refused, cfg, job, step).0
      ensures rc == Some(Success) ==> Rewritable(old(env.vars), env.refused, cfg, job, step)
      ensures rc.Some? ==>
                && m.pc[p].Init? && m.pc[p].i.InitDone?
                && rc == Some(if m.pc[p].i.out == Failed then Error else Success)
                && m.pc[p].i.out in InitMay(f, Rewritable(old(env.vars), env.refused, cfg, job, step),
                                            Environment.DumpDirOf(env.vars), u.enroot)
      ensures rc.None? ==> Asleep(m, p)
      ensures quiet && old(disk).init && EnsureTmp !in f && CreateLock !in f
              && Rewritable(old(env.vars), env.refused, cfg, job, step) ==>
                rc == Some(Success) && disk == old(disk)
      ensures quiet && rc == Some(Success) && !old(disk).init && old(disk).mount.None?
              && u.enroot && Environment.DumpDirOf(env.vars) != "" ==>
                Bound(disk, Environment.PluginOf(env.vars, cfg), Environment.DumpDirOf(env.vars))
      ensures rc == Some(Success) && m.pc[p].i.out == Succeeded && Environment.DumpDirOf(env.vars) != "" ==>
                Environment.DumpDirOf(env.vars) in disk.dirs
    {
      rc := InitHook(p, env, cfg, job, step, f);
      DirEnsured(u, start, log, p);
      SetupIs(u, cfg, job, step, env.vars);
    }

    /** The hook of an enabled plugin outside the batch step. */
    method InitHook(
        p: Pid, env: Environment.JobEnv, cfg: Config.Settings, job: Environment.Uint32, step: Environment.Uint32,
        f: set<Call>)
      returns (rc: Option<Rc>)
      requires Agrees() && p !in m.pc && u == HookAgreement.PluginSetup(u.enroot, cfg, job, step)
      modifies this, env
      ensures Agrees() && old(log) <= log && p in m.pc && EnvOf(m, p) == env.vars
      ensures env.vars == Environment.StepRewrite(old(env.vars), env.refused, cfg, job, step).0
      ensures rc == Some(Success) ==> Rewritable(old(env.vars), env.refused, cfg, job, step)
      ensures rc.Some? ==>
                && m.pc[p].Init? && m.pc[p].i.InitDone?
                && rc == Some(if m.pc[p].i.out == Failed then Error else Success)
                && m.pc[p].i.out in InitMay(f, Rewritable(old(env.vars), env.refused, cfg, job, step),
                                            Environment.DumpDirOf(env.vars), u.enroot)
      ensures rc.None? ==> Asleep(m, p)
      ensures quiet && old(disk).init && EnsureTmp !in f && CreateLock !in f
              && Rewritable(old(env.vars), env.refused, cfg, job, step) ==>
                rc == Some(Success) && disk == old(disk)
      ensures quiet && rc == Some(Success) && !old(disk).init && old(disk).mount.None?
              && u.enroot && Environment.DumpDirOf(env.vars) != "" ==>
                Bound(disk, Environment.PluginOf(env.vars, cfg), Environment.DumpDirOf(env.vars))
    {
      var once := RewriteThenCreate(p, env, cfg, job, step, f);
      if once == Exists {
        return Some(Success);
      }
      if once == Fault {
        return Some(Error);
      }
      var found, dumpDir := env.Get(Environment.DUMP_KEY);
      var plugin := env.GetProfilerPlugin(cfg);
      SetupIs(u, cfg, job, step, env.vars);
      rc := SetUp(p, plugin, dumpDir, f);
    }

    /** The rewrite, and with it done the try for the lock. */
    method RewriteThenCreate(
        p: Pid, env: Environment.JobEnv, cfg: Config.Settings, job: Environment.Uint32, step: Environment.Uint32,
        f: set<Call>)
      returns (a: Answer)
      requires Agrees() && p !in m.pc && u == HookAgreement.PluginSetup(u.enroot, cfg, job, step)
      modifies this, env
      ensures Agrees() && old(log) <= log && p in m.pc && EnvOf(m, p) == env.vars
      ensures env.vars == Environment.StepRewrite(old(env.vars), env.refused, cfg, job, step).0
      ensures a == Fault || a == Exists || a == Done
      ensures m.pc[p] == Init(if a == Fault then InitDone(Failed)
                              else if a == Exists then InitDone(AlreadyDone) else InitDump)
      ensures var rewritten := Rewritable(old(env.vars), env.refused, cfg, job, step);
              && (!rewritten || EnsureTmp in f || CreateLock in f ==> a == Fault)
              && (a == Fault ==> !rewritten || EnsureTmp in f || CreateLock in f || ModeLock in f || CloseLock in f)
              && (a == Done ==> ModeLock !in f && CloseLock !in f)
              && (quiet && rewritten ==> (a == Exists <==> EnsureTmp !in f && CreateLock !in f && old(disk).init))
      ensures quiet && a == Exists ==> disk == old(disk)
      ensures quiet && a == Done ==> disk == old(disk).(init := true)
    {
      var rewritten := Rewrite(p, env, cfg, job, step);
      if !rewritten {
        return Fault;
      }
      a := CreateOnce(p, InitFile, f);
    }

    /** The hook begins, and `set_step_dump_dir_if_owned_by_plugin`. */
    method Rewrite(
        p: Pid, env: Environment.JobEnv, cfg: Config.Settings, job: Environment.Uint32, step: Environment.Uint32)
      returns (ok: bool)
      requires Agrees() && p !in m.pc && u == HookAgreement.PluginSetup(u.enroot, cfg, job, step)
      modifies this, env
      ensures Agrees() && old(log) <= log && p in m.pc
      ensures ok <==> Rewritable(old(env.vars), env.refused, cfg, job, step)
      ensures m.pc[p] == Init(if ok then InitTmp else InitDone(Failed)) && EnvOf(m, p) == env.vars
      ensures env.vars == Environment.StepRewrite(old(env.vars), env.refused, cfg, job, step).0
      ensures quiet ==> disk == old(disk)
    {
      Begin(p, env.vars);
      RewriteIs(u, cfg, job, step, env.vars, env.refused);
      var rc := env.SetStepDumpDir(cfg, job, step);
      ok := rc == Success;
      Rewritten(p, env.vars, ok);
    }

    method Begin(p: Pid, e: Config.Env)
      requires Agrees() && p !in m.pc
      modifies this
      ensures Agrees() && old(log) <= log
      ensures p in m.pc && m.pc[p] == Init(InitRender) && EnvOf(m, p) == e
      ensures quiet ==> disk == old(disk)
    {
      Others(p);
      Step(p, BeginInit(e));
    }

    /** Nobody else sees the task's environment. */
    method Rewritten(p: Pid, e: Config.Env, ok: bool)
      requires Agrees() && p in m.pc && m.pc[p] == Init(InitRender)
      requires if ok then u.rewrite(EnvOf(m, p)) == Some(e) else u.owned(EnvOf(m, p)) && e == EnvOf(m, p)
      modifies this
      ensures Agrees() && old(log) <= log && p in m.pc
      ensures m.pc[p] == Init(if ok then InitTmp else InitDone(Failed)) && EnvOf(m, p) == e
      ensures quiet ==> disk == old(disk)
    {
      Step(p, if ok then Ok else Fail);
    }

    /** `ensure_dump_dir_if_set` and `create_enroot_mount_if_ready`. */
    method SetUp(p: Pid, plugin: string, dumpDir: string, f: set<Call>) returns (rc: Option<Rc>)
      requires Agrees() && p in m.pc && m.pc[p] == Init(InitDump) && ModeLock !in f && CloseLock !in f
      requires dumpDir == u.dumpDir(EnvOf(m, p)) && MountFile.Text(plugin, dumpDir) == u.mountText(EnvOf(m, p))
      modifies this
      ensures Agrees() && old(log) <= log && p in m.pc && EnvOf(m, p) == EnvOf(old(m), p)
      ensures rc.Some? ==>
                && m.pc[p].Init? && m.pc[p].i.InitDone?
                && rc == Some(if m.pc[p].i.out == Failed then Error else Success)
                && m.pc[p].i.out in SetupMay(f, dumpDir, u.enroot)
      ensures rc.None? ==> Asleep(m, p)
      ensures quiet && rc == Some(Success) && old(disk).mount.None? && u.enroot && dumpDir != "" ==>
                Bound(disk, plugin, dumpDir)
    {
      var a := EnsureDumpDir(p, dumpDir, f);
      if a == Fault {
        return Some(Error);
      }
      if !u.enroot || dumpDir == "" {
        return Some(Success);
      }
      rc := MakeMountFile(p, plugin, dumpDir, f);
    }

    /** The dump directory if there is one, then `dir_exists` of Enroot's directory. */
    method EnsureDumpDir(p: Pid, dumpDir: string, f: set<Call>) returns (a: Answer)
      requires Agrees() && p in m.pc && m.pc[p] == Init(InitDump) && dumpDir == u.dumpDir(EnvOf(m, p))
      modifies this
      ensures Agrees() && old(log) <= log && p in m.pc && EnvOf(m, p) == EnvOf(old(m), p)
      ensures a == if dumpDir != "" && EnsureDump in f then Fault else Done
      ensures a == Fault ==> m.pc[p] == Init(InitDone(Failed))
      ensures a == Done ==> m.pc[p] == Init(if u.enroot && dumpDir != "" then InitLock else InitDone(Succeeded))
      ensures a == Done ==> p !in m.lock.pc
      ensures quiet ==> disk == old(disk).(dirs := disk.dirs)
    {
      NoCallYet(u, start, log, p);
      a := EnsureDirIfSet(p, dumpDir, f);
      if a == Done {
        Others(p);
        Step(p, Ok);
      }
    }

    method EnsureDirIfSet(p: Pid, dumpDir: string, f: set<Call>) returns (a: Answer)
      requires Agrees() && p in m.pc && m.pc[p] == Init(InitDump) && dumpDir == u.dumpDir(EnvOf(m, p))
      modifies this
      ensures Agrees() && old(log) <= log && p in m.pc && EnvOf(m, p) == EnvOf(old(m), p)
      ensures Stage(m, p) == Stage(old(m), p)
      ensures a == if dumpDir != "" && EnsureDump in f then Fault else Done
      ensures m.pc[p] == Init(if a == Fault then InitDone(Failed) else InitEnroot)
      ensures quiet ==> disk == old(disk).(dirs := disk.dirs)
    {
      Others(p);
      a := Done;
      if dumpDir != "" {
        a := EnsureDir(dumpDir, EnsureDump in f);
      }
      Step(p, if a == Fault then Fail else Ok);
    }

    /** `snccliprecon_enroot_create_mount_file`. */
    method MakeMountFile(p: Pid, plugin: string, dumpDir: string, f: set<Call>) returns (rc: Option<Rc>)
      requires Agrees() && p in m.pc && m.pc[p] == Init(InitLock) && p !in m.lock.pc
      requires MountFile.Text(plugin, dumpDir) == u.mountText(EnvOf(m, p))
      modifies this
      ensures Agrees() && old(log) <= log && p in m.pc && EnvOf(m, p) == EnvOf(old(m), p)
      ensures rc.Some? ==>
                && m.pc[p].Init? && m.pc[p].i.InitDone?
                && rc == Some(if m.pc[p].i.out == Failed then Error else Success)
      ensures rc.Some? ==>
                m.pc[p].i.out in if OpenFlock in f || ModeFlock in f || TakeFlock in f then {Failed} else MountMay(f)
      ensures rc.None? ==> Asleep(m, p)
      ensures quiet && rc == Some(Success) && old(disk).mount.None? ==> Bound(disk, plugin, dumpDir)
    {
      var a, ino := Acquire(p, f);
      if a == Fault {
        return Some(Error);
      }
      if a == Waits {
        return None;
      }
      var out := CreateMountFileLocked(p, plugin, dumpDir, f);
      Release(p, ino, out, f);
      rc := Some(if out == Failed then Error else Success);
    }

    // task_exit

    /** `snccliprecon_task_exit`. */
    method TaskExit(p: Pid, enabled: bool, batch: bool, f: set<Call>) returns (rc: Option<Rc>)
      requires Agrees() && p !in m.pc
      modifies this
      ensures Agrees() && old(log) <= log
      ensures !enabled || batch ==> rc == Some(Success) && log == old(log)
      ensures enabled && !batch && rc.Some? ==>
                && p in m.pc && m.pc[p].Exit? && m.pc[p].Terminal()
                && m.pc[p].e in ExitMay(f, u.enroot)
                && rc == Some(if m.pc[p].e.out == Failed then Error else Success)
      ensures enabled && !batch && rc.None? ==> Asleep(m, p)
      ensures enabled && !batch && f == {} && rc.Some? ==> rc == Some(Success)
      ensures quiet && enabled && !batch && rc.Some? ==>
                RemainsOf(disk) == AfterExit(RemainsOf(old(disk)), f, u.enroot)
    {
      if !enabled || batch {
        return Some(Success);
      }
      BeginExitHook(p);
      var once := CreateOnce(p, ExitFile, f);
      if once == Exists {
        return Some(Success);
      }
      if once == Fault {
        return Some(Error);
      }
      rc := CleanUp(p, f);
    }

    method BeginExitHook(p: Pid)
      requires Agrees() && p !in m.pc
      modifies this
      ensures Agrees() && old(log) <= log && p in m.pc && m.pc[p] == Exit(ExitTmp)
      ensures quiet ==> disk == old(disk)
    {
      Others(p);
      Step(p, BeginExit);
    }

    /** With the exit lock taken. */
    method CleanUp(p: Pid, f: set<Call>) returns (rc: Option<Rc>)
      requires Agrees() && p in m.pc && m.pc[p] == Exit(ExitEnroot)
      requires ModeLock !in f && CloseLock !in f
      modifies this
      ensures Agrees() && old(log) <= log && p in m.pc
      ensures rc.Some? ==>
                && m.pc[p].Exit? && m.pc[p].Terminal()
                && m.pc[p].e == CleanupEnd(f, u.enroot)
                && rc == Some(if m.pc[p].e.out == Failed then Error else Success)
      ensures rc.None? ==> Asleep(m, p)
      ensures quiet && rc.Some? ==> RemainsOf(disk) == AfterCleanup(RemainsOf(old(disk)), f, u.enroot)
    {
      LookForEnroot(p);
      if u.enroot {
        var a := RemoveMountFile(p, f);
        if a == Fault {
          return Some(Error);
        }
        if a == Waits {
          return None;
        }
      }
      RemoveLocks(p, f);
      rc := Some(Success);
    }

    /** `dir_exists` of Enroot's directory. */
    method LookForEnroot(p: Pid)
      requires Agrees() && p in m.pc && m.pc[p] == Exit(ExitEnroot)
      modifies this
      ensures Agrees() && old(log) <= log && p in m.pc && p !in m.lock.pc
      ensures m.pc[p] == Exit(if u.enroot then ExitLock else ExitUser)
      ensures quiet ==> disk == old(disk)
    {
      NoCallYet(u, start, log, p);
      Others(p);
      Step(p, Ok);
    }

    /** `snccliprecon_enroot_remove_mount_file`. */
    method RemoveMountFile(p: Pid, f: set<Call>) returns (a: Answer)
      requires Agrees() && p in m.pc && m.pc[p] == Exit(ExitLock) && p !in m.lock.pc
      modifies this
      ensures Agrees() && old(log) <= log && p in m.pc
      ensures a == Fault || a == Waits || a == Done
      ensures a == Fault ==> m.pc[p] == Exit(ExitStranded(Failed))
      ensures a == Fault ==> OpenFlock in f || ModeFlock in f || TakeFlock in f || UnlinkMount in f
      ensures a == Done ==> m.pc[p] == Exit(ExitUser)
      ensures a == Done ==> OpenFlock !in f && ModeFlock !in f && TakeFlock !in f && UnlinkMount !in f
      ensures a == Waits ==> Asleep(m, p)
      ensures quiet && a != Waits ==>
                RemainsOf(disk) == MountRemoved(RemainsOf(old(disk)), f)
    {
      var ino;
      a, ino := Acquire(p, f);
      if a != Done {
        return;
      }
      a := RemoveMountFileLocked(p, f);
      Release(p, ino, if a == Fault then Failed else Succeeded, f);
    }

    /** `remove_mount_file_locked`. */
    method RemoveMountFileLocked(p: Pid, f: set<Call>) returns (a: Answer)
      requires Agrees() && p in m.pc && m.pc[p] == Exit(ExitRemove)
      modifies this
      ensures Agrees() && old(log) <= log && p in m.pc && Stage(m, p) == Stage(old(m), p)
      ensures a == if UnlinkMount in f then Fault else Done
      ensures m.pc[p] == Exit(ExitUnlock(if a == Fault then Failed else Succeeded))
      ensures quiet ==> disk == if UnlinkMount in f then old(disk) else old(disk).(mount := None)
    {
      Others(p);
      a := UnlinkMountFile(UnlinkMount in f);
      Step(p, if a == Fault then Fail else Ok);
      a := if a == Fault then Fault else Done;
    }

    /** The three `remove_worker_lock` calls, own lock last; failures are only logged. */
    method RemoveLocks(p: Pid, f: set<Call>)
      requires Agrees() && p in m.pc && m.pc[p] == Exit(ExitUser)
      modifies this
      ensures Agrees() && old(log) <= log && p in m.pc
      ensures m.pc[p] == Exit(if UnlinkOwn in f then ExitStranded(Succeeded) else ExitDone(Succeeded))
      ensures quiet ==> RemainsOf(disk) == AfterRemovals(RemainsOf(old(disk)), f)
    {
      RemoveLock(p, UserFile, UnlinkUser in f);
      RemoveLock(p, InitFile, UnlinkInit in f);
      RemoveLock(p, ExitFile, UnlinkOwn in f);
    }

    /** `snccliprecon_remove_worker_lock`. */
    method RemoveLock(p: Pid, l: LockFile, bad: bool)
      requires Agrees() && p in m.pc
      requires m.pc[p] == Exit(match l case UserFile => ExitUser case InitFile => ExitInit case ExitFile => ExitOwn)
      modifies this
      ensures Agrees() && old(log) <= log && p in m.pc
      ensures m.pc[p] == Exit(match l
                              case UserFile => ExitInit
                              case InitFile => ExitOwn
                              case ExitFile => if bad then ExitStranded(Succeeded) else ExitDone(Succeeded))
      ensures quiet ==> disk == if bad then old(disk) else Put(old(disk), l, false)
    {
      Others(p);
      var a := UnlinkLock(l, bad);
      StepRemoval(p, l, a == Fault);
    }

    method StepRemoval(p: Pid, l: LockFile, failed: bool)
      requires Run() && p in m.pc && disk == if failed then DiskOf(m) else Put(DiskOf(m), l, false)
      requires m.pc[p] == Exit(match l case UserFile => ExitUser case InitFile => ExitInit case ExitFile => ExitOwn)
      modifies this`m, this`log
      ensures Agrees() && old(log) <= log && p in m.pc
      ensures m.pc[p] == Exit(match l
                              case UserFile => ExitInit
                              case InitFile => ExitOwn
                              case ExitFile => if failed then ExitStranded(Succeeded) else ExitDone(Succeeded))
    {
      Step(p, if failed then Fail else Ok);
    }
  }

  /** Agreement on the worker's own files and environments: if the plugin owns the dump
      directory and every task started from e0, then on every worker every hook that has
      returned without error left its task the same environment (which
      `TaskInitPrivileged` has in the task's own), the directory is on the disk once one
      has finished the setup, and a finished mount file made meanwhile binds it. */
  lemma {:induction false} OwnedTasksAgreeOnDisk(
      n: Node, cfg: Config.Settings, job: Environment.Uint32, step: Environment.Uint32, e0: Config.Env)
    requires n.Agrees() && n.u == HookAgreement.PluginSetup(n.u.enroot, cfg, job, step)
    requires Environment.MarkedOwned(e0) && |Environment.StepDir(cfg, job, step)| < CStrings.PATH_MAX
    requires HookAgreement.AllFrom(n.log, e0)
    ensures HookAgreement.Agreed(n.m, |n.start.files|, n.log, e0,
                                 Environment.PluginOf(e0, cfg), Environment.StepDir(cfg, job, step))
    ensures n.disk.dirs == n.m.dirs && n.disk.files == n.m.files
  {
    HookAgreement.OwnedTasksAgree(n.u.enroot, cfg, job, step, n.start, n.log, e0);
  }
}
