/** The two worker hooks of one job step, `task_init_privileged` and `task_exit`, run by
    any number of processes on one worker. Every system call that touches a shared file
    is one atomic step; each step can succeed or take the error exit the code has.

    A process runs one hook. `Ok` is its next call succeeding (what that means depends on
    the files it meets: an exclusive create may find the lock there), `Fail` is the call
    failing otherwise, `Chunk` a write of part of the mount text, `WriteFail` a failing
    write, and `Lock` a step of `with_lock` on the mount file. Steps on private data are
    merged with the call before them. */
module Hooks {
  import opened Wrappers
  import opened Config
  import F = Flock

  type Pid = F.Pid

  /** What is fixed during a run: whether Enroot's mount directory exists, and what the
      init hook computes from its task's environment: the rewritten environment (None if
      the rendering does not fit), whether the rewrite can fail at all, the dump directory
      and the text of the mount file. */
  datatype Setup = Setup(
    enroot: bool,
    rewrite: Env -> Option<Env>,
    owned: Env -> bool,
    dumpDir: Env -> string,
    mountText: Env -> string)

  datatype Outcome = Succeeded | AlreadyDone | Failed

  /** `task_init_privileged`, up to and after the callback under the mount file's lock. */
  datatype InitPc =
    | InitRender                   // rewrite an owned dump dir to step level
    | InitTmp                      // ensure_dir of the lock directory
    | InitCreate                   // exclusive create of the init lock
    | InitSettle                   // ensure_mode and close of the new lock
    | InitDump                     // ensure_dir of the dump directory
    | InitEnroot                   // dir_exists of Enroot's mount directory
    | InitLock                     // with_lock: open, ensure_mode, flock
    | InitUnlock(out: Outcome)     // with_lock: unlock, unlink, close
    | InitDone(out: Outcome)

  /** `create_mount_file_locked`. */
  datatype MountPc =
    | MountStat
    | MountOpen                    // create or truncate
    | MountWrite(ino: nat, off: nat)  // the two lines, in any number of writes
    | MountMode                    // close and ensure_mode

  /** `task_exit`, with `remove_mount_file_locked`. */
  datatype ExitPc =
    | ExitTmp
    | ExitCreate                   // exclusive create of the exit lock
    | ExitSettle
    | ExitEnroot
    | ExitLock
    | ExitRemove                   // callback: unlink the mount file
    | ExitUnlock(out: Outcome)
    | ExitUser                     // unlink the user-init lock
    | ExitInit                     // unlink the task-init lock
    | ExitOwn                      // unlink the exit lock
    | ExitDone(out: Outcome)
    | ExitStranded(out: Outcome)   // returned, but its exit lock is still there
  {
    /** Between a successful create of the exit lock and the removal of it. */
    predicate InCleanup() {
      !ExitTmp? && !ExitCreate? && !ExitDone? && !ExitStranded?
    }
  }

  datatype Pc = Init(i: InitPc) | Mount(m: MountPc) | Exit(e: ExitPc)
  {
    predicate Terminal() {
      (Init? && i.InitDone?) || (Exit? && (e.ExitDone? || e.ExitStranded?))
    }

    predicate IsInit() {
      Init? || Mount?
    }

    /** In a callback that runs under the mount file's lock. */
    predicate InCallback() {
      Mount? || (Exit? && e.ExitRemove?)
    }

    predicate InCleanup() {
      Exit? && e.InCleanup()
    }
  }

  datatype Action = BeginInit(env: Env) | BeginExit | Ok | Fail | Chunk(n: nat) | WriteFail | Lock(a: F.Action)
  {
    predicate IsError() {
      Fail? || WriteFail? || (Lock? && a.IsError())
    }
  }

  /** `mount` is the inode the mount path denotes and `files` the data of every inode it
      ever denoted; the winners and removers of a lock are those who created it and those
      who effectively removed it. */
  datatype State = State(
    initLock: bool, userLock: bool, exitLock: bool,
    mount: Option<nat>, files: seq<string>,
    lock: F.State,
    dirs: set<string>,
    env: map<Pid, Env>,
    pc: map<Pid, Pc>,
    initWinners: set<Pid>, initRemovers: set<Pid>,
    exitWinners: set<Pid>, exitRemovers: set<Pid>)

  /** No hook has started; files may be left from before. */
  predicate Start(s: State) {
    && s.pc == map[] && s.env == map[] && s.initWinners == {} && s.initRemovers == {}
    && s.exitWinners == {} && s.exitRemovers == {}
    && F.Init(s.lock) && (s.mount.Some? ==> s.mount.value < |s.files|)
  }

  /** Writing at an offset; a gap behind the end of the file reads as NULs. */
  function WriteAt(was: string, off: nat, part: string): string {
    if part == "" then was
    else
      var before := if off <= |was| then was[..off] else was + seq(off - |was|, _ => '\0');
      before + part + (if off + |part| < |was| then was[off + |part|..] else "")
  }

  function EnvOf(s: State, p: Pid): Env {
    if p in s.env then s.env[p] else map[]
  }

  // Which step is next

  predicate OkEnabled(u: Setup, s: State, p: Pid)
    requires p in s.pc
  {
    match s.pc[p]
    case Init(i) =>
      if i.InitRender? then u.rewrite(EnvOf(s, p)).Some? else !i.InitLock? && !i.InitUnlock? && !i.InitDone?
    case Mount(m) => m.MountWrite? ==> m.ino < |s.files| && m.off <= |u.mountText(EnvOf(s, p))|
    case Exit(e) => !e.ExitLock? && !e.ExitUnlock? && !e.ExitDone? && !e.ExitStranded?
  }

  predicate FailEnabled(u: Setup, s: State, p: Pid)
    requires p in s.pc
  {
    match s.pc[p]
    case Init(i) =>
      if i.InitRender? then u.owned(EnvOf(s, p))
      else if i.InitDump? then u.dumpDir(EnvOf(s, p)) != ""
      else i.InitTmp? || i.InitCreate? || i.InitSettle?
    case Mount(m) => !m.MountWrite?
    case Exit(e) => !e.ExitEnroot? && !e.ExitLock? && !e.ExitUnlock? && !e.ExitDone? && !e.ExitStranded?
  }

  predicate Acquires(a: F.Action) {
    a.OpenOk? || a.OpenFail? || a.ModeOk? || a.ModeFail? || a.FlockOk? || a.FlockFail?
  }

  predicate LockEnabled(s: State, p: Pid, a: F.Action)
    requires p in s.pc
  {
    && F.Enabled(s.lock, p, a)
    && (s.pc[p] == Init(InitLock) || s.pc[p] == Exit(ExitLock) ||
        (s.pc[p].Init? && s.pc[p].i.InitUnlock?) || (s.pc[p].Exit? && s.pc[p].e.ExitUnlock?))
    && (Acquires(a) <==> s.pc[p] == Init(InitLock) || s.pc[p] == Exit(ExitLock))
  }

  predicate Enabled(u: Setup, s: State, p: Pid, a: Action) {
    match a
    case BeginInit(_) => p !in s.pc
    case BeginExit => p !in s.pc
    case Ok => p in s.pc && OkEnabled(u, s, p)
    case Fail => p in s.pc && FailEnabled(u, s, p)
    case Chunk(n) => p in s.pc && ChunkEnabled(u, s, p, n)
    case WriteFail => p in s.pc && s.pc[p].Mount? && s.pc[p].m.MountWrite?
    case Lock(b) => p in s.pc && LockEnabled(s, p, b)
  }

  /** Something is written and something is left. */
  predicate ChunkEnabled(u: Setup, s: State, p: Pid, n: nat)
    requires p in s.pc
  {
    && s.pc[p].Mount? && s.pc[p].m.MountWrite? && s.pc[p].m.ino < |s.files|
    && 0 < n && s.pc[p].m.off + n < |u.mountText(EnvOf(s, p))|
  }

  // What it does

  function At(s: State, p: Pid, c: Pc): State {
    s.(pc := s.pc[p := c])
  }

  function InitOk(u: Setup, s: State, p: Pid): (r: State)
    requires p in s.pc && s.pc[p].Init? && OkEnabled(u, s, p)
    ensures p in r.pc && r.pc == s.pc[p := r.pc[p]] && r.pc[p].Init?
    ensures r == s.(pc := r.pc, env := r.env, initLock := r.initLock, initWinners := r.initWinners, dirs := r.dirs)
  {
    match s.pc[p].i
    case InitRender => At(s.(env := s.env[p := u.rewrite(EnvOf(s, p)).value]), p, Init(InitTmp))
    case InitTmp => At(s, p, Init(InitCreate))
    case InitCreate =>
      if s.initLock then At(s, p, Init(InitDone(AlreadyDone)))
      else At(s.(initLock := true, initWinners := s.initWinners + {p}), p, Init(InitSettle))
    case InitSettle => At(s, p, Init(InitDump))
    case InitDump =>
      var dir := u.dumpDir(EnvOf(s, p));
      At(if dir == "" then s else s.(dirs := s.dirs + {dir}), p, Init(InitEnroot))
    case InitEnroot =>
      At(s, p, Init(if u.enroot && u.dumpDir(EnvOf(s, p)) != "" then InitLock else InitDone(Succeeded)))
  }

  function MountOk(u: Setup, s: State, p: Pid): (r: State)
    requires p in s.pc && s.pc[p].Mount? && OkEnabled(u, s, p)
    ensures p in r.pc && r.pc == s.pc[p := r.pc[p]]
    ensures r.pc[p].Mount? || r.pc[p] == Init(InitUnlock(Succeeded))
    ensures r == s.(pc := r.pc, mount := r.mount, files := r.files)
  {
    match s.pc[p].m
    case MountStat => At(s, p, Mount(if s.mount.Some? then MountMode else MountOpen))
    case MountOpen =>
      if s.mount.Some? && s.mount.value < |s.files|
      then At(s.(files := s.files[s.mount.value := ""]), p, Mount(MountWrite(s.mount.value, 0)))
      else At(s.(mount := Some(|s.files|), files := s.files + [""]), p, Mount(MountWrite(|s.files|, 0)))
    case MountWrite(i, off) =>
      At(s.(files := s.files[i := WriteAt(s.files[i], off, u.mountText(EnvOf(s, p))[off..])]), p, Mount(MountMode))
    case MountMode => At(s, p, Init(InitUnlock(Succeeded)))
  }

  function ExitOk(u: Setup, s: State, p: Pid): (r: State)
    requires p in s.pc && s.pc[p].Exit? && OkEnabled(u, s, p)
    ensures p in r.pc && r.pc == s.pc[p := r.pc[p]] && r.pc[p].Exit?
    ensures r == s.(pc := r.pc, exitLock := r.exitLock, userLock := r.userLock, initLock := r.initLock,
                    initRemovers := r.initRemovers, mount := r.mount,
                    exitWinners := r.exitWinners, exitRemovers := r.exitRemovers)
  {
    match s.pc[p].e
    case ExitTmp => At(s, p, Exit(ExitCreate))
    case ExitCreate =>
      if s.exitLock then At(s, p, Exit(ExitDone(AlreadyDone)))
      else At(s.(exitLock := true, exitWinners := s.exitWinners + {p}), p, Exit(ExitSettle))
    case ExitSettle => At(s, p, Exit(ExitEnroot))
    case ExitEnroot => At(s, p, Exit(if u.enroot then ExitLock else ExitUser))
    case ExitRemove => At(s.(mount := None), p, Exit(ExitUnlock(Succeeded)))
    case ExitUser => At(s.(userLock := false), p, Exit(ExitInit))
    case ExitInit =>
      At(s.(initLock := false, initRemovers := if s.initLock then s.initRemovers + {p} else s.initRemovers),
         p, Exit(ExitOwn))
    case ExitOwn =>
      At(s.(exitLock := false, exitRemovers := if s.exitLock then s.exitRemovers + {p} else s.exitRemovers),
         p, Exit(ExitDone(Succeeded)))
  }

  /** Where the error exits lead; nothing else changes. */
  function FailPc(c: Pc): Pc {
    match c
    case Init(_) => Init(InitDone(Failed))
    case Mount(_) => Init(InitUnlock(Failed))
    case Exit(e) =>
      Exit(match e
           case ExitTmp | ExitCreate => ExitDone(Failed)
           case ExitSettle => ExitStranded(Failed)
           case ExitRemove => ExitUnlock(Failed)
           case ExitUser => ExitInit             // logged and ignored
           case ExitInit => ExitOwn
           case ExitOwn => ExitStranded(Succeeded)
           case _ => e)
  }

  /** Where the caller of `with_lock` goes once its lock call stands at l. */
  function AfterLock(c: Pc, l: F.Pc): Pc {
    match c
    case Init(i) =>
      if i.InitLock? then
        (if l.Terminal() then Init(InitDone(Failed)) else if l.Holding? then Mount(MountStat) else c)
      else if i.InitUnlock? && l.Terminal() then Init(InitDone(i.out)) else c
    case Exit(e) =>
      Exit(if e.ExitLock? then
             (if l.Terminal() then ExitStranded(Failed) else if l.Holding? then ExitRemove else e)
           else if e.ExitUnlock? && l.Terminal() then
             (if e.out == Succeeded then ExitUser else ExitStranded(Failed))
           else e)
    case Mount(_) => c
  }

  function LockStep(s: State, p: Pid, a: F.Action): State
    requires p in s.pc && LockEnabled(s, p, a)
  {
    var l := F.Do(s.lock, p, a);
    At(s.(lock := l), p, AfterLock(s.pc[p], l.pc[p]))
  }

  function WriteChunk(u: Setup, s: State, p: Pid, n: nat): (r: State)
    requires p in s.pc && ChunkEnabled(u, s, p, n)
    ensures p in r.pc && r.pc == s.pc[p := r.pc[p]] && r == s.(pc := r.pc, files := r.files)
  {
    var i, off := s.pc[p].m.ino, s.pc[p].m.off;
    At(s.(files := s.files[i := WriteAt(s.files[i], off, u.mountText(EnvOf(s, p))[off..off + n])]),
       p, Mount(MountWrite(i, off + n)))
  }

  function Do(u: Setup, s: State, p: Pid, a: Action): (r: State)
    requires Enabled(u, s, p, a)
    ensures p in r.pc && r.pc == s.pc[p := r.pc[p]]
  {
    match a
    case BeginInit(e) => At(s.(env := s.env[p := e]), p, Init(InitRender))
    case BeginExit => At(s, p, Exit(ExitTmp))
    case Ok => if s.pc[p].Init? then InitOk(u, s, p) else if s.pc[p].Mount? then MountOk(u, s, p) else ExitOk(u, s, p)
    case Fail => At(s, p, FailPc(s.pc[p]))
    case Chunk(n) => WriteChunk(u, s, p, n)
    case WriteFail => At(s, p, Init(InitUnlock(Failed)))
    case Lock(b) => LockStep(s, p, b)
  }

  // Runs

  datatype Event = Event(p: Pid, a: Action)

  predicate Valid(u: Setup, s: State, t: seq<Event>)
    decreases |t|
  {
    t == [] || (Enabled(u, s, t[0].p, t[0].a) && Valid(u, Do(u, s, t[0].p, t[0].a), t[1..]))
  }

  function After(u: Setup, s: State, t: seq<Event>): State
    requires Valid(u, s, t)
    decreases |t|
  {
    if t == [] then s else After(u, Do(u, s, t[0].p, t[0].a), t[1..])
  }

  predicate ErrorFree(t: seq<Event>) {
    forall k :: 0 <= k < |t| ==> !t[k].a.IsError()
  }

  predicate Quiescent(s: State) {
    forall p :: p in s.pc ==> s.pc[p].Terminal()
  }
}
