/** Agreement: all tasks that start from the same environment end up with the same dump
    directory, the one the setup ensured and the one in the mount file. */
module HookAgreement {
  import opened Wrappers
  import opened Hooks
  import opened HookCleanup
  import opened HookSafety
  import Config
  import CStrings
  import Environment
  import HookProgress
  import MountFile

  /** Every init hook of the run starts from environment e. */
  predicate AllFrom(t: seq<Event>, e: Config.Env) {
    forall k :: 0 <= k < |t| && t[k].a.BeginInit? ==> t[k].a.env == e
  }

  predicate NoFailedWrite(t: seq<Event>) {
    forall k :: 0 <= k < |t| ==> !t[k].a.WriteFail?
  }

  /** The environment of a task, given where its hook is; e0 before the rewrite, e1 after. */
  predicate TaskEnv(c: Pc, e: Config.Env, e0: Config.Env, e1: Config.Env) {
    match c
    case Init(i) =>
      if i.InitRender? then e == e0 else if i == InitDone(Failed) then e == e0 || e == e1 else e == e1
    case Mount(_) => e == e1
    case Exit(_) => true
  }

  /** The dump directory has been ensured, if there is one. */
  predicate PastDump(c: Pc) {
    || c.Mount?
    || (c.Init? && (c.i.InitEnroot? || c.i.InitLock? || c.i == InitUnlock(Succeeded) || c.i == InitDone(Succeeded)))
  }

  ghost predicate Agree(u: Setup, s: State, e0: Config.Env, e1: Config.Env) {
    && (forall p :: p in s.pc ==> TaskEnv(s.pc[p], EnvOf(s, p), e0, e1))
    && (forall p :: p in s.pc && PastDump(s.pc[p]) && u.dumpDir(e1) != "" ==> u.dumpDir(e1) in s.dirs)
  }

  // One step

  lemma EnvStep(u: Setup, s: State, p: Pid, a: Action, e0: Config.Env, e1: Config.Env)
    requires Enabled(u, s, p, a) && u.rewrite(e0) == Some(e1) && (a.BeginInit? ==> a.env == e0)
    requires p in s.pc ==> TaskEnv(s.pc[p], EnvOf(s, p), e0, e1)
    ensures var s' := Do(u, s, p, a);
            && TaskEnv(s'.pc[p], EnvOf(s', p), e0, e1)
            && (forall q :: q != p ==> EnvOf(s', q) == EnvOf(s, q))
  {
    if a.Ok? && s.pc[p].Init? {
      EnvInit(u, s, p, e0, e1);
    }
  }

  lemma EnvInit(u: Setup, s: State, p: Pid, e0: Config.Env, e1: Config.Env)
    requires p in s.pc && s.pc[p].Init? && OkEnabled(u, s, p) && u.rewrite(e0) == Some(e1)
    requires TaskEnv(s.pc[p], EnvOf(s, p), e0, e1)
    ensures var s' := InitOk(u, s, p);
            && TaskEnv(s'.pc[p], EnvOf(s', p), e0, e1)
            && (forall q :: q != p ==> EnvOf(s', q) == EnvOf(s, q))
  {
    var s' := InitOk(u, s, p);
    if s.pc[p].i.InitRender? {
      assert s'.env == s.env[p := e1] && s'.pc[p] == Init(InitTmp);
    } else {
      EnvInitLater(u, s, p, e0, e1);
    }
  }

  lemma EnvInitLater(u: Setup, s: State, p: Pid, e0: Config.Env, e1: Config.Env)
    requires p in s.pc && s.pc[p].Init? && OkEnabled(u, s, p) && !s.pc[p].i.InitRender?
    requires TaskEnv(s.pc[p], EnvOf(s, p), e0, e1)
    ensures InitOk(u, s, p).env == s.env && TaskEnv(InitOk(u, s, p).pc[p], EnvOf(s, p), e0, e1)
  {
  }

  lemma DirStep(u: Setup, s: State, p: Pid, a: Action, e0: Config.Env, e1: Config.Env)
    requires Enabled(u, s, p, a)
    requires p in s.pc ==> TaskEnv(s.pc[p], EnvOf(s, p), e0, e1)
    requires p in s.pc && PastDump(s.pc[p]) && u.dumpDir(e1) != "" ==> u.dumpDir(e1) in s.dirs
    ensures var s' := Do(u, s, p, a);
            && s.dirs <= s'.dirs
            && (PastDump(s'.pc[p]) && u.dumpDir(e1) != "" ==> u.dumpDir(e1) in s'.dirs)
  {
    if a.Ok? && s.pc[p].Init? {
      DirInit(u, s, p, e0, e1);
    }
  }

  lemma DirInit(u: Setup, s: State, p: Pid, e0: Config.Env, e1: Config.Env)
    requires p in s.pc && s.pc[p].Init? && OkEnabled(u, s, p)
    requires TaskEnv(s.pc[p], EnvOf(s, p), e0, e1)
    requires PastDump(s.pc[p]) && u.dumpDir(e1) != "" ==> u.dumpDir(e1) in s.dirs
    ensures var s' := InitOk(u, s, p);
            && s.dirs <= s'.dirs
            && (PastDump(s'.pc[p]) && u.dumpDir(e1) != "" ==> u.dumpDir(e1) in s'.dirs)
  {
  }

  lemma AgreeStep(u: Setup, s: State, p: Pid, a: Action, e0: Config.Env, e1: Config.Env)
    requires Enabled(u, s, p, a) && u.rewrite(e0) == Some(e1) && (a.BeginInit? ==> a.env == e0)
    requires Agree(u, s, e0, e1)
    ensures Agree(u, Do(u, s, p, a), e0, e1)
  {
    EnvStep(u, s, p, a, e0, e1);
    DirStep(u, s, p, a, e0, e1);
  }

  // The mount file

  /** Each character is the text's or a hole: a file that another hook truncates between
      two writes is zero up to where the writer goes on. */
  predicate Part(file: string, text: string) {
    && |file| <= |text|
    && forall k :: 0 <= k < |file| ==> file[k] == text[k] || file[k] == '\0'
  }

  /** The first off characters are in place. */
  predicate Intact(file: string, off: nat, text: string) {
    off <= |file| && off <= |text| && forall k :: 0 <= k < off ==> file[k] == text[k]
  }

  lemma WritePart(was: string, off: nat, m: nat, text: string)
    requires Part(was, text) && off + m <= |text|
    ensures var now := WriteAt(was, off, text[off..off + m]);
            && Part(now, text) && |was| <= |now|
            && (Intact(was, off, text) ==> Intact(now, off + m, text))
            && (forall o :: Intact(was, o, text) ==> Intact(now, o, text))
  {
    var part := text[off..off + m];
    var now := WriteAt(was, off, part);
    if part != "" {
      WriteChars(was, off, part);
      assert forall k :: off <= k < off + m ==> part[k - off] == text[k];
    }
  }

  lemma WriteChars(was: string, off: nat, part: string)
    requires part != ""
    ensures var now := WriteAt(was, off, part);
            && |now| == (if off + |part| < |was| then |was| else off + |part|)
            && forall k :: 0 <= k < |now| ==>
                 now[k] == if off <= k < off + |part| then part[k - off] else if k < |was| then was[k] else '\0'
  {
  }

  lemma WholeIntact(file: string, text: string)
    requires |file| <= |text|
    ensures Intact(file, |text|, text) <==> file == text
  {
  }

  /** Mount file data written in this run (inodes from n on) is part of text. */
  predicate PartsOf(files: seq<string>, n: nat, text: string) {
    && n <= |files|
    && forall i :: n <= i < |files| ==> Part(files[i], text)
  }

  ghost predicate Writing(s: State, i: nat) {
    exists p :: p in s.pc && s.pc[p].Mount? && s.pc[p].m.MountWrite? && s.pc[p].m.ino == i
  }

  /** p is writing inode i, and what it has written is still there. */
  predicate Ahead(s: State, p: Pid, i: nat, text: string) {
    && p in s.pc && s.pc[p].Mount? && s.pc[p].m.MountWrite? && s.pc[p].m.ino == i
    && i < |s.files| && Intact(s.files[i], s.pc[p].m.off, text)
  }

  /** ... and all of it, unless some writer is about to complete it. */
  ghost predicate WholeOrAhead(s: State, n: nat, text: string) {
    forall i :: n <= i < |s.files| ==> s.files[i] == text || exists p :: Ahead(s, p, i, text)
  }

  predicate Writes(s: State, p: Pid, a: Action) {
    a.Chunk? || (a.Ok? && p in s.pc && s.pc[p].Mount? && s.pc[p].m.MountWrite?)
  }

  predicate Opens(s: State, p: Pid, a: Action) {
    a.Ok? && p in s.pc && s.pc[p] == Mount(MountOpen)
  }

  /** What one write does to its file. */
  lemma WriteStep(u: Setup, s: State, p: Pid, a: Action, text: string)
    requires Enabled(u, s, p, a) && Writes(s, p, a) && u.mountText(EnvOf(s, p)) == text
    requires Part(s.files[s.pc[p].m.ino], text)
    ensures var s', i := Do(u, s, p, a), s.pc[p].m.ino;
            && s'.files == s.files[i := s'.files[i]] && Part(s'.files[i], text)
            && (forall o :: Intact(s.files[i], o, text) ==> Intact(s'.files[i], o, text))
            && (Intact(s.files[i], s.pc[p].m.off, text) ==> s'.files[i] == text || Ahead(s', p, i, text))
  {
    if a.Chunk? {
      WriteSome(u, s, p, a.n, text);
    } else {
      WriteRest(u, s, p, text);
    }
  }

  lemma WriteSome(u: Setup, s: State, p: Pid, n: nat, text: string)
    requires p in s.pc && ChunkEnabled(u, s, p, n) && u.mountText(EnvOf(s, p)) == text
    requires Part(s.files[s.pc[p].m.ino], text)
    ensures var s', i := WriteChunk(u, s, p, n), s.pc[p].m.ino;
            && s'.files == s.files[i := s'.files[i]] && Part(s'.files[i], text)
            && (forall o :: Intact(s.files[i], o, text) ==> Intact(s'.files[i], o, text))
            && (Intact(s.files[i], s.pc[p].m.off, text) ==> Ahead(s', p, i, text))
  {
    WritePart(s.files[s.pc[p].m.ino], s.pc[p].m.off, n, text);
  }

  lemma WriteRest(u: Setup, s: State, p: Pid, text: string)
    requires p in s.pc && s.pc[p].Mount? && s.pc[p].m.MountWrite? && OkEnabled(u, s, p)
    requires u.mountText(EnvOf(s, p)) == text && Part(s.files[s.pc[p].m.ino], text)
    ensures var s', i := MountOk(u, s, p), s.pc[p].m.ino;
            && s'.files == s.files[i := s'.files[i]] && Part(s'.files[i], text)
            && (forall o :: Intact(s.files[i], o, text) ==> Intact(s'.files[i], o, text))
            && (Intact(s.files[i], s.pc[p].m.off, text) ==> s'.files[i] == text)
  {
    var i, off := s.pc[p].m.ino, s.pc[p].m.off;
    assert text[off..] == text[off..off + (|text| - off)];
    WritePart(s.files[i], off, |text| - off, text);
    WholeIntact(MountOk(u, s, p).files[i], text);
  }

  lemma OpenStep(u: Setup, s: State, p: Pid, a: Action, text: string)
    requires Enabled(u, s, p, a) && Opens(s, p, a)
    ensures var s' := Do(u, s, p, a);
            && |s.files| <= |s'.files| && s'.pc[p].Mount? && s'.pc[p].m.MountWrite?
            && s'.pc[p].m.ino < |s'.files| && s'.files[s'.pc[p].m.ino] == ""
            && Ahead(s', p, s'.pc[p].m.ino, text)
            && forall i :: 0 <= i < |s'.files| && i != s'.pc[p].m.ino ==> i < |s.files| && s'.files[i] == s.files[i]
  {
    assert Do(u, s, p, a) == MountOk(u, s, p);
  }

  lemma NoWrite(u: Setup, s: State, p: Pid, a: Action)
    requires Enabled(u, s, p, a) && !Writes(s, p, a) && !Opens(s, p, a)
    ensures Do(u, s, p, a).files == s.files
    ensures p in s.pc && !a.WriteFail? ==> !(s.pc[p].Mount? && s.pc[p].m.MountWrite?)
  {
    if a.Ok? && s.pc[p].Mount? {
      assert Do(u, s, p, a) == MountOk(u, s, p);
    }
  }

  lemma FilesStep(u: Setup, s: State, p: Pid, a: Action, n: nat, text: string)
    requires Enabled(u, s, p, a) && PartsOf(s.files, n, text)
    requires p in s.pc && s.pc[p].Mount? ==> u.mountText(EnvOf(s, p)) == text
    ensures PartsOf(Do(u, s, p, a).files, n, text)
  {
    if Writes(s, p, a) {
      if n <= s.pc[p].m.ino {
        WriteStep(u, s, p, a, text);
      } else {
        WriteElsewhere(u, s, p, a);
      }
    } else if Opens(s, p, a) {
      OpenStep(u, s, p, a, text);
    } else {
      NoWrite(u, s, p, a);
    }
  }

  lemma WriteElsewhere(u: Setup, s: State, p: Pid, a: Action)
    requires Enabled(u, s, p, a) && Writes(s, p, a)
    ensures var s', i := Do(u, s, p, a), s.pc[p].m.ino; s'.files == s.files[i := s'.files[i]]
  {
  }

  /** Whoever was ahead on a file stays ahead or completes it, unless p opens it anew and so
      is ahead itself. */
  lemma AheadStep(u: Setup, s: State, p: Pid, a: Action, n: nat, text: string, i: nat, q: Pid) returns (r: Pid)
    requires Enabled(u, s, p, a) && !a.WriteFail? && PartsOf(s.files, n, text) && n <= i && Ahead(s, q, i, text)
    requires p in s.pc && s.pc[p].Mount? ==> u.mountText(EnvOf(s, p)) == text
    ensures var s' := Do(u, s, p, a); i < |s'.files| && (s'.files[i] == text || Ahead(s', r, i, text))
  {
    var s' := Do(u, s, p, a);
    r := q;
    if Writes(s, p, a) {
      if s.pc[p].m.ino == i {
        WriteStep(u, s, p, a, text);
      } else {
        WriteElsewhere(u, s, p, a);
      }
    } else if Opens(s, p, a) {
      OpenStep(u, s, p, a, text);
      if s'.pc[p].m.ino == i {
        r := p;
      }
    } else {
      NoWrite(u, s, p, a);
    }
  }

  lemma WholeStays(u: Setup, s: State, p: Pid, a: Action, n: nat, text: string, i: nat) returns (r: Pid)
    requires Enabled(u, s, p, a) && PartsOf(s.files, n, text) && n <= i < |Do(u, s, p, a).files|
    requires p in s.pc && s.pc[p].Mount? ==> u.mountText(EnvOf(s, p)) == text
    requires i < |s.files| ==> s.files[i] == text
    ensures var s' := Do(u, s, p, a); s'.files[i] == text || Ahead(s', r, i, text)
  {
    var s' := Do(u, s, p, a);
    r := p;
    if Writes(s, p, a) {
      if s.pc[p].m.ino == i {
        WholeIntact(text, text);
        WriteStep(u, s, p, a, text);
        WholeIntact(s'.files[i], text);
      } else {
        WriteElsewhere(u, s, p, a);
      }
    } else if Opens(s, p, a) {
      OpenStep(u, s, p, a, text);
    } else {
      NoWrite(u, s, p, a);
    }
  }

  lemma WholeStep(u: Setup, s: State, p: Pid, a: Action, n: nat, text: string)
    requires Enabled(u, s, p, a) && !a.WriteFail? && PartsOf(s.files, n, text) && WholeOrAhead(s, n, text)
    requires p in s.pc && s.pc[p].Mount? ==> u.mountText(EnvOf(s, p)) == text
    ensures WholeOrAhead(Do(u, s, p, a), n, text)
  {
    var s' := Do(u, s, p, a);
    forall i | n <= i < |s'.files|
      ensures s'.files[i] == text || exists q :: Ahead(s', q, i, text)
    {
      if i < |s.files| && s.files[i] != text {
        var q :| Ahead(s, q, i, text);
        var r := AheadStep(u, s, p, a, n, text, i, q);
      } else {
        var r := WholeStays(u, s, p, a, n, text, i);
      }
    }
  }

  // Whole runs

  lemma {:induction false} AgreeRun(u: Setup, s: State, t: seq<Event>, e0: Config.Env, e1: Config.Env, n: nat)
    requires Valid(u, s, t) && AllFrom(t, e0) && u.rewrite(e0) == Some(e1) && Agree(u, s, e0, e1)
    requires PartsOf(s.files, n, u.mountText(e1))
    ensures Agree(u, After(u, s, t), e0, e1) && PartsOf(After(u, s, t).files, n, u.mountText(e1))
    ensures NoFailedWrite(t) && WholeOrAhead(s, n, u.mountText(e1)) ==>
              WholeOrAhead(After(u, s, t), n, u.mountText(e1))
    decreases |t|
  {
    if t != [] {
      var p, a := t[0].p, t[0].a;
      AgreeStep(u, s, p, a, e0, e1);
      FilesStep(u, s, p, a, n, u.mountText(e1));
      if NoFailedWrite(t) && WholeOrAhead(s, n, u.mountText(e1)) {
        assert !a.WriteFail?;
        WholeStep(u, s, p, a, n, u.mountText(e1));
      }
      assert forall k :: 0 <= k < |t[1..]| ==> t[1..][k] == t[k + 1];
      AgreeRun(u, Do(u, s, p, a), t[1..], e0, e1, n);
    }
  }

  /** Any number of tasks, any interleaving, errors included: every task whose init hook
      returned without error has the rewritten environment, winner or loser; a winner's
      dump directory was ensured; and a mount file made in this run never holds anything
      but characters of the text for that environment in their places (or holes), and holds
      all of it once nobody is writing unless a write of the run failed. */
  lemma {:induction false} TasksAgree(u: Setup, s0: State, t: seq<Event>, e0: Config.Env, e1: Config.Env)
    requires Start(s0) && Valid(u, s0, t) && AllFrom(t, e0) && u.rewrite(e0) == Some(e1)
    ensures var s := After(u, s0, t);
            && (forall p :: p in s.pc && s.pc[p].Init? && s.pc[p].i.InitDone? && s.pc[p].i.out != Failed ==>
                  EnvOf(s, p) == e1)
            && (forall p :: p in s.pc && s.pc[p] == Init(InitDone(Succeeded)) && u.dumpDir(e1) != "" ==>
                  u.dumpDir(e1) in s.dirs)
            && (forall i :: |s0.files| <= i < |s.files| ==>
                  && Part(s.files[i], u.mountText(e1))
                  && (NoFailedWrite(t) && !Writing(s, i) ==> s.files[i] == u.mountText(e1)))
  {
    AgreeRun(u, s0, t, e0, e1, |s0.files|);
    var s := After(u, s0, t);
    forall p | p in s.pc && s.pc[p].Init? && s.pc[p].i.InitDone? && s.pc[p].i.out != Failed
      ensures EnvOf(s, p) == e1
    {
      assert TaskEnv(s.pc[p], EnvOf(s, p), e0, e1);
    }
  }

  // The setup is complete when its hook returns

  /** The hook has seen or made the mount file. */
  predicate Arrived(c: Pc) {
    || (c.Mount? && (c.m.MountWrite? || c.m.MountMode?))
    || c == Init(InitUnlock(Succeeded)) || c == Init(InitDone(Succeeded))
  }

  predicate NoExits(s: State) {
    forall p :: p in s.pc ==> s.pc[p].IsInit()
  }

  predicate MountInPlace(s: State) {
    forall p :: p in s.pc && Arrived(s.pc[p]) ==> s.mount.Some?
  }

  lemma MountStays(u: Setup, s: State, p: Pid, a: Action, e0: Config.Env, e1: Config.Env)
    requires Enabled(u, s, p, a) && !a.BeginExit? && u.enroot && u.dumpDir(e1) != ""
    requires p in s.pc ==> s.pc[p].IsInit() && TaskEnv(s.pc[p], EnvOf(s, p), e0, e1)
    requires p in s.pc && Arrived(s.pc[p]) ==> s.mount.Some?
    ensures var s' := Do(u, s, p, a);
            && s'.pc[p].IsInit()
            && (s.mount.Some? ==> s'.mount.Some?)
            && (Arrived(s'.pc[p]) ==> s'.mount.Some?)
  {
    if a.Ok? && s.pc[p].Init? {
      InitArrives(u, s, p, e0, e1);
    } else if a.Ok? {
      MountArrives(u, s, p);
    }
  }

  lemma InitArrives(u: Setup, s: State, p: Pid, e0: Config.Env, e1: Config.Env)
    requires p in s.pc && s.pc[p].Init? && OkEnabled(u, s, p) && u.enroot && u.dumpDir(e1) != ""
    requires TaskEnv(s.pc[p], EnvOf(s, p), e0, e1)
    ensures !Arrived(InitOk(u, s, p).pc[p])
  {
    if s.pc[p].i.InitEnroot? {
      assert InitOk(u, s, p).pc[p] == Init(InitLock);
    }
  }

  lemma MountArrives(u: Setup, s: State, p: Pid)
    requires p in s.pc && s.pc[p].Mount? && OkEnabled(u, s, p) && (Arrived(s.pc[p]) ==> s.mount.Some?)
    ensures var s' := MountOk(u, s, p);
            (s.mount.Some? ==> s'.mount.Some?) && (Arrived(s'.pc[p]) ==> s'.mount.Some?)
  {
  }

  lemma {:induction false} MountRun(u: Setup, s: State, t: seq<Event>, e0: Config.Env, e1: Config.Env)
    requires Valid(u, s, t) && AllFrom(t, e0) && u.rewrite(e0) == Some(e1) && Agree(u, s, e0, e1)
    requires u.enroot && u.dumpDir(e1) != "" && NoExits(s) && MountInPlace(s)
    requires forall k :: 0 <= k < |t| ==> !t[k].a.BeginExit?
    ensures MountInPlace(After(u, s, t))
    decreases |t|
  {
    if t != [] {
      var p, a := t[0].p, t[0].a;
      assert !a.BeginExit?;
      AgreeStep(u, s, p, a, e0, e1);
      MountStays(u, s, p, a, e0, e1);
      assert forall k :: 0 <= k < |t[1..]| ==> t[1..][k] == t[k + 1];
      MountRun(u, Do(u, s, p, a), t[1..], e0, e1);
    }
  }

  /** Until an exit hook starts: once some init hook has returned from the setup, the mount
      file is in place and stays. (A hook that lost the lock can return before that.) */
  lemma {:induction false} SetupLeavesMount(u: Setup, s0: State, t: seq<Event>, e0: Config.Env, e1: Config.Env, p: Pid)
    requires Start(s0) && Valid(u, s0, t) && AllFrom(t, e0) && u.rewrite(e0) == Some(e1)
    requires u.enroot && u.dumpDir(e1) != ""
    requires forall k :: 0 <= k < |t| ==> !t[k].a.BeginExit?
    requires var s := After(u, s0, t); p in s.pc && s.pc[p] == Init(InitDone(Succeeded))
    ensures After(u, s0, t).mount.Some?
  {
    MountRun(u, s0, t, e0, e1);
  }

  // When a returned hook means that the setup is done

  ghost predicate SomeArrived(s: State) {
    exists p :: p in s.pc && Arrived(s.pc[p])
  }

  ghost predicate SomePastDump(s: State) {
    exists p :: p in s.pc && PastDump(s.pc[p])
  }

  lemma ArrivedMove(u: Setup, s: State, p: Pid, a: Action)
    requires Enabled(u, s, p, a) && !a.IsError() && !a.BeginExit? && (p in s.pc ==> s.pc[p].IsInit())
    ensures var s' := Do(u, s, p, a);
            && (p in s.pc && Arrived(s.pc[p]) ==> Arrived(s'.pc[p]))
            && (s'.mount.Some? ==> s.mount.Some? || Arrived(s'.pc[p]))
  {
    if a.Ok? && s.pc[p].Mount? {
      assert Do(u, s, p, a) == MountOk(u, s, p);
    }
  }

  lemma PastDumpMove(u: Setup, s: State, p: Pid, a: Action, e0: Config.Env, e1: Config.Env)
    requires Enabled(u, s, p, a) && !a.IsError() && !a.BeginExit? && (p in s.pc ==> s.pc[p].IsInit())
    requires p in s.pc ==> TaskEnv(s.pc[p], EnvOf(s, p), e0, e1)
    ensures var s' := Do(u, s, p, a);
            && (p in s.pc && PastDump(s.pc[p]) ==> PastDump(s'.pc[p]))
            && (u.dumpDir(e1) in s'.dirs ==> u.dumpDir(e1) in s.dirs || PastDump(s'.pc[p]))
  {
    if a.Ok? && s.pc[p].Init? {
      PastDumpInit(u, s, p);
    }
  }

  lemma PastDumpInit(u: Setup, s: State, p: Pid)
    requires p in s.pc && s.pc[p].Init? && OkEnabled(u, s, p)
    ensures PastDump(s.pc[p]) ==> PastDump(InitOk(u, s, p).pc[p])
    ensures InitOk(u, s, p).dirs == s.dirs || PastDump(InitOk(u, s, p).pc[p])
  {
  }

  lemma {:induction false} SetupRun(u: Setup, s: State, t: seq<Event>, e0: Config.Env, e1: Config.Env)
    requires Valid(u, s, t) && AllFrom(t, e0) && u.rewrite(e0) == Some(e1) && Agree(u, s, e0, e1) && ErrorFree(t)
    requires NoExits(s) && forall k :: 0 <= k < |t| ==> !t[k].a.BeginExit?
    requires (s.mount.Some? ==> SomeArrived(s)) && (u.dumpDir(e1) in s.dirs ==> SomePastDump(s))
    ensures var s' := After(u, s, t);
            (s'.mount.Some? ==> SomeArrived(s')) && (u.dumpDir(e1) in s'.dirs ==> SomePastDump(s'))
    decreases |t|
  {
    if t != [] {
      var p, a := t[0].p, t[0].a;
      assert !a.BeginExit? && !a.IsError();
      AgreeStep(u, s, p, a, e0, e1);
      SetupStep(u, s, p, a, e0, e1);
      assert forall k :: 0 <= k < |t[1..]| ==> t[1..][k] == t[k + 1];
      SetupRun(u, Do(u, s, p, a), t[1..], e0, e1);
    }
  }

  lemma SetupStep(u: Setup, s: State, p: Pid, a: Action, e0: Config.Env, e1: Config.Env)
    requires Enabled(u, s, p, a) && !a.IsError() && !a.BeginExit? && Agree(u, s, e0, e1) && NoExits(s)
    requires (s.mount.Some? ==> SomeArrived(s)) && (u.dumpDir(e1) in s.dirs ==> SomePastDump(s))
    ensures var s' := Do(u, s, p, a);
            NoExits(s') && (s'.mount.Some? ==> SomeArrived(s')) && (u.dumpDir(e1) in s'.dirs ==> SomePastDump(s'))
  {
    var s' := Do(u, s, p, a);
    StaysInit(u, s, p, a);
    ArrivedMove(u, s, p, a);
    PastDumpMove(u, s, p, a, e0, e1);
    if s.mount.Some? && s'.mount.Some? {
      var q :| q in s.pc && Arrived(s.pc[q]);
      assert q in s'.pc && Arrived(s'.pc[q]);
    } else if s'.mount.Some? {
      assert p in s'.pc && Arrived(s'.pc[p]);
    }
    if u.dumpDir(e1) in s.dirs {
      var q :| q in s.pc && PastDump(s.pc[q]);
      assert q in s'.pc && PastDump(s'.pc[q]);
    } else if u.dumpDir(e1) in s'.dirs {
      assert p in s'.pc && PastDump(s'.pc[p]);
    }
  }

  /** Without errors, before any exit hook and from a worker without the mount file: the
      mount file is there exactly when some hook that won the init lock has got past
      opening it, and the dump directory exactly when one has got past ensuring it. What a
      hook that lost the lock returns says nothing about either. */
  lemma {:induction false} SetupDoneIff(u: Setup, s0: State, t: seq<Event>, e0: Config.Env, e1: Config.Env)
    requires Start(s0) && Valid(u, s0, t) && AllFrom(t, e0) && u.rewrite(e0) == Some(e1) && ErrorFree(t)
    requires u.enroot && u.dumpDir(e1) != "" && s0.mount == None && u.dumpDir(e1) !in s0.dirs
    requires forall k :: 0 <= k < |t| ==> !t[k].a.BeginExit?
    ensures var s := After(u, s0, t);
            && (s.mount.Some? <==> SomeArrived(s))
            && (u.dumpDir(e1) in s.dirs <==> SomePastDump(s))
  {
    MountRun(u, s0, t, e0, e1);
    SetupRun(u, s0, t, e0, e1);
    AgreeRun(u, s0, t, e0, e1, |s0.files|);
  }

  // The plugin's own setup

  function PluginSetup(enroot: bool, cfg: Config.Settings, job: Environment.Uint32, step: Environment.Uint32): Setup {
    Setup(
      enroot,
      (e: Config.Env) =>
        (match Environment.StepRewrite(e, {}, cfg, job, step)
         case (e', rc) => if rc == Success then Some(e') else None),
      (e: Config.Env) => Environment.MarkedOwned(e),
      (e: Config.Env) => Environment.DumpDirOf(e),
      (e: Config.Env) => MountFile.Text(Environment.PluginOf(e, cfg), Environment.DumpDirOf(e)))
  }

  /** The rewrite fails only for a directory the plugin owns, where the code has its error
      exit; so the plugin's hooks never get stuck in it. */
  lemma PluginTotal(enroot: bool, cfg: Config.Settings, job: Environment.Uint32, step: Environment.Uint32)
    ensures HookProgress.Total(PluginSetup(enroot, cfg, job, step))
    ensures forall e :: PluginSetup(enroot, cfg, job, step).owned(e) <==>
              "SNCCLIPRECON_LOG_DIR_SET_BY_PLUGIN" in e && e["SNCCLIPRECON_LOG_DIR_SET_BY_PLUGIN"] == "1"
  {
  }

  /** Every task whose init hook has returned without error has e0 with the directory
      replaced by dir; dir is ensured once one has finished the setup; and a mount file made
      meanwhile (inodes from n on) that nobody is writing holds the two bindings. */
  ghost predicate Agreed(s: State, n: nat, t: seq<Event>, e0: Config.Env, plugin: string, dir: CStrings.CString) {
    && (forall p :: p in s.pc && s.pc[p].Init? && s.pc[p].i.InitDone? && s.pc[p].i.out != Failed ==>
          EnvOf(s, p) == e0[Environment.DUMP_KEY := dir])
    && (forall p :: p in s.pc && s.pc[p] == Init(InitDone(Succeeded)) && dir != "" ==> dir in s.dirs)
    && (forall i :: n <= i < |s.files| && NoFailedWrite(t) && !Writing(s, i) ==>
          s.files[i] == MountFile.Text(plugin, dir) && MountFile.Binds(s.files[i], plugin, dir))
  }

  /** For a directory the plugin owns: all tasks of the step get its step rendering, that
      directory is ensured, and the second line of a mount file made in the run binds it. */
  lemma {:induction false} OwnedTasksAgree(
      enroot: bool, cfg: Config.Settings, job: Environment.Uint32, step: Environment.Uint32,
      s0: State, t: seq<Event>, e0: Config.Env)
    requires Environment.MarkedOwned(e0) && |Environment.StepDir(cfg, job, step)| < CStrings.PATH_MAX
    requires var u := PluginSetup(enroot, cfg, job, step); Start(s0) && Valid(u, s0, t) && AllFrom(t, e0)
    ensures Agreed(After(PluginSetup(enroot, cfg, job, step), s0, t), |s0.files|, t, e0,
                   Environment.PluginOf(e0, cfg), Environment.StepDir(cfg, job, step))
  {
    var u, dir := PluginSetup(enroot, cfg, job, step), Environment.StepDir(cfg, job, step);
    var e1 := e0[Environment.DUMP_KEY := dir];
    SetupValues(enroot, cfg, job, step, e0);
    TasksAgree(u, s0, t, e0, e1);
    MountFile.TextBinds(Environment.PluginOf(e0, cfg), dir);
  }

  lemma SetupValues(
      enroot: bool, cfg: Config.Settings, job: Environment.Uint32, step: Environment.Uint32, e0: Config.Env)
    requires Environment.MarkedOwned(e0) && |Environment.StepDir(cfg, job, step)| < CStrings.PATH_MAX
    ensures var u, dir := PluginSetup(enroot, cfg, job, step), Environment.StepDir(cfg, job, step);
            var e1 := e0[Environment.DUMP_KEY := dir];
            && u.rewrite(e0) == Some(e1) && u.dumpDir(e1) == dir
            && u.mountText(e1) == MountFile.Text(Environment.PluginOf(e0, cfg), dir)
  {
    Environment.KeysDiffer();
  }
}
