/** The names of lock and mount files, and why hooks of different job steps never touch
    each other's files. */
module Paths {
  import opened CStrings
  import opened Decimal

  const TMP_DIR_BASE: string := "/tmp/nccl_inspector_preconf"
  const MOUNTS_DIR: string := "/etc/enroot/mounts.d"

  datatype Op = UserInit | TaskInitPrivileged | TaskExit

  function OpName(op: Op): string {
    match op
    case UserInit => "user-init"
    case TaskInitPrivileged => "task-init-privileged"
    case TaskExit => "task-exit"
  }

  /** `%s/%s.%u.%u.%s.lock` */
  function WorkerLockPath(host: string, job: nat, step: nat, op: Op): string {
    TMP_DIR_BASE + "/" + host + "." + Print(job) + "." + Print(step) + "." + OpName(op) + ".lock"
  }

  /** `%s/40-nccl-inspector-%u-%u.fstab` */
  function MountPath(job: nat, step: nat): string {
    MOUNTS_DIR + "/40-nccl-inspector-" + Print(job) + "-" + Print(step) + ".fstab"
  }

  function TransientLock(path: string): string {
    path + ".lock"
  }

  /** The last occurrence of c splits a string one way only. */
  lemma LastSplit(a: string, b: string, x: string, y: string, c: char)
    requires a + [c] + b == x + [c] + y && c !in b && c !in y
    ensures a == x && b == y
  {
    var s := a + [c] + b;
    assert s[|a|] == c && s[|x|] == c;
    assert forall k :: |a| < k < |s| ==> s[k] == b[k - |a| - 1] && s[k] in b;
    assert forall k :: |x| < k < |s| ==> s[k] == y[k - |x| - 1] && s[k] in y;
    assert |a| == |x|;
    assert s[|a| + 1..] == b && s[|x| + 1..] == y;
    assert s[..|a|] == a && s[..|x|] == x;
  }

  lemma SameSuffix(a: string, x: string, c: string)
    requires a + c == x + c
    ensures a == x
  {
    assert (a + c)[..|a|] == a && (x + c)[..|x|] == x;
  }

  lemma SamePrefix(p: string, a: string, x: string)
    requires p + a == p + x
    ensures a == x
  {
    assert (p + a)[|p|..] == a && (p + x)[|p|..] == x;
  }

  lemma {:induction false} NoSeparator(n: nat)
    ensures '.' !in Print(n) && '-' !in Print(n) && '/' !in Print(n)
  {
  }

  lemma OpNames(o: Op, p: Op)
    ensures '.' !in OpName(o)
    ensures OpName(o) == OpName(p) ==> o == p
  {
    assert |OpName(UserInit)| == 9 && OpName(UserInit)[0] == 'u';
    assert |OpName(TaskInitPrivileged)| == 20;
    assert |OpName(TaskExit)| == 9 && OpName(TaskExit)[0] == 't';
  }

  /** Worker lock paths name their host, job, step and hook, dots in the host included. */
  lemma WorkerLockInjective(h: string, j: nat, s: nat, o: Op, h': string, j': nat, s': nat, o': Op)
    requires WorkerLockPath(h, j, s, o) == WorkerLockPath(h', j', s', o')
    ensures h == h' && j == j' && s == s' && o == o'
  {
    Dotted(TMP_DIR_BASE + "/" + h, j, s, OpName(o), TMP_DIR_BASE + "/" + h', j', s', OpName(o')) by {
      OpNames(o, o');
      OpNames(o', o);
    }
    SamePrefix(TMP_DIR_BASE + "/", h, h');
    OpNames(o, o');
  }

  lemma {:induction false} Dotted(h: string, j: nat, s: nat, o: string, h': string, j': nat, s': nat, o': string)
    requires '.' !in o && '.' !in o'
    requires h + "." + Print(j) + "." + Print(s) + "." + o + ".lock"
          == h' + "." + Print(j') + "." + Print(s') + "." + o' + ".lock"
    ensures h == h' && j == j' && s == s' && o == o'
  {
    SameSuffix(h + "." + Print(j) + "." + Print(s) + "." + o,
               h' + "." + Print(j') + "." + Print(s') + "." + o', ".lock");
    LastSplit(h + "." + Print(j) + "." + Print(s), o, h' + "." + Print(j') + "." + Print(s'), o', '.');
    NoSeparator(s);
    NoSeparator(s');
    LastSplit(h + "." + Print(j), Print(s), h' + "." + Print(j'), Print(s'), '.');
    NoSeparator(j);
    NoSeparator(j');
    LastSplit(h, Print(j), h', Print(j'), '.');
    PrintInjective(j, j');
    PrintInjective(s, s');
  }

  lemma MountInjective(j: nat, s: nat, j': nat, s': nat)
    requires MountPath(j, s) == MountPath(j', s')
    ensures j == j' && s == s'
  {
    var p := MOUNTS_DIR + "/40-nccl-inspector-";
    SameSuffix(p + Print(j) + "-" + Print(s), p + Print(j') + "-" + Print(s'), ".fstab");
    NoSeparator(s);
    NoSeparator(s');
    LastSplit(p + Print(j), Print(s), p + Print(j'), Print(s'), '-');
    SamePrefix(p, Print(j), Print(j'));
    PrintInjective(j, j');
    PrintInjective(s, s');
  }

  /** Every file the hooks of one job step use on one worker. */
  function Footprint(host: string, job: nat, step: nat): set<string> {
    {WorkerLockPath(host, job, step, UserInit),
     WorkerLockPath(host, job, step, TaskInitPrivileged),
     WorkerLockPath(host, job, step, TaskExit),
     MountPath(job, step), TransientLock(MountPath(job, step))}
  }

  lemma Families(host: string, j: nat, s: nat, o: Op, j': nat, s': nat)
    ensures WorkerLockPath(host, j, s, o) != MountPath(j', s')
    ensures WorkerLockPath(host, j, s, o) != TransientLock(MountPath(j', s'))
  {
    assert WorkerLockPath(host, j, s, o)[1] == 't';
    assert MountPath(j', s')[1] == 'e';
    assert TransientLock(MountPath(j', s'))[1] == 'e';
  }

  lemma MountIsNoLock(j: nat, s: nat, j': nat, s': nat)
    ensures MountPath(j, s) != TransientLock(MountPath(j', s'))
  {
    var m, l := MountPath(j, s), TransientLock(MountPath(j', s'));
    assert m[|m| - 1] == 'b';
    assert l[|l| - 1] == 'k';
  }

  lemma LocksApart(host: string, j: nat, s: nat, o: Op, j': nat, s': nat)
    requires (j, s) != (j', s')
    ensures WorkerLockPath(host, j, s, o) !in Footprint(host, j', s')
  {
    Families(host, j, s, o, j', s');
    if WorkerLockPath(host, j, s, o) in Footprint(host, j', s') {
      var o' :| WorkerLockPath(host, j, s, o) == WorkerLockPath(host, j', s', o');
      WorkerLockInjective(host, j, s, o, host, j', s', o');
    }
  }

  lemma MountsApart(host: string, j: nat, s: nat, j': nat, s': nat)
    requires (j, s) != (j', s')
    ensures MountPath(j, s) !in Footprint(host, j', s')
    ensures TransientLock(MountPath(j, s)) !in Footprint(host, j', s')
  {
    Families(host, j', s', UserInit, j, s);
    Families(host, j', s', TaskInitPrivileged, j, s);
    Families(host, j', s', TaskExit, j, s);
    MountIsNoLock(j, s, j', s');
    MountIsNoLock(j', s', j, s);
    if MountPath(j, s) == MountPath(j', s') {
      MountInjective(j, s, j', s');
    }
    if TransientLock(MountPath(j, s)) == TransientLock(MountPath(j', s')) {
      SameSuffix(MountPath(j, s), MountPath(j', s'), ".lock");
      MountInjective(j, s, j', s');
    }
  }

  /** On one worker, hooks of different job steps share no lock file, no mount file and
      no transient lock; within one step the five files are distinct. */
  lemma StepsDoNotInterfere(host: string, j: nat, s: nat, j': nat, s': nat)
    ensures (j, s) != (j', s') ==> Footprint(host, j, s) !! Footprint(host, j', s')
    ensures |Footprint(host, j, s)| == 5
  {
    if (j, s) != (j', s') {
      LocksApart(host, j, s, UserInit, j', s');
      LocksApart(host, j, s, TaskInitPrivileged, j', s');
      LocksApart(host, j, s, TaskExit, j', s');
      MountsApart(host, j, s, j', s');
    }
    FiveFiles(host, j, s);
  }

  lemma FiveFiles(host: string, j: nat, s: nat)
    ensures |Footprint(host, j, s)| == 5
  {
    var a, b, c := WorkerLockPath(host, j, s, UserInit), WorkerLockPath(host, j, s, TaskInitPrivileged),
                   WorkerLockPath(host, j, s, TaskExit);
    if a == b { WorkerLockInjective(host, j, s, UserInit, host, j, s, TaskInitPrivileged); }
    if a == c { WorkerLockInjective(host, j, s, UserInit, host, j, s, TaskExit); }
    if b == c { WorkerLockInjective(host, j, s, TaskInitPrivileged, host, j, s, TaskExit); }
    var d, e := MountPath(j, s), TransientLock(MountPath(j, s));
    Families(host, j, s, UserInit, j, s);
    Families(host, j, s, TaskInitPrivileged, j, s);
    Families(host, j, s, TaskExit, j, s);
    assert Footprint(host, j, s) == {a, b, c, d, e} && |{a, b, c, d, e}| == 5;
  }

  lemma LockPathIsCString(host: CString, job: nat, step: nat, op: Op)
    ensures '\0' !in WorkerLockPath(host, job, step, op)
  {
    assert '\0' !in TMP_DIR_BASE && '\0' !in OpName(op);
  }

  lemma {:induction false} LockPathSpelled(host: CString, job: nat, step: nat, op: Op)
    ensures WorkerLockPath(host, job, step, op) ==
              "/tmp/nccl_inspector_preconf/" + host + "." + Print(job) + "." + Print(step) + "." +
              (match op
               case UserInit => "user-init"
               case TaskInitPrivileged => "task-init-privileged"
               case TaskExit => "task-exit") + ".lock"
  {
    assert TMP_DIR_BASE + "/" == "/tmp/nccl_inspector_preconf/";
  }

  /** The mount file of a job step, and its transient lock next to it. */
  lemma {:induction false} MountPathSpelled(job: nat, step: nat)
    ensures MountPath(job, step) ==
              "/etc/enroot/mounts.d/40-nccl-inspector-" + Print(job) + "-" + Print(step) + ".fstab"
    ensures TransientLock(MountPath(job, step)) == MountPath(job, step) + ".lock"
  {
    assert MOUNTS_DIR + "/40-nccl-inspector-" == "/etc/enroot/mounts.d/40-nccl-inspector-";
  }

  /** `snccliprecon_render_worker_lock_path`: the path, or ENAMETOOLONG. */
  method RenderWorkerLockPath(job: nat, step: nat, host: CString, op: Op, path: array<char>) returns (ok: bool)
    requires path.Length > 0
    modifies path
    ensures ok <==> |WorkerLockPath(host, job, step, op)| < path.Length
    ensures ok ==> Read(path[..]) == WorkerLockPath(host, job, step, op)
    ensures ok ==>
              Read(path[..]) ==
                "/tmp/nccl_inspector_preconf/" + host + "." + Print(job) + "." + Print(step) + "." +
                (match op
                 case UserInit => "user-init"
                 case TaskInitPrivileged => "task-init-privileged"
                 case TaskExit => "task-exit") + ".lock"
  {
    LockPathSpelled(host, job, step, op);
    LockPathIsCString(host, job, step, op);
    var text: CString := WorkerLockPath(host, job, step, op);
    var written := Snprintf(path, text);
    ReadHolds(path[..], Cut(text, path.Length - 1));
    ok := written < path.Length;
  }

  /** A 32-bit id and a host name of at most 255 characters always fit the path buffer. */
  lemma LockPathFits(host: string, job: nat, step: nat, op: Op)
    requires |host| < 256 && job < 0x1_0000_0000 && step < 0x1_0000_0000
    ensures |WorkerLockPath(host, job, step, op)| < 4096
  {
    PrintLength(job, 10);
    PrintLength(step, 10);
  }

  function Pow10(k: nat): nat {
    if k == 0 then 1 else 10 * Pow10(k - 1)
  }

  lemma {:induction false} PrintLength(n: nat, k: nat)
    requires 0 < k && n < Pow10(k)
    ensures |Print(n)| <= k
  {
    if n >= 10 {
      assert k > 1;
      PrintLength(n / 10, k - 1);
    }
  }
}
