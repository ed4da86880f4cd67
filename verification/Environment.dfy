/** The job environment: defaults exported by `user_init`, the step-level rewrite of the
    dump directory, and who owns that directory across nested launches. */
module Environment {
  import opened CStrings
  import opened Decimal
  import opened Template
  import opened Config
  import opened Wrappers

  const PLUGIN_KEY: string := "NCCL_PROFILER_PLUGIN"
  const DUMP_KEY: string := "NCCL_INSPECTOR_DUMP_DIR"
  const FLAG_KEY: string := "SNCCLIPRECON_LOG_DIR_SET_BY_PLUGIN"
  const PROM_KEY: string := "NCCL_INSPECTOR_PROM_DUMP"
  const VERBOSE_KEY: string := "NCCL_INSPECTOR_DUMP_VERBOSE"
  const INTERVAL_KEY: string := "NCCL_INSPECTOR_DUMP_THREAD_INTERVAL_MICROSECONDS"

  /** Job and step ids are 32-bit. */
  type Uint32 = n: nat | n < 0x1_0000_0000

  function FormatBool(b: bool): CString {
    if b then "1" else "0"
  }

  function JobIds(job: Uint32): Ids {
    Ids(PrintC(job), "", false)
  }

  function StepIds(job: Uint32, step: Uint32): Ids {
    Ids(PrintC(job), PrintC(step), true)
  }

  function PrintC(n: nat): (s: CString)
    ensures IsId(s)
  {
    Print(n)
  }

  function JobDir(cfg: Settings, job: Uint32): CString {
    ExpandIsCString(cfg.dumpDir, JobIds(job));
    Expand(cfg.dumpDir, JobIds(job))
  }

  function StepDir(cfg: Settings, job: Uint32, step: Uint32): CString {
    ExpandIsCString(cfg.dumpDir, StepIds(job, step));
    Expand(cfg.dumpDir, StepIds(job, step))
  }

  lemma {:induction false} ExpandIsCString(t: CString, r: Ids)
    ensures '\0' !in Expand(t, r)
  {
    PiecesSpellExpand(t, r);
  }

  // What the hooks make of an environment; `refused` are the keys that cannot be set

  function Put(v: Env, refused: set<string>, key: string, value: CString): Env {
    if key in refused then v else v[key := value]
  }

  function PutMissing(v: Env, refused: set<string>, key: string, value: CString): Env {
    if key in v then v else Put(v, refused, key, value)
  }

  /** The dump directory and its ownership flag. */
  function ClaimDumpDir(v: Env, refused: set<string>, dir: CString): Env {
    if DUMP_KEY in v || DUMP_KEY in refused then v
    else Put(v[DUMP_KEY := dir], refused, FLAG_KEY, "1")
  }

  function UserInitEnv(v: Env, refused: set<string>, cfg: Settings, job: Uint32): (Env, Rc) {
    if !cfg.enabled then (v, Success)
    else
      var v1 := PutMissing(v, refused, PLUGIN_KEY, cfg.profilerPlugin);
      if |JobDir(cfg, job)| >= PATH_MAX then (v1, Error)
      else
        var v2 := ClaimDumpDir(v1, refused, JobDir(cfg, job));
        var v3 := PutMissing(v2, refused, PROM_KEY, FormatBool(cfg.promDump));
        var v4 := PutMissing(v3, refused, VERBOSE_KEY, FormatBool(cfg.dumpVerbose));
        (PutMissing(v4, refused, INTERVAL_KEY, cfg.threadInterval), Success)
  }

  predicate MarkedOwned(v: Env) {
    FLAG_KEY in v && v[FLAG_KEY] == "1"
  }

  function StepRewrite(v: Env, refused: set<string>, cfg: Settings, job: Uint32, step: Uint32): (Env, Rc) {
    if !MarkedOwned(v) then (v, Success)
    else if |StepDir(cfg, job, step)| >= PATH_MAX || DUMP_KEY in refused then (v, Error)
    else (v[DUMP_KEY := StepDir(cfg, job, step)], Success)
  }

  /** What `ensure_dump_dir_if_set` reads; empty when absent. */
  function DumpDirOf(v: Env): CString {
    if DUMP_KEY in v then v[DUMP_KEY] else ""
  }

  /** The job environment takes precedence over the configuration. */
  function PluginOf(v: Env, cfg: Settings): CString {
    if PLUGIN_KEY in v && v[PLUGIN_KEY] != "" then v[PLUGIN_KEY] else cfg.profilerPlugin
  }

  // The hooks

  /** The SPANK job environment. */
  class JobEnv {
    var vars: Env
    const refused: set<string>

    constructor (vars: Env, refused: set<string>)
      ensures this.vars == vars && this.refused == refused
    {
      this.vars := vars;
      this.refused := refused;
    }

    /** `snccliprecon_env_get`; the buffer is emptied first. */
    method Get(key: string) returns (found: bool, value: CString)
      ensures found == (key in vars)
      ensures value == if key in vars then vars[key] else ""
    {
      found, value := key in vars, "";
      if found {
        value := vars[key];
      }
    }

    /** `snccliprecon_env_set`. */
    method Set(key: string, value: CString) returns (ok: bool)
      modifies this
      ensures ok <==> key !in refused
      ensures vars == Put(old(vars), refused, key, value)
    {
      ok := key !in refused;
      if ok {
        vars := vars[key := value];
      }
    }

    /** `snccliprecon_env_set_if_missing`. */
    method SetIfMissing(key: string, value: CString) returns (set_: bool)
      modifies this
      ensures set_ <==> key !in old(vars) && key !in refused
      ensures vars == PutMissing(old(vars), refused, key, value)
    {
      var exists_, _ := Get(key);
      if exists_ {
        return false;
      }
      set_ := Set(key, value);
    }

    /** `snccliprecon_user_init`. */
    method UserInit(cfg: Settings, job: Uint32) returns (rc: Rc)
      modifies this
      ensures (vars, rc) == UserInitEnv(old(vars), refused, cfg, job)
      ensures rc == if cfg.enabled && |Expand(cfg.dumpDir, Ids(Print(job), "", false))| >= 4096 then Error else Success
    {
      if !cfg.enabled {
        return Success;
      }
      var _ := SetIfMissing(PLUGIN_KEY, cfg.profilerPlugin);
      var dumpDir := new char[PATH_MAX];
      var ok := RenderInto(cfg.dumpDir, JobIds(job), dumpDir);
      if !ok {
        return Error;
      }
      var claimed := SetIfMissing(DUMP_KEY, Read(dumpDir[..]));
      if claimed {
        var _ := Set(FLAG_KEY, "1");
      }
      var _ := SetIfMissing(PROM_KEY, FormatBool(cfg.promDump));
      var _ := SetIfMissing(VERBOSE_KEY, FormatBool(cfg.dumpVerbose));
      var _ := SetIfMissing(INTERVAL_KEY, cfg.threadInterval);
      rc := Success;
    }

    /** `set_step_dump_dir_if_owned_by_plugin`. */
    method SetStepDumpDir(cfg: Settings, job: Uint32, step: Uint32) returns (rc: Rc)
      modifies this
      ensures (vars, rc) == StepRewrite(old(vars), refused, cfg, job, step)
      ensures var owned := "SNCCLIPRECON_LOG_DIR_SET_BY_PLUGIN" in old(vars)
                           && old(vars)["SNCCLIPRECON_LOG_DIR_SET_BY_PLUGIN"] == "1";
              var dir := Expand(cfg.dumpDir, Ids(Print(job), Print(step), true));
              var ok := |dir| < 4096 && "NCCL_INSPECTOR_DUMP_DIR" !in refused;
              && rc == (if owned && !ok then Error else Success)
              && vars == if owned && ok then old(vars)["NCCL_INSPECTOR_DUMP_DIR" := dir] else old(vars)
    {
      ExpandIsCString(cfg.dumpDir, Ids(PrintC(job), PrintC(step), true));
      var found, flag := Get(FLAG_KEY);
      if !found || flag != "1" {
        return Success;
      }
      var dumpDir := new char[PATH_MAX];
      var ok := RenderInto(cfg.dumpDir, StepIds(job, step), dumpDir);
      if !ok {
        return Error;
      }
      ok := Set(DUMP_KEY, Read(dumpDir[..]));
      rc := if ok then Success else Error;
    }

    /** `get_profiler_plugin`. */
    method GetProfilerPlugin(cfg: Settings) returns (plugin: CString)
      ensures plugin == PluginOf(vars, cfg)
    {
      var found;
      found, plugin := Get(PLUGIN_KEY);
      if !found || plugin == "" {
        plugin := cfg.profilerPlugin;
      }
    }
  }

  // Nested launches

  /** One launch of a step: `user_init`, then the step-level rewrite. */
  datatype Launch = Launch(cfg: Settings, job: Uint32, step: Uint32)

  predicate Fits(l: Launch) {
    && l.cfg.enabled
    && |JobDir(l.cfg, l.job)| < PATH_MAX && |StepDir(l.cfg, l.job, l.step)| < PATH_MAX
  }

  function RunLaunch(v: Env, l: Launch): Env {
    StepRewrite(UserInitEnv(v, {}, l.cfg, l.job).0, {}, l.cfg, l.job, l.step).0
  }

  /** Launches in order, each inheriting the environment of the one before. */
  function RunLaunches(v: Env, ls: seq<Launch>): Env {
    if ls == [] then v else RunLaunch(RunLaunches(v, ls[..|ls| - 1]), ls[|ls| - 1])
  }

  /** The plugin may choose the directory: it is absent, or the plugin chose it before. */
  predicate PluginOwns(v: Env) {
    DUMP_KEY !in v || MarkedOwned(v)
  }

  lemma KeysDiffer()
    ensures DUMP_KEY != FLAG_KEY && DUMP_KEY != PLUGIN_KEY && DUMP_KEY != PROM_KEY
    ensures DUMP_KEY != VERBOSE_KEY && DUMP_KEY != INTERVAL_KEY
    ensures FLAG_KEY != PLUGIN_KEY && FLAG_KEY != PROM_KEY && FLAG_KEY != VERBOSE_KEY && FLAG_KEY != INTERVAL_KEY
  {
    assert |DUMP_KEY| == 23 && |FLAG_KEY| == 34 && |PLUGIN_KEY| == 20;
    assert |PROM_KEY| == 24 && |VERBOSE_KEY| == 27 && |INTERVAL_KEY| == 48;
  }

  lemma LaunchEffect(v: Env, l: Launch)
    requires Fits(l)
    ensures var v' := RunLaunch(v, l);
            && DUMP_KEY in v'
            && (PluginOwns(v) ==> MarkedOwned(v') && v'[DUMP_KEY] == StepDir(l.cfg, l.job, l.step))
            && (!PluginOwns(v) ==> !MarkedOwned(v') && v'[DUMP_KEY] == v[DUMP_KEY])
            && (forall k :: k in v && k != DUMP_KEY && k != FLAG_KEY ==> k in v' && v'[k] == v[k])
  {
    KeysDiffer();
  }

  lemma PlainKeysDiffer()
    ensures PLUGIN_KEY != PROM_KEY && PLUGIN_KEY != VERBOSE_KEY && PLUGIN_KEY != INTERVAL_KEY
    ensures PROM_KEY != VERBOSE_KEY && PROM_KEY != INTERVAL_KEY && VERBOSE_KEY != INTERVAL_KEY
  {
    assert |PLUGIN_KEY| == 20 && |PROM_KEY| == 24 && |VERBOSE_KEY| == 27 && |INTERVAL_KEY| == 48;
  }

  /** A variable ends with its own value or, where it may be set, with the default. */
  predicate Exported(v: Env, v': Env, refused: set<string>, k: string, d: CString) {
    && (k in v' <==> k in v || k !in refused)
    && (k in v ==> k in v' && v'[k] == v[k])
    && (k !in v && k !in refused ==> k in v' && v'[k] == d)
  }

  lemma PutChain(v: Env, v2: Env, refused: set<string>, p: string, m: string, b: string, i: string,
                 x: CString, y: CString, z: CString, w: CString)
    requires p != m && p != b && p != i && m != b && m != i && b != i
    requires var v1 := PutMissing(v, refused, p, x);
             forall k :: k == p || k == m || k == b || k == i ==>
               (k in v2 <==> k in v1) && (k in v1 ==> v2[k] == v1[k])
    ensures var v' := PutMissing(PutMissing(PutMissing(v2, refused, m, y), refused, b, z), refused, i, w);
            && Exported(v, v', refused, p, x) && Exported(v, v', refused, m, y)
            && Exported(v, v', refused, b, z) && Exported(v, v', refused, i, w)
  {
  }

  /** Each plain default is exported exactly when the job has not set the variable and it
      can be set; a value the job has set is kept, whatever else fails. */
  lemma DefaultsExported(v: Env, refused: set<string>, cfg: Settings, job: Uint32)
    requires cfg.enabled && |JobDir(cfg, job)| < PATH_MAX
    ensures var v' := UserInitEnv(v, refused, cfg, job).0;
            && Exported(v, v', refused, "NCCL_PROFILER_PLUGIN", cfg.profilerPlugin)
            && Exported(v, v', refused, "NCCL_INSPECTOR_PROM_DUMP", if cfg.promDump then "1" else "0")
            && Exported(v, v', refused, "NCCL_INSPECTOR_DUMP_VERBOSE", if cfg.dumpVerbose then "1" else "0")
            && Exported(v, v', refused, "NCCL_INSPECTOR_DUMP_THREAD_INTERVAL_MICROSECONDS", cfg.threadInterval)
  {
    KeysDiffer();
    PlainKeysDiffer();
    var v1 := PutMissing(v, refused, PLUGIN_KEY, cfg.profilerPlugin);
    PutChain(v, ClaimDumpDir(v1, refused, JobDir(cfg, job)), refused, PLUGIN_KEY, PROM_KEY, VERBOSE_KEY, INTERVAL_KEY,
             cfg.profilerPlugin, FormatBool(cfg.promDump), FormatBool(cfg.dumpVerbose), cfg.threadInterval);
  }

  /** The dump directory is exported, job-level rendered and marked, exactly when the job has
      not set it and it can be set; otherwise neither it nor the mark changes. */
  lemma {:induction false} DumpDirExported(v: Env, refused: set<string>, cfg: Settings, job: Uint32)
    requires cfg.enabled && |JobDir(cfg, job)| < PATH_MAX
    ensures var v' := UserInitEnv(v, refused, cfg, job).0;
            var dump, mark := "NCCL_INSPECTOR_DUMP_DIR", "SNCCLIPRECON_LOG_DIR_SET_BY_PLUGIN";
            if dump in v || dump in refused then Kept(v, v', dump) && Kept(v, v', mark)
            else
              && dump in v' && v'[dump] == Expand(cfg.dumpDir, Ids(Print(job), "", false))
              && (if mark in refused then Kept(v, v', mark) else mark in v' && v'[mark] == "1")
  {
    KeysDiffer();
  }

  predicate Kept(v: Env, v': Env, k: string) {
    (k in v' <==> k in v) && (k in v ==> v'[k] == v[k])
  }

  /** A disabled plugin exports nothing; a template that does not fit stops the hook after
      the plugin path. */
  lemma {:induction false} UserInitStops(v: Env, refused: set<string>, cfg: Settings, job: Uint32)
    ensures !cfg.enabled ==> UserInitEnv(v, refused, cfg, job) == (v, Success)
    ensures cfg.enabled && |Expand(cfg.dumpDir, Ids(Print(job), "", false))| >= 4096 ==>
              var (v', rc) := UserInitEnv(v, refused, cfg, job);
              && rc == Error
              && v' == if "NCCL_PROFILER_PLUGIN" in v || "NCCL_PROFILER_PLUGIN" in refused then v
                       else v["NCCL_PROFILER_PLUGIN" := cfg.profilerPlugin]
  {
  }

  /** Different steps of a job get different directories exactly if the template has a step
      placeholder. */
  lemma {:induction false} StepsGetOwnDirs(cfg: Settings, job: Uint32, step: Uint32, step': Uint32)
    requires step != step'
    ensures StepDir(cfg, job, step) != StepDir(cfg, job, step') <==> StepMarks(cfg.dumpDir) != ""
    ensures StepDir(cfg, job, step) == Expand(cfg.dumpDir, Ids(Print(job), Print(step), true))
  {
    if Print(step) == Print(step') {
      PrintInjective(step, step');
    }
    StepsDifferIff(cfg.dumpDir, PrintC(job), PrintC(step), PrintC(step'));
  }

  /** A directory the user chose is never changed, by any chain of launches; one the
      plugin chose is always the step rendering of the latest launch. */
  lemma {:induction false} OwnershipAcrossLaunches(v: Env, ls: seq<Launch>)
    requires ls != [] && forall l :: l in ls ==> Fits(l)
    ensures var v', l := RunLaunches(v, ls), ls[|ls| - 1];
            && DUMP_KEY in v'
            && (PluginOwns(v) ==> MarkedOwned(v') && v'[DUMP_KEY] == StepDir(l.cfg, l.job, l.step))
            && (!PluginOwns(v) ==> !MarkedOwned(v') && v'[DUMP_KEY] == v[DUMP_KEY])
    decreases |ls|
  {
    var front, l := ls[..|ls| - 1], ls[|ls| - 1];
    if front != [] {
      OwnershipAcrossLaunches(v, front);
    }
    LaunchEffect(RunLaunches(v, front), l);
  }

  /** Every other variable the job had set keeps its value. */
  lemma {:induction false} UserValuesKept(v: Env, ls: seq<Launch>, k: string)
    requires forall l :: l in ls ==> Fits(l)
    requires k in v && k != DUMP_KEY && k != FLAG_KEY
    ensures k in RunLaunches(v, ls) && RunLaunches(v, ls)[k] == v[k]
    decreases |ls|
  {
    if ls != [] {
      UserValuesKept(v, ls[..|ls| - 1], k);
      LaunchEffect(RunLaunches(v, ls[..|ls| - 1]), ls[|ls| - 1]);
    }
  }

  lemma LaunchPlugin(v: Env, l: Launch)
    requires Fits(l)
    ensures PLUGIN_KEY in RunLaunch(v, l)
    ensures RunLaunch(v, l)[PLUGIN_KEY] == if PLUGIN_KEY in v then v[PLUGIN_KEY] else l.cfg.profilerPlugin
  {
    KeysDiffer();
    DefaultsExported(v, {}, l.cfg, l.job);
  }

  /** The plugin path sticks: after any chain of launches it is the one the job had set or
      else the one the first launch configured, whatever the later launches configure. And
      the library that `get_profiler_plugin` picks for the mount is the one that the task's
      variable names, except exactly when the job has set that variable to nothing. */
  lemma {:induction false} PluginAcrossLaunches(v: Env, ls: seq<Launch>)
    requires ls != [] && forall l :: l in ls ==> Fits(l) && l.cfg.profilerPlugin != ""
    ensures var v', cfg := RunLaunches(v, ls), ls[|ls| - 1].cfg;
            && PLUGIN_KEY in v'
            && v'[PLUGIN_KEY] == (if PLUGIN_KEY in v then v[PLUGIN_KEY] else ls[0].cfg.profilerPlugin)
            && (PluginOf(v', cfg) == v'[PLUGIN_KEY] <==> !(PLUGIN_KEY in v && v[PLUGIN_KEY] == ""))
    decreases |ls|
  {
    var front, l := ls[..|ls| - 1], ls[|ls| - 1];
    if front != [] {
      PluginAcrossLaunches(v, front);
      assert front[0] == ls[0];
    }
    LaunchPlugin(RunLaunches(v, front), l);
  }

  /** The directory exported at job level and rewritten at step level is what rendering
      the job-level text once more at step level would give. */
  lemma RewriteAgreesWithExport(cfg: Settings, job: Uint32, step: Uint32)
    ensures Expand(JobDir(cfg, job), StepIds(job, step)) == StepDir(cfg, job, step)
  {
    Confluent(cfg.dumpDir, PrintC(job), PrintC(step));
  }
}
