/** The process-wide configuration: six options, each layered as built-in default,
    plugstack arguments, then (in remote contexts) the environment. */
module Config {
  import opened CStrings
  import opened Decimal
  import opened Wrappers

  datatype Opt = Enabled | ProfilerPlugin | PromDump | DumpDir | DumpVerbose | ThreadInterval

  /** The value of one configuration field. */
  datatype Field = Flag(flag: bool) | Text(text: CString)

  datatype Settings = Settings(
    enabled: bool, profilerPlugin: CString, promDump: bool,
    dumpDir: CString, dumpVerbose: bool, threadInterval: CString)

  newtype uint64 = x: int | 0 <= x < 0x1_0000_0000_0000_0000

  const ULLONG_MAX: uint64 := 0xFFFF_FFFF_FFFF_FFFF
  const INTERVAL_SIZE: nat := 64
  const NAME_SIZE: nat := 128

  // What one assignment means

  function NameOf(o: Opt): string {
    match o
    case Enabled => "enabled"
    case ProfilerPlugin => "profiler-plugin"
    case DumpDir => "dump-dir"
    case PromDump => "prom-dump"
    case DumpVerbose => "dump-verbose"
    case ThreadInterval => "dump-thread-interval-microseconds"
  }

  function EnvNameOf(o: Opt): string {
    match o
    case Enabled => "SNCCLIPRECON_ENABLED"
    case ProfilerPlugin => "SNCCLIPRECON_PROFILER_PLUGIN"
    case DumpDir => "SNCCLIPRECON_DUMP_DIR"
    case PromDump => "SNCCLIPRECON_PROM_DUMP"
    case DumpVerbose => "SNCCLIPRECON_DUMP_VERBOSE"
    case ThreadInterval => "SNCCLIPRECON_DUMP_THREAD_INTERVAL_MICROSECONDS"
  }

  /** The order of the parser table, and of the environment variables. */
  const PARSERS: seq<Opt> := [Enabled, ProfilerPlugin, DumpDir, PromDump, DumpVerbose, ThreadInterval]
  const ENV_ORDER: seq<Opt> := [Enabled, ProfilerPlugin, DumpDir, PromDump, DumpVerbose, ThreadInterval]

  function Lower(s: string): string {
    seq(|s|, i requires 0 <= i < |s| => if 'A' <= s[i] <= 'Z' then (s[i] - 'A') + 'a' else s[i])
  }

  /** `1`, and `true` in any mix of cases. */
  predicate SpellsTrue(v: string) {
    v == "1" || (|v| == 4 && v[0] in "tT" && v[1] in "rR" && v[2] in "uU" && v[3] in "eE")
  }

  /** `0`, and `false` in any mix of cases. */
  predicate SpellsFalse(v: string) {
    v == "0" || (|v| == 5 && v[0] in "fF" && v[1] in "aA" && v[2] in "lL" && v[3] in "sS" && v[4] in "eE")
  }

  function BoolOf(v: string): Option<bool> {
    if v == "1" || Lower(v) == "true" then Some(true)
    else if v == "0" || Lower(v) == "false" then Some(false)
    else None
  }

  /** A decimal that fits 64 bits, leading zeros allowed. */
  predicate IsUint64(v: string) {
    v != "" && AllDigits(v) && Value(v) <= ULLONG_MAX as int
  }

  /** What assigning v to o writes, if anything. An over-long text is written cut to the
      buffer even though the assignment is then rejected. */
  function Writes(o: Opt, v: CString): Option<Field> {
    match o
    case Enabled | PromDump | DumpVerbose => (match BoolOf(v) case None => None case Some(b) => Some(Flag(b)))
    case ProfilerPlugin | DumpDir => if v == "" then None else Some(Text(Cut(v, PATH_MAX - 1)))
    case ThreadInterval => if IsUint64(v) then Some(Text(Cut(v, INTERVAL_SIZE - 1))) else None
  }

  predicate Accepts(o: Opt, v: CString) {
    match o
    case Enabled | PromDump | DumpVerbose => BoolOf(v).Some?
    case ProfilerPlugin | DumpDir => v != "" && |v| < PATH_MAX
    case ThreadInterval => IsUint64(v) && |v| < INTERVAL_SIZE
  }

  function Get(c: Settings, o: Opt): Field {
    match o
    case Enabled => Flag(c.enabled)
    case ProfilerPlugin => Text(c.profilerPlugin)
    case PromDump => Flag(c.promDump)
    case DumpDir => Text(c.dumpDir)
    case DumpVerbose => Flag(c.dumpVerbose)
    case ThreadInterval => Text(c.threadInterval)
  }

  function Assign(c: Settings, o: Opt, v: CString): Settings {
    match Writes(o, v)
    case None => c
    case Some(f) =>
      match o
      case Enabled => c.(enabled := f.flag)
      case ProfilerPlugin => c.(profilerPlugin := f.text)
      case PromDump => c.(promDump := f.flag)
      case DumpDir => c.(dumpDir := f.text)
      case DumpVerbose => c.(dumpVerbose := f.flag)
      case ThreadInterval => c.(threadInterval := f.text)
  }

  // ... and in so many words

  lemma FoldCase(c: char, d: char, e: char)
    requires 'a' <= d <= 'z' && e as int == d as int - 32
    ensures (if 'A' <= c <= 'Z' then (c - 'A') + 'a' else c) == d <==> c == d || c == e
  {
  }

  lemma LowerTrue(v: string)
    ensures Lower(v) == "true" <==> |v| == 4 && v[0] in "tT" && v[1] in "rR" && v[2] in "uU" && v[3] in "eE"
  {
    if |v| == 4 {
      FoldCase(v[0], 't', 'T');
      FoldCase(v[1], 'r', 'R');
      FoldCase(v[2], 'u', 'U');
      FoldCase(v[3], 'e', 'E');
      var l := Lower(v);
      assert l == [l[0], l[1], l[2], l[3]];
    }
  }

  lemma LowerFalse(v: string)
    ensures Lower(v) == "false" <==>
              |v| == 5 && v[0] in "fF" && v[1] in "aA" && v[2] in "lL" && v[3] in "sS" && v[4] in "eE"
  {
    if |v| == 5 {
      FoldCase(v[0], 'f', 'F');
      FoldCase(v[1], 'a', 'A');
      FoldCase(v[2], 'l', 'L');
      FoldCase(v[3], 's', 'S');
      FoldCase(v[4], 'e', 'E');
      var l := Lower(v);
      assert l == [l[0], l[1], l[2], l[3], l[4]];
    }
  }

  lemma BoolMeans(v: string)
    ensures BoolOf(v) == Some(true) <==> SpellsTrue(v)
    ensures BoolOf(v) == Some(false) <==> SpellsFalse(v)
  {
    LowerTrue(v);
    LowerFalse(v);
  }

  /** A flag is set by `1` and any spelling of `true`, cleared by `0` and any spelling of
      `false`, and left alone, with the value rejected, by everything else. */
  lemma FlagsMean(c: Settings, v: CString)
    ensures SpellsTrue(v) || SpellsFalse(v) ==>
              && Accepts(Enabled, v) && Assign(c, Enabled, v) == c.(enabled := SpellsTrue(v))
              && Accepts(PromDump, v) && Assign(c, PromDump, v) == c.(promDump := SpellsTrue(v))
              && Accepts(DumpVerbose, v) && Assign(c, DumpVerbose, v) == c.(dumpVerbose := SpellsTrue(v))
    ensures !SpellsTrue(v) && !SpellsFalse(v) ==>
              && !Accepts(Enabled, v) && Assign(c, Enabled, v) == c
              && !Accepts(PromDump, v) && Assign(c, PromDump, v) == c
              && !Accepts(DumpVerbose, v) && Assign(c, DumpVerbose, v) == c
  {
    BoolMeans(v);
  }

  /** A path of 1 to 4095 characters is taken; a longer one leaves its first 4095 and is
      rejected; the empty one is rejected and changes nothing. */
  lemma PathsMean(c: Settings, v: CString)
    ensures Accepts(DumpDir, v) <==> 0 < |v| < 4096
    ensures Accepts(ProfilerPlugin, v) <==> 0 < |v| < 4096
    ensures v == "" ==> Assign(c, DumpDir, v) == c && Assign(c, ProfilerPlugin, v) == c
    ensures 0 < |v| < 4096 ==>
              Assign(c, DumpDir, v) == c.(dumpDir := v) && Assign(c, ProfilerPlugin, v) == c.(profilerPlugin := v)
    ensures |v| >= 4096 ==>
              && Assign(c, DumpDir, v) == c.(dumpDir := v[..4095])
              && Assign(c, ProfilerPlugin, v) == c.(profilerPlugin := v[..4095])
  {
  }

  /** An interval is a decimal below 2^64. One of at most 63 digits is taken, a longer one
      (leading zeros) leaves its first 63 and is rejected, anything else is rejected and
      changes nothing. */
  lemma {:induction false} IntervalsMean(c: Settings, v: CString)
    ensures var ok := v != "" && (forall i :: 0 <= i < |v| ==> v[i] in "0123456789")
                      && AllDigits(v) && Value(v) < 18446744073709551616;
            && (Accepts(ThreadInterval, v) <==> ok && |v| < 64)
            && Assign(c, ThreadInterval, v) ==
                 if !ok then c else c.(threadInterval := if |v| < 64 then v else v[..63])
  {
    DigitsCount("", 0);
  }

  // A whole argument list

  /** The option a name selects: the first entry of the parser table with that name. */
  function OptOf(name: string): Option<Opt> {
    Find(name, PARSERS)
  }

  function Find(name: string, table: seq<Opt>): Option<Opt> {
    if table == [] then None
    else if NameOf(table[0]) == name then Some(table[0])
    else Find(name, table[1..])
  }

  /** Each name selects its own option and nothing else selects it. */
  lemma NamesSelect(name: string, o: Opt)
    ensures OptOf(name) == Some(o) <==> name == NameOf(o)
  {
    FindSelects(name, o, PARSERS);
  }

  /** The six names. */
  lemma OptionNames(name: string)
    ensures OptOf("enabled") == Some(Enabled) && OptOf("profiler-plugin") == Some(ProfilerPlugin)
    ensures OptOf("dump-dir") == Some(DumpDir) && OptOf("prom-dump") == Some(PromDump)
    ensures OptOf("dump-verbose") == Some(DumpVerbose)
    ensures OptOf("dump-thread-interval-microseconds") == Some(ThreadInterval)
    ensures OptOf(name).Some? ==>
              || name == "enabled" || name == "profiler-plugin" || name == "dump-dir" || name == "prom-dump"
              || name == "dump-verbose" || name == "dump-thread-interval-microseconds"
  {
    NamesSelect("enabled", Enabled);
    NamesSelect("profiler-plugin", ProfilerPlugin);
    NamesSelect("dump-dir", DumpDir);
    NamesSelect("prom-dump", PromDump);
    NamesSelect("dump-verbose", DumpVerbose);
    NamesSelect("dump-thread-interval-microseconds", ThreadInterval);
    if OptOf(name).Some? {
      NamesSelect(name, OptOf(name).value);
    }
  }

  lemma {:induction false} FindSelects(name: string, o: Opt, table: seq<Opt>)
    ensures Find(name, table) == Some(o) <==> name == NameOf(o) && o in table
  {
    if table != [] {
      FindSelects(name, o, table[1..]);
      if NameOf(table[0]) == NameOf(o) {
        NamesDiffer(table[0], o);
      }
    }
  }

  lemma NamesDiffer(o: Opt, p: Opt)
    requires NameOf(o) == NameOf(p)
    ensures o == p
  {
    assert |NameOf(Enabled)| == 7 && |NameOf(ProfilerPlugin)| == 15 && |NameOf(DumpDir)| == 8;
    assert |NameOf(PromDump)| == 9 && |NameOf(DumpVerbose)| == 12 && |NameOf(ThreadInterval)| == 33;
  }

  /** A value given for an option; None is a name that selects no option. */
  datatype Assignment = Assignment(opt: Option<Opt>, value: CString)

  function Step(c: Settings, a: Assignment): Settings {
    match a.opt case None => c case Some(o) => Assign(c, o, a.value)
  }

  function Fold(c: Settings, l: seq<Assignment>): Settings {
    if l == [] then c else Step(Fold(c, l[..|l| - 1]), l[|l| - 1])
  }

  /** The values a list assigns to o, in order. */
  function ValuesFor(l: seq<Assignment>, o: Opt): seq<CString> {
    if l == [] then []
    else ValuesFor(l[..|l| - 1], o) + (if l[|l| - 1].opt == Some(o) then [l[|l| - 1].value] else [])
  }

  /** The last value that writes wins; with none, the field keeps what it had. */
  function LastWritten(f: Field, o: Opt, vs: seq<CString>): Field {
    if vs == [] then f
    else match Writes(o, vs[|vs| - 1])
         case Some(g) => g
         case None => LastWritten(f, o, vs[..|vs| - 1])
  }

  lemma {:induction false} StepField(c: Settings, a: Assignment, o: Opt)
    ensures Get(Step(c, a), o) == LastWritten(Get(c, o), o, if a.opt == Some(o) then [a.value] else [])
  {
    assert [a.value][..0] == [];
  }

  lemma {:induction false} LastWrittenSnoc(f: Field, o: Opt, vs: seq<CString>, v: CString)
    ensures LastWritten(f, o, vs + [v]) == LastWritten(LastWritten(f, o, vs), o, [v])
  {
    assert (vs + [v])[..|vs|] == vs && [v][..0] == [];
  }

  /** Last writer wins, per field, for every list of assignments: accepted, rejected,
      rejected but written, and unknown names alike. */
  lemma {:induction false} LastWriterWins(c: Settings, l: seq<Assignment>, o: Opt)
    ensures Get(Fold(c, l), o) == LastWritten(Get(c, o), o, ValuesFor(l, o))
  {
    if l != [] {
      var front, a := l[..|l| - 1], l[|l| - 1];
      LastWriterWins(c, front, o);
      StepField(Fold(c, front), a, o);
      if a.opt == Some(o) {
        LastWrittenSnoc(Get(c, o), o, ValuesFor(front, o), a.value);
      } else {
        assert ValuesFor(l, o) == ValuesFor(front, o);
      }
    }
  }

  /** The same by position: the field holds what the last assignment that writes it wrote. */
  lemma {:induction false} LastWriterAt(c: Settings, l: seq<Assignment>, o: Opt, k: nat)
    requires k < |l| && l[k].opt == Some(o) && Writes(o, l[k].value).Some?
    requires forall i :: k < i < |l| && l[i].opt == Some(o) ==> Writes(o, l[i].value).None?
    ensures Get(Fold(c, l), o) == Writes(o, l[k].value).value
    decreases |l|
  {
    var front, a := l[..|l| - 1], l[|l| - 1];
    StepAlone(Fold(c, front), a, o);
    if k < |front| {
      LastWriterAt(c, front, o, k);
    }
  }

  /** With no such assignment it holds what it held. */
  lemma {:induction false} NoWriter(c: Settings, l: seq<Assignment>, o: Opt)
    requires forall i :: 0 <= i < |l| && l[i].opt == Some(o) ==> Writes(o, l[i].value).None?
    ensures Get(Fold(c, l), o) == Get(c, o)
    decreases |l|
  {
    if l != [] {
      NoWriter(c, l[..|l| - 1], o);
      StepAlone(Fold(c, l[..|l| - 1]), l[|l| - 1], o);
    }
  }

  lemma StepAlone(c: Settings, a: Assignment, o: Opt)
    ensures Get(Step(c, a), o) ==
              if a.opt == Some(o) && Writes(o, a.value).Some? then Writes(o, a.value).value else Get(c, o)
  {
  }

  /** Only the order within each option matters. */
  lemma {:induction false} OrderAcrossOptionsIrrelevant(c: Settings, l: seq<Assignment>, m: seq<Assignment>)
    requires forall o :: ValuesFor(l, o) == ValuesFor(m, o)
    ensures Fold(c, l) == Fold(c, m)
  {
    forall o: Opt
      ensures Get(Fold(c, l), o) == Get(Fold(c, m), o)
    {
      LastWriterWins(c, l, o);
      LastWriterWins(c, m, o);
    }
    SameFields(Fold(c, l), Fold(c, m));
  }

  lemma SameFields(c: Settings, d: Settings)
    requires forall o :: Get(c, o) == Get(d, o)
    ensures c == d
  {
    assert Get(c, Enabled) == Get(d, Enabled) && Get(c, ProfilerPlugin) == Get(d, ProfilerPlugin);
    assert Get(c, PromDump) == Get(d, PromDump) && Get(c, DumpDir) == Get(d, DumpDir);
    assert Get(c, DumpVerbose) == Get(d, DumpVerbose) && Get(c, ThreadInterval) == Get(d, ThreadInterval);
  }

  // The interval field

  predicate IntervalInv(c: Settings) {
    IsUint64(c.threadInterval) && |c.threadInterval| < INTERVAL_SIZE
  }

  lemma CutKeepsUint64(v: CString, n: nat)
    requires IsUint64(v) && n > 0
    ensures IsUint64(Cut(v, n))
  {
    PrefixValue(v, |Cut(v, n)|);
  }

  /** From the defaults, no sequence of assignments, accepted or not, makes the interval
      anything but a short decimal that fits 64 bits. */
  lemma {:induction false} IntervalKept(c: Settings, l: seq<Assignment>)
    requires IntervalInv(c)
    ensures IntervalInv(Fold(c, l))
  {
    if l != [] {
      var front, a := l[..|l| - 1], l[|l| - 1];
      IntervalKept(c, front);
      if IsUint64(a.value) {
        CutKeepsUint64(a.value, INTERVAL_SIZE - 1);
      }
    }
  }

  /** A rejected over-long interval still changes the field, and a rejected over-long path
      does too: acceptance and writing differ exactly on length. */
  lemma RejectedYetWritten(o: Opt, v: CString)
    ensures Accepts(o, v) ==> Writes(o, v).Some?
    ensures Writes(o, v).Some? && !Accepts(o, v) <==>
              || (o == ThreadInterval && IsUint64(v) && |v| >= INTERVAL_SIZE)
              || ((o == ProfilerPlugin || o == DumpDir) && |v| >= PATH_MAX)
    ensures Accepts(o, v) && Writes(o, v).value.Text? ==> Writes(o, v).value.text == v
  {
  }

  // Arguments

  /** A plugstack argument `name=value`, if it has a usable name. */
  function ArgAssignment(arg: Option<CString>): Option<Assignment> {
    if arg.None? || '=' !in arg.value then None
    else
      var n := StrChr(arg.value, '=');
      if n == 0 || n >= NAME_SIZE then None
      else Some(Assignment(OptOf(arg.value[..n]), arg.value[n + 1..]))
  }

  function StrChr(s: string, c: char): (n: nat)
    requires c in s
    ensures n < |s| && s[n] == c && c !in s[..n]
  {
    if s[0] == c then 0 else 1 + StrChr(s[1..], c)
  }

  function ArgList(argv: seq<Option<CString>>): seq<Assignment> {
    if argv == [] then []
    else ArgList(argv[..|argv| - 1]) +
         (match ArgAssignment(argv[|argv| - 1]) case None => [] case Some(a) => [a])
  }

  /** Arguments keep their order. */
  lemma {:induction false} ArgListConcat(a: seq<Option<CString>>, b: seq<Option<CString>>)
    ensures ArgList(a + b) == ArgList(a) + ArgList(b)
    decreases |b|
  {
    if b == [] {
      assert a + b == a;
    } else {
      var front := b[..|b| - 1];
      ArgListConcat(a, front);
      assert (a + b)[..|a + b| - 1] == a + front && (a + b)[|a + b| - 1] == b[|b| - 1];
    }
  }

  lemma ArgListSnoc(argv: seq<Option<CString>>, i: nat)
    requires i < |argv|
    ensures ArgList(argv[..i + 1]) == match ArgAssignment(argv[i])
                                      case None => ArgList(argv[..i])
                                      case Some(a) => ArgList(argv[..i]) + [a]
  {
    assert argv[..i + 1][..i] == argv[..i];
  }

  type Env = map<string, CString>

  function EnvValue(env: Env, o: Opt): Option<CString> {
    if EnvNameOf(o) in env then Some(env[EnvNameOf(o)]) else None
  }

  /** The six variables. */
  lemma VariableNames(env: Env)
    ensures EnvValue(env, Enabled) == Lookup(env, "SNCCLIPRECON_ENABLED")
    ensures EnvValue(env, ProfilerPlugin) == Lookup(env, "SNCCLIPRECON_PROFILER_PLUGIN")
    ensures EnvValue(env, DumpDir) == Lookup(env, "SNCCLIPRECON_DUMP_DIR")
    ensures EnvValue(env, PromDump) == Lookup(env, "SNCCLIPRECON_PROM_DUMP")
    ensures EnvValue(env, DumpVerbose) == Lookup(env, "SNCCLIPRECON_DUMP_VERBOSE")
    ensures EnvValue(env, ThreadInterval) == Lookup(env, "SNCCLIPRECON_DUMP_THREAD_INTERVAL_MICROSECONDS")
  {
  }

  function Lookup(env: Env, name: string): (r: Option<CString>)
    ensures r.Some? <==> name in env
    ensures r.Some? ==> env[name] == r.value
  {
    if name in env then Some(env[name]) else None
  }

  function Getter(env: Env): Opt -> Option<CString> {
    o => EnvValue(env, o)
  }

  function EnvOne(get: Opt -> Option<CString>, o: Opt): seq<Assignment> {
    match get(o) case None => [] case Some(v) => [Assignment(Some(o), v)]
  }

  /** The assignments the environment makes, in the order given. */
  function EnvList(get: Opt -> Option<CString>, order: seq<Opt>): seq<Assignment> {
    if order == [] then []
    else EnvList(get, order[..|order| - 1]) + EnvOne(get, order[|order| - 1])
  }

  lemma {:induction false} FoldConcat(c: Settings, l: seq<Assignment>, m: seq<Assignment>)
    ensures Fold(c, l + m) == Fold(Fold(c, l), m)
    decreases |m|
  {
    if m == [] {
      assert l + m == l;
    } else {
      FoldConcat(c, l, m[..|m| - 1]);
      assert (l + m)[..|l + m| - 1] == l + m[..|m| - 1];
    }
  }

  function Layers(argv: seq<Option<CString>>, env: Env, remote: bool): seq<Assignment> {
    ArgList(argv) + (if remote then EnvList(Getter(env), ENV_ORDER) else [])
  }

  lemma {:induction false} ValuesConcat(l: seq<Assignment>, m: seq<Assignment>, o: Opt)
    ensures ValuesFor(l + m, o) == ValuesFor(l, o) + ValuesFor(m, o)
    decreases |m|
  {
    if m == [] {
      assert l + m == l;
    } else {
      ValuesConcat(l, m[..|m| - 1], o);
      assert (l + m)[..|l + m| - 1] == l + m[..|m| - 1];
    }
  }

  lemma {:induction false} EnvValues(get: Opt -> Option<CString>, order: seq<Opt>, o: Opt)
    requires forall i, j :: 0 <= i < j < |order| ==> order[i] != order[j]
    ensures ValuesFor(EnvList(get, order), o) ==
              if o in order && get(o).Some? then [get(o).value] else []
    decreases |order|
  {
    if order != [] {
      var front, last := order[..|order| - 1], order[|order| - 1];
      EnvValues(get, front, o);
      InFront(order, o);
      ValuesConcat(EnvList(get, front), EnvOne(get, last), o);
      OneValue(get, last, o);
    }
  }

  lemma InFront(order: seq<Opt>, o: Opt)
    requires order != [] && forall i, j :: 0 <= i < j < |order| ==> order[i] != order[j]
    ensures var front, last := order[..|order| - 1], order[|order| - 1];
            last !in front && (o in order <==> o in front || o == last)
  {
    assert order == order[..|order| - 1] + [order[|order| - 1]];
  }

  lemma {:induction false} OneValue(get: Opt -> Option<CString>, last: Opt, o: Opt)
    ensures ValuesFor(EnvOne(get, last), o) == if last == o && get(o).Some? then [get(o).value] else []
  {
    var one := EnvOne(get, last);
    assert |one| == 1 ==> one[..0] == [];
  }

  lemma {:induction false} LastOf(f: Field, o: Opt, vs: seq<CString>, w: Option<CString>)
    ensures LastWritten(f, o, vs + (if w.Some? then [w.value] else [])) ==
              if w.Some? && Writes(o, w.value).Some? then Writes(o, w.value).value else LastWritten(f, o, vs)
  {
    if w.Some? {
      LastWrittenSnoc(f, o, vs, w.value);
      assert [w.value][..0] == [];
    } else {
      assert vs + [] == vs;
    }
  }

  /** The documented order of layers, field by field: in a remote context a usable
      environment variable wins, otherwise the last usable plugstack argument, otherwise
      the built-in default. */
  lemma {:induction false} LayerPrecedence(c: Settings, argv: seq<Option<CString>>, env: Env, remote: bool, o: Opt)
    ensures var w := if remote then EnvValue(env, o) else None;
            Get(Fold(c, Layers(argv, env, remote)), o) ==
              if w.Some? && Writes(o, w.value).Some? then Writes(o, w.value).value
              else LastWritten(Get(c, o), o, ValuesFor(ArgList(argv), o))
  {
    var w := if remote then EnvValue(env, o) else None;
    var tail := if remote then EnvList(Getter(env), ENV_ORDER) else [];
    LastWriterWins(c, Layers(argv, env, remote), o);
    ValuesConcat(ArgList(argv), tail, o);
    EnvValues(Getter(env), ENV_ORDER, o);
    AllListed(o);
    LastOf(Get(c, o), o, ValuesFor(ArgList(argv), o), w);
  }

  lemma AllListed(o: Opt)
    ensures o in ENV_ORDER
  {
    match o
    case Enabled => assert ENV_ORDER[0] == o;
    case ProfilerPlugin => assert ENV_ORDER[1] == o;
    case DumpDir => assert ENV_ORDER[2] == o;
    case PromDump => assert ENV_ORDER[3] == o;
    case DumpVerbose => assert ENV_ORDER[4] == o;
    case ThreadInterval => assert ENV_ORDER[5] == o;
  }

  /** Splitting at the first `=`: a value may itself contain `=`. */
  lemma ArgumentSplits(name: CString, value: CString)
    requires '=' !in name
    ensures ArgAssignment(Some(name + "=" + value)) ==
              if 0 < |name| < 128 then Some(Assignment(OptOf(name), value)) else None
  {
    var s := name + "=" + value;
    var n := StrChr(s, '=');
    assert s[|name|] == '=';
    assert forall k :: 0 <= k < |name| ==> s[k] == name[k] && s[k] != '=';
    assert forall k :: 0 <= k < n ==> s[..n][k] == s[k] && s[k] != '=';
    assert n == |name|;
    assert s[..n] == name;
    assert s[n + 1..] == value;
  }

  // The parsers, over buffers

  /** `set_string`. */
  method SetString(dst: array<char>, value: Option<CString>) returns (ok: bool)
    requires dst.Length > 0
    modifies dst
    ensures value.None? || value.value == "" ==> !ok && dst[..] == old(dst[..])
    ensures value.Some? && value.value != "" ==>
              (ok <==> |value.value| < dst.Length) && Read(dst[..]) == Cut(value.value, dst.Length - 1)
  {
    if value.None? || At(value.value, 0) == '\0' {
      return false;
    }
    var written := Snprintf(dst, value.value);
    ReadHolds(dst[..], Cut(value.value, dst.Length - 1));
    ok := written < dst.Length;
  }

  /** `set_uint_string`; the 64-bit accumulator stays in range by its type. */
  method SetUintString(dst: array<char>, value: Option<CString>) returns (ok: bool)
    requires dst.Length > 0
    modifies dst
    ensures ok <==> value.Some? && IsUint64(value.value) && |value.value| < dst.Length
    ensures value.None? || !IsUint64(value.value) ==> dst[..] == old(dst[..])
    ensures value.Some? && IsUint64(value.value) ==> Read(dst[..]) == Cut(value.value, dst.Length - 1)
  {
    if value.None? || At(value.value, 0) == '\0' {
      return false;
    }
    var v := value.value;
    var parsed: uint64 := 0;
    var i := 0;
    while At(v, i) != '\0'
      invariant 0 <= i <= |v| && AllDigits(v[..i]) && parsed as int == Value(v[..i])
      invariant dst[..] == old(dst[..])
      decreases |v| - i
    {
      if At(v, i) < '0' || At(v, i) > '9' {
        return false;
      }
      var digit := (At(v, i) - '0') as int as uint64;
      assert v[..i + 1][..i] == v[..i];
      if parsed > (ULLONG_MAX - digit) / 10 {
        if AllDigits(v) {
          PrefixValue(v, i + 1);
        }
        return false;
      }
      parsed := parsed * 10 + digit;
      i := i + 1;
    }
    assert v[..i] == v;
    ok := SetString(dst, value);
  }

  /** `parse_bool`. */
  method ParseBool(value: Option<CString>) returns (r: Option<bool>)
    ensures r == Some(true) <==>
              && value.Some?
              && var v := value.value;
                 v == "1" || (|v| == 4 && v[0] in "tT" && v[1] in "rR" && v[2] in "uU" && v[3] in "eE")
    ensures r == Some(false) <==>
              && value.Some?
              && var v := value.value;
                 || v == "0"
                 || (|v| == 5 && v[0] in "fF" && v[1] in "aA" && v[2] in "lL" && v[3] in "sS" && v[4] in "eE")
    ensures value.Some? ==> r == BoolOf(value.value)
  {
    if value.None? {
      return None;
    }
    var v := value.value;
    BoolMeans(v);
    if v == "1" || Lower(v) == "true" {
      return Some(true);
    }
    if v == "0" || Lower(v) == "false" {
      return Some(false);
    }
    r := None;
  }

  /** The static `config` structure. */
  class Store {
    var enabled: bool
    var promDump: bool
    var dumpVerbose: bool
    const profilerPlugin: array<char>
    const dumpDir: array<char>
    const threadInterval: array<char>

    ghost predicate Valid() {
      && profilerPlugin.Length == PATH_MAX && dumpDir.Length == PATH_MAX
      && threadInterval.Length == INTERVAL_SIZE
      && profilerPlugin != dumpDir
    }

    ghost function View(): Settings
      reads this, profilerPlugin, dumpDir, threadInterval
    {
      Settings(enabled, Read(profilerPlugin[..]), promDump, Read(dumpDir[..]), dumpVerbose,
               Read(threadInterval[..]))
    }

    constructor (defaultPlugin: CString)
      requires 0 < |defaultPlugin| < PATH_MAX
      ensures Valid() && fresh(profilerPlugin) && fresh(dumpDir) && fresh(threadInterval)
      ensures View() == Defaults(defaultPlugin)
    {
      profilerPlugin := new char[PATH_MAX];
      dumpDir := new char[PATH_MAX];
      threadInterval := new char[INTERVAL_SIZE];
      new;
      Reset(defaultPlugin);
    }

    /** `snccliprecon_config_reset`; the default plugin path depends on the architecture. */
    method Reset(defaultPlugin: CString)
      requires Valid() && 0 < |defaultPlugin| < PATH_MAX
      modifies this, profilerPlugin, dumpDir, threadInterval
      ensures View() == Defaults(defaultPlugin)
      ensures enabled && !promDump && dumpVerbose && Read(profilerPlugin[..]) == defaultPlugin
      ensures Read(dumpDir[..]) == "/opt/soperator-outputs/nccl_profiles"
      ensures Read(threadInterval[..]) == "1000000"
    {
      enabled := true;
      var _ := SetString(profilerPlugin, Some(defaultPlugin));
      promDump := false;
      var _ := SetString(dumpDir, Some(DEFAULT_DUMP_DIR));
      dumpVerbose := true;
      var _ := SetString(threadInterval, Some(DEFAULT_INTERVAL));
    }

    /** The `parse_config_*` functions, selected by the table entry. */
    method ParseValue(o: Opt, value: CString) returns (rc: Rc)
      requires Valid()
      modifies this, profilerPlugin, dumpDir, threadInterval
      ensures View() == Assign(old(View()), o, value)
      ensures rc == if Accepts(o, value) then Success else BadArg
      ensures o == Enabled ==>
                enabled == if SpellsTrue(value) then true else if SpellsFalse(value) then false else old(enabled)
      ensures o == PromDump ==>
                promDump == if SpellsTrue(value) then true else if SpellsFalse(value) then false else old(promDump)
      ensures o == DumpVerbose ==>
                dumpVerbose ==
                  if SpellsTrue(value) then true else if SpellsFalse(value) then false else old(dumpVerbose)
      ensures o == Enabled || o == PromDump || o == DumpVerbose ==>
                rc == if SpellsTrue(value) || SpellsFalse(value) then Success else BadArg
    {
      BoolMeans(value);
      var ok;
      match o {
        case Enabled =>
          var b := ParseBool(Some(value));
          if b.None? { return BadArg; }
          enabled := b.value;
          ok := true;
        case PromDump =>
          var b := ParseBool(Some(value));
          if b.None? { return BadArg; }
          promDump := b.value;
          ok := true;
        case DumpVerbose =>
          var b := ParseBool(Some(value));
          if b.None? { return BadArg; }
          dumpVerbose := b.value;
          ok := true;
        case ProfilerPlugin => ok := SetString(profilerPlugin, Some(value));
        case DumpDir => ok := SetString(dumpDir, Some(value));
        case ThreadInterval => ok := SetUintString(threadInterval, Some(value));
      }
      rc := if ok then Success else BadArg;
    }

    /** `snccliprecon_config_parse_option`: search the table, then parse. */
    method ParseOption(name: Option<string>, value: Option<CString>) returns (rc: Rc)
      requires Valid()
      modifies this, profilerPlugin, dumpDir, threadInterval
      ensures name.None? || value.None? ==> View() == old(View()) && rc == BadArg
      ensures name.Some? && value.Some? ==>
                && View() == Step(old(View()), Assignment(OptOf(name.value), value.value))
                && (rc == Success <==> OptOf(name.value).Some? && Accepts(OptOf(name.value).value, value.value))
    {
      if name.None? || value.None? {
        return BadArg;
      }
      var i := 0;
      while i < |PARSERS|
        invariant 0 <= i <= |PARSERS|
        invariant Find(name.value, PARSERS) == Find(name.value, PARSERS[i..])
        invariant View() == old(View())
      {
        assert PARSERS[i..][1..] == PARSERS[i + 1..];
        if name.value == NameOf(PARSERS[i]) {
          rc := ParseValue(PARSERS[i], value.value);
          return;
        }
        i := i + 1;
      }
      rc := BadArg;
    }

    /** `parse_env_option`. */
    method ParseEnvOption(env: Env, o: Opt)
      requires Valid()
      modifies this, profilerPlugin, dumpDir, threadInterval
      ensures View() == Fold(old(View()), EnvList(Getter(env), [o]))
    {
      assert [o][..0] == [];
      var value := EnvValue(env, o);
      if value.Some? {
        NamesSelect(NameOf(o), o);
        var _ := ParseOption(Some(NameOf(o)), value);
      }
    }

    /** The plugstack arguments, in order. */
    method ParseArgList(argv: seq<Option<CString>>)
      requires Valid()
      modifies this, profilerPlugin, dumpDir, threadInterval
      ensures View() == Fold(old(View()), ArgList(argv))
    {
      ghost var c := View();
      for i := 0 to |argv|
        invariant View() == Fold(c, ArgList(argv[..i]))
      {
        ArgListSnoc(argv, i);
        var arg := argv[i];
        if arg.None? || '=' !in arg.value {
          continue;
        }
        var nameLen := StrChr(arg.value, '=');
        if nameLen == 0 || nameLen >= NAME_SIZE {
          continue;
        }
        var _ := ParseOption(Some(arg.value[..nameLen]), Some(arg.value[nameLen + 1..]));
        FoldOne(c, ArgList(argv[..i]), ArgAssignment(arg).value);
      }
      assert argv[..|argv|] == argv;
    }

    /** The options of the remote environment, in their fixed order. */
    method ParseEnv(env: Env)
      requires Valid()
      modifies this, profilerPlugin, dumpDir, threadInterval
      ensures View() == Fold(old(View()), EnvList(Getter(env), ENV_ORDER))
    {
      ghost var c := View();
      for i := 0 to |ENV_ORDER|
        invariant View() == Fold(c, EnvList(Getter(env), ENV_ORDER[..i]))
      {
        ghost var l := EnvList(Getter(env), ENV_ORDER[..i]);
        ParseEnvOption(env, ENV_ORDER[i]);
        EnvListSnoc(Getter(env), ENV_ORDER, i);
        FoldConcat(c, l, EnvList(Getter(env), [ENV_ORDER[i]]));
      }
      assert ENV_ORDER[..|ENV_ORDER|] == ENV_ORDER;
    }

    /** `snccliprecon_config_parse_args`. */
    method ParseArgs(argv: seq<Option<CString>>, env: Env, remote: bool, defaultPlugin: CString)
      requires Valid() && 0 < |defaultPlugin| < PATH_MAX
      modifies this, profilerPlugin, dumpDir, threadInterval
      ensures View() == Fold(Defaults(defaultPlugin), Layers(argv, env, remote))
    {
      Reset(defaultPlugin);
      ParseArgList(argv);
      if remote {
        ParseEnv(env);
        FoldConcat(Defaults(defaultPlugin), ArgList(argv), EnvList(Getter(env), ENV_ORDER));
      } else {
        FoldConcat(Defaults(defaultPlugin), ArgList(argv), []);
      }
    }
  }

  const DEFAULT_DUMP_DIR: CString := "/opt/soperator-outputs/nccl_profiles"
  const DEFAULT_INTERVAL: CString := "1000000"

  function Defaults(plugin: CString): Settings {
    Settings(true, plugin, false, DEFAULT_DUMP_DIR, true, DEFAULT_INTERVAL)
  }

  lemma {:induction false} FoldOne(c: Settings, l: seq<Assignment>, a: Assignment)
    ensures Fold(c, l + [a]) == Step(Fold(c, l), a)
  {
    assert (l + [a])[..|l|] == l;
  }

  lemma EnvListSnoc(get: Opt -> Option<CString>, order: seq<Opt>, i: nat)
    requires i < |order|
    ensures EnvList(get, order[..i + 1]) == EnvList(get, order[..i]) + EnvList(get, [order[i]])
  {
    assert order[..i + 1][..i] == order[..i];
    assert [order[i]][..0] == [];
  }

  /** After parsing, whatever was given, the interval field is usable. */
  lemma {:induction false} IntervalAlwaysUsable(plugin: CString, l: seq<Assignment>)
    ensures IntervalInv(Fold(Defaults(plugin), l))
  {
    DefaultInterval();
    IntervalKept(Defaults(plugin), l);
  }

  lemma DefaultInterval()
    ensures IsUint64(DEFAULT_INTERVAL)
  {
    var d := DEFAULT_INTERVAL;
    assert d[..6] == "100000" && d[..6][..5] == "10000" && "10000"[..4] == "1000";
    assert "1000"[..3] == "100" && "100"[..2] == "10" && "10"[..1] == "1" && "1"[..0] == "";
    assert Value("10") == 10 && Value("1000") == 1000 && Value("100000") == 100000;
  }
}
