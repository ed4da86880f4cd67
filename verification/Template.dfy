/** The dump directory template: `%j`, `%s` and `%J` placeholders, the renderer over a
    bounded buffer, and the two expansion stages. */
module Template {
  import opened CStrings
  import opened Decimal

  /** Rendering inputs: the ids as printed, and whether step placeholders are expanded. */
  datatype Ids = Ids(job: CString, step: CString, full: bool)

  predicate Marks(t: string, c: char) {
    |t| >= 2 && t[0] == '%' && t[1] == c
  }

  /** The meaning of a template. */
  function Expand(t: string, r: Ids): string
    decreases |t|
  {
    if t == "" then ""
    else if Marks(t, 'j') then r.job + Expand(t[2..], r)
    else if r.full && Marks(t, 's') then r.step + Expand(t[2..], r)
    else if r.full && Marks(t, 'J') then r.job + "." + r.step + Expand(t[2..], r)
    else [t[0]] + Expand(t[1..], r)
  }

  /** The strings the renderer appends one after another; each is written whole or not. */
  function Pieces(t: CString, r: Ids): seq<CString>
    decreases |t|
  {
    if t == "" then []
    else if Marks(t, 'j') then [r.job] + Pieces(t[2..], r)
    else if r.full && Marks(t, 's') then [r.step] + Pieces(t[2..], r)
    else if r.full && Marks(t, 'J') then [r.job, ".", r.step] + Pieces(t[2..], r)
    else [[t[0]]] + Pieces(t[1..], r)
  }

  /** What each placeholder stands for; `%` before anything else stands for itself. */
  lemma {:induction false} PlaceholdersMean(u: string, c: char, r: Ids)
    ensures Expand("", r) == "" && Expand("%", r) == "%"
    ensures Expand("%j" + u, r) == r.job + Expand(u, r)
    ensures Expand("%s" + u, r) == if r.full then r.step + Expand(u, r) else "%s" + Expand(u, r)
    ensures Expand("%J" + u, r) == if r.full then r.job + "." + r.step + Expand(u, r) else "%J" + Expand(u, r)
    ensures c != 'j' && c != 's' && c != 'J' ==> Expand("%" + [c] + u, r) == "%" + Expand([c] + u, r)
    ensures c != '%' ==> Expand([c] + u, r) == [c] + Expand(u, r)
  {
    assert ("%j" + u)[2..] == u;
    StepPlaceholders(u, r);
    assert ("%" + [c] + u)[1..] == [c] + u;
    assert ([c] + u)[1..] == u;
    assert "%"[1..] == "";
  }

  lemma {:induction false} StepPlaceholders(u: string, r: Ids)
    ensures Expand("%s" + u, r) == if r.full then r.step + Expand(u, r) else "%s" + Expand(u, r)
    ensures Expand("%J" + u, r) == if r.full then r.job + "." + r.step + Expand(u, r) else "%J" + Expand(u, r)
  {
    assert ("%s" + u)[2..] == u && ("%J" + u)[2..] == u;
    assert ("%s" + u)[1..] == "s" + u && ("%J" + u)[1..] == "J" + u;
    assert ("s" + u)[1..] == u && ("J" + u)[1..] == u;
  }

  function Flatten(ps: seq<CString>): CString {
    if ps == [] then "" else Flatten(ps[..|ps| - 1]) + ps[|ps| - 1]
  }

  lemma {:induction false} FlattenConcat(a: seq<CString>, b: seq<CString>)
    ensures Flatten(a + b) == Flatten(a) + Flatten(b)
    decreases |b|
  {
    if b == [] {
      assert a + b == a;
    } else {
      var front := b[..|b| - 1];
      FlattenConcat(a, front);
      var last := b[|b| - 1];
      assert (a + b)[..|a + b| - 1] == a + front && (a + b)[|a + b| - 1] == last;
      assert Flatten(a) + (Flatten(front) + last) == (Flatten(a) + Flatten(front)) + last;
    }
  }

  lemma NextPiece(ps: seq<CString>, k: nat)
    requires k < |ps|
    ensures Flatten(ps[..k + 1]) == Flatten(ps[..k]) + ps[k]
  {
    assert ps[..k + 1][..k] == ps[..k];
  }

  lemma FlattenTriple(x: CString, y: CString, z: CString)
    ensures Flatten([x]) == x && Flatten([x, y, z]) == x + y + z
  {
    NextPiece([x, y, z], 0);
    NextPiece([x, y, z], 1);
    NextPiece([x, y, z], 2);
    assert [x, y, z][..1] == [x];
    assert [x, y, z][..3] == [x, y, z];
  }

  /** The pieces spell the meaning. */
  lemma {:induction false} PiecesSpellExpand(t: CString, r: Ids)
    ensures Flatten(Pieces(t, r)) == Expand(t, r)
    decreases |t|
  {
    if t == "" {
    } else if Marks(t, 'j') {
      PieceStep([r.job], t[2..], r);
    } else if r.full && Marks(t, 's') {
      PieceStep([r.step], t[2..], r);
    } else if r.full && Marks(t, 'J') {
      PieceStep([r.job, ".", r.step], t[2..], r);
      FlattenTriple(r.job, ".", r.step);
    } else {
      PieceStep([[t[0]]], t[1..], r);
    }
  }

  lemma {:induction false} PieceStep(head: seq<CString>, rest: CString, r: Ids)
    requires |head| > 0
    ensures Flatten(head + Pieces(rest, r)) == Flatten(head) + Expand(rest, r)
    ensures |head| == 1 ==> Flatten(head) == head[0]
    decreases |rest| + 1, 0
  {
    PiecesSpellExpand(rest, r);
    FlattenConcat(head, Pieces(rest, r));
    if |head| == 1 {
      FlattenTriple(head[0], "", "");
      assert head == [head[0]];
    }
  }

  // The renderer

  /** The buffer holds the first `kept` pieces and there was no room for the next one. */
  ghost predicate Rendered(buf: seq<char>, ps: seq<CString>, kept: nat) {
    && kept <= |ps|
    && Holds(buf, Flatten(ps[..kept]))
    && (kept < |ps| ==> |Flatten(ps[..kept + 1])| >= |buf|)
  }

  method AppendString(dst: array<char>, offset: nat, value: CString) returns (ok: bool, next: nat)
    requires offset < dst.Length && dst[offset] == '\0'
    modifies dst
    ensures ok <==> offset + |value| < dst.Length
    ensures next == if ok then offset + |value| else offset
    ensures dst[..next] == old(dst[..offset]) + (if ok then value else "")
    ensures dst[next] == '\0'
    ensures forall j :: next < j < dst.Length ==> dst[j] == old(dst[j])
  {
    if offset + |value| >= dst.Length {
      return false, offset;
    }
    forall j | 0 <= j < |value| {
      dst[offset + j] := value[j];
    }
    next := offset + |value|;
    dst[next] := '\0';
    ok := true;
  }

  /** The first `offset` characters are the first `kept` pieces, and a terminator follows. */
  ghost predicate Filled(buf: seq<char>, offset: nat, ps: seq<CString>, kept: nat) {
    && kept <= |ps| && offset < |buf|
    && buf[..offset] == Flatten(ps[..kept]) && buf[offset] == '\0'
  }

  /** One append of the renderer, with the piece it stands for. */
  method AppendPiece(dst: array<char>, offset: nat, value: CString, ghost ps: seq<CString>, ghost kept: nat)
    returns (ok: bool, next: nat, ghost kept': nat)
    requires Filled(dst[..], offset, ps, kept) && kept < |ps| && ps[kept] == value
    modifies dst
    ensures Filled(dst[..], next, ps, kept') && kept' == (if ok then kept + 1 else kept)
    ensures !ok ==> |Flatten(ps[..kept + 1])| >= dst.Length
  {
    NextPiece(ps, kept);
    assert dst[..][..offset] == dst[..offset];
    ok, next := AppendString(dst, offset, value);
    kept' := if ok then kept + 1 else kept;
    assert dst[..][..next] == dst[..next];
  }

  /** A character that starts no placeholder is copied. */
  method AppendChar(dst: array<char>, offset: nat, c: char, ghost ps: seq<CString>, ghost kept: nat)
    returns (ok: bool, next: nat, ghost kept': nat)
    requires Filled(dst[..], offset, ps, kept) && kept < |ps| && ps[kept] == [c]
    modifies dst
    ensures Filled(dst[..], next, ps, kept') && kept' == (if ok then kept + 1 else kept)
    ensures !ok ==> |Flatten(ps[..kept + 1])| >= dst.Length
  {
    NextPiece(ps, kept);
    if offset + 1 >= dst.Length {
      return false, offset, kept;
    }
    ghost var before := dst[..];
    dst[offset] := c;
    next := offset + 1;
    dst[next] := '\0';
    assert dst[..][..next] == before[..offset] + [c];
    ok, kept' := true, kept + 1;
  }

  /** The three appends for `%J`; a failure can leave the job id, or the job id and the dot. */
  method AppendJobStep(r: Ids, output: array<char>, offset: nat, ghost ps: seq<CString>, ghost kept: nat)
    returns (ok: bool, next: nat, ghost kept': nat)
    requires Filled(output[..], offset, ps, kept)
    requires kept + 3 <= |ps| && ps[kept] == r.job && ps[kept + 1] == "." && ps[kept + 2] == r.step
    modifies output
    ensures Filled(output[..], next, ps, kept')
    ensures ok ==> kept' == kept + 3
    ensures !ok ==> kept <= kept' < kept + 3 && |Flatten(ps[..kept' + 1])| >= output.Length
  {
    ok, next, kept' := AppendPiece(output, offset, r.job, ps, kept);
    if !ok { return; }
    ok, next, kept' := AppendPiece(output, next, ".", ps, kept');
    if !ok { return; }
    ok, next, kept' := AppendPiece(output, next, r.step, ps, kept');
  }

  /** `render_dump_dir`. */
  method RenderDumpDir(t: CString, r: Ids, output: array<char>) returns (ok: bool, ghost kept: nat)
    modifies output
    ensures output.Length == 0 ==> !ok
    ensures output.Length > 0 ==> Rendered(output[..], Pieces(t, r), kept) && (ok <==> kept == |Pieces(t, r)|)
  {
    kept := 0;
    if output.Length == 0 {
      return false, 0;
    }
    ghost var ps := Pieces(t, r);
    var offset: nat := 0;
    output[0] := '\0';
    var i: nat := 0;
    ok := true;
    while At(t, i) != '\0'
      invariant i <= |t| && ok
      invariant Filled(output[..], offset, ps, kept) && ps[kept..] == Pieces(t[i..], r)
      decreases |t| - i
    {
      Lookahead(t, i);
      PiecesAhead(ps, kept, t[i..], r);
      if At(t, i) == '%' && At(t, i + 1) == 'j' {
        ok, offset, kept := AppendPiece(output, offset, r.job, ps, kept);
        if !ok { return; }
        i := i + 2;
        continue;
      }
      if r.full && At(t, i) == '%' && At(t, i + 1) == 's' {
        ok, offset, kept := AppendPiece(output, offset, r.step, ps, kept);
        if !ok { return; }
        i := i + 2;
        continue;
      }
      if r.full && At(t, i) == '%' && At(t, i + 1) == 'J' {
        ok, offset, kept := AppendJobStep(r, output, offset, ps, kept);
        if !ok { return; }
        i := i + 2;
        continue;
      }
      ok, offset, kept := AppendChar(output, offset, At(t, i), ps, kept);
      if !ok { return; }
      i := i + 1;
    }
    assert t[i..] == "" && ps[kept..] == [];
  }

  lemma Lookahead(t: CString, i: nat)
    requires i < |t|
    ensures forall c :: c != '\0' ==> (Marks(t[i..], c) <==> At(t, i) == '%' && At(t, i + 1) == c)
    ensures t[i..][1..] == t[i + 1..] && t[i..][0] == t[i]
    ensures |t[i..]| >= 2 ==> t[i..][2..] == t[i + 2..]
  {
  }

  /** The next pieces and what remains after them. */
  lemma {:induction false} PiecesAhead(ps: seq<CString>, kept: nat, u: CString, r: Ids)
    requires kept <= |ps| && ps[kept..] == Pieces(u, r) && u != ""
    ensures kept < |ps|
    ensures Marks(u, 'j') ==> ps[kept] == r.job && ps[kept + 1..] == Pieces(u[2..], r)
    ensures r.full && Marks(u, 's') ==> ps[kept] == r.step && ps[kept + 1..] == Pieces(u[2..], r)
    ensures r.full && Marks(u, 'J') ==>
              && kept + 3 <= |ps| && ps[kept] == r.job && ps[kept + 1] == "." && ps[kept + 2] == r.step
              && ps[kept + 3..] == Pieces(u[2..], r)
    ensures !Marks(u, 'j') && !(r.full && (Marks(u, 's') || Marks(u, 'J'))) ==>
              ps[kept] == [u[0]] && ps[kept + 1..] == Pieces(u[1..], r)
  {
    var rest := Pieces(u, r);
    if r.full && !Marks(u, 'j') && !Marks(u, 's') && Marks(u, 'J') {
      assert rest == [r.job, ".", r.step] + Pieces(u[2..], r);
      SplitAhead(ps, kept, [r.job, ".", r.step], Pieces(u[2..], r));
    } else if Marks(u, 'j') {
      SplitAhead(ps, kept, [r.job], Pieces(u[2..], r));
    } else if r.full && Marks(u, 's') {
      SplitAhead(ps, kept, [r.step], Pieces(u[2..], r));
    } else {
      SplitAhead(ps, kept, [[u[0]]], Pieces(u[1..], r));
    }
  }

  lemma SplitAhead(ps: seq<CString>, k: nat, head: seq<CString>, tail: seq<CString>)
    requires k <= |ps| && ps[k..] == head + tail
    ensures k + |head| <= |ps| && ps[k + |head|..] == tail
    ensures forall i :: 0 <= i < |head| ==> ps[k + i] == head[i]
  {
    assert ps[k..][|head|..] == tail;
    forall i | 0 <= i < |head|
      ensures ps[k + i] == head[i]
    {
      assert ps[k..][i] == head[i];
    }
  }

  /** What a rendering into a buffer of any positive size leaves behind, in terms of the
      meaning alone. */
  lemma {:induction false} RenderedMeaning(buf: seq<char>, t: CString, r: Ids, kept: nat)
    requires |buf| > 0 && Rendered(buf, Pieces(t, r), kept)
    ensures kept == |Pieces(t, r)| <==> |Expand(t, r)| < |buf|
    ensures kept == |Pieces(t, r)| ==> Read(buf) == Expand(t, r)
    ensures Read(buf) <= Expand(t, r) && |Read(buf)| < |buf|
  {
    var ps := Pieces(t, r);
    PiecesSpellExpand(t, r);
    ReadHolds(buf, Flatten(ps[..kept]));
    assert ps[..kept] + ps[kept..] == ps;
    FlattenConcat(ps[..kept], ps[kept..]);
    if kept < |ps| {
      assert ps[..kept + 1] + ps[kept + 1..] == ps;
      FlattenConcat(ps[..kept + 1], ps[kept + 1..]);
    } else {
      assert ps[..kept] == ps;
    }
  }

  /** The two entry points, as the hooks use them: the text or a failure. */
  method RenderInto(t: CString, r: Ids, output: array<char>) returns (ok: bool)
    requires output.Length > 0
    modifies output
    ensures ok <==> |Expand(t, r)| < output.Length
    ensures ok ==> Read(output[..]) == Expand(t, r)
    ensures Read(output[..]) <= Expand(t, r) && |Read(output[..])| < output.Length
  {
    ghost var kept;
    ok, kept := RenderDumpDir(t, r, output);
    RenderedMeaning(output[..], t, r, kept);
  }

  // The two stages

  predicate IsId(s: string) {
    s != "" && AllDigits(s)
  }

  /** No placeholder starts anywhere in the text. */
  predicate NoMark(t: string, c: char) {
    forall i :: 0 <= i < |t| - 1 && t[i] == '%' ==> t[i + 1] != c
  }

  predicate Resolved(t: string) {
    NoMark(t, 'j') && NoMark(t, 's') && NoMark(t, 'J')
  }

  /** The step placeholders of a text in order, found by looking at every position. */
  function StepMarks(t: string): string {
    if |t| < 2 then ""
    else (if t[0] == '%' && (t[1] == 's' || t[1] == 'J') then [t[1]] else "") + StepMarks(t[1..])
  }

  lemma {:induction false} StepMarksMean(u: string, c: char)
    ensures StepMarks("") == ""
    ensures StepMarks("%s" + u) == "s" + StepMarks(u) && StepMarks("%J" + u) == "J" + StepMarks(u)
    ensures c != 's' && c != 'J' ==> StepMarks("%" + [c] + u) == StepMarks([c] + u)
    ensures c != '%' ==> StepMarks([c] + u) == StepMarks(u)
  {
    assert ("%s" + u)[1..] == "s" + u && ("%J" + u)[1..] == "J" + u;
    assert ("s" + u)[1..] == u && ("J" + u)[1..] == u;
    assert ("%" + [c] + u)[1..] == [c] + u && ([c] + u)[1..] == u;
  }

  /** Text without `%` passes through a rendering and hides nothing after it. */
  lemma {:induction false} ExpandPlain(d: string, u: string, r: Ids)
    requires '%' !in d
    ensures Expand(d + u, r) == d + Expand(u, r)
    ensures StepMarks(d + u) == StepMarks(u)
    decreases |d|
  {
    if d == "" {
      assert d + u == u;
    } else {
      assert (d + u)[1..] == d[1..] + u;
      ExpandPlain(d[1..], u, r);
    }
  }

  /** The documented two passes, `%j` first and the rest on the worker, give what one
      step-level pass over the template gives. */
  lemma {:induction false} Confluent(t: string, job: CString, step: CString)
    requires IsId(job) && IsId(step)
    ensures Expand(Expand(t, Ids(job, "", false)), Ids(job, step, true)) == Expand(t, Ids(job, step, true))
    decreases |t|
  {
    var r1, r2 := Ids(job, "", false), Ids(job, step, true);
    if t == "" {
    } else if Marks(t, 'j') {
      Confluent(t[2..], job, step);
      ExpandPlain(job, Expand(t[2..], r1), r2);
    } else {
      var rest := Expand(t[1..], r1);
      Confluent(t[1..], job, step);
      JobHead(t[1..], job);
      assert Expand(t, r1) == [t[0]] + rest;
      if Marks(t, 's') || Marks(t, 'J') {
        Confluent(t[2..], job, step);
        assert t[1..][1..] == t[2..];
        assert rest == [t[1]] + Expand(t[2..], r1);
        assert ([t[0]] + rest)[2..] == Expand(t[2..], r1);
      } else {
        assert ([t[0]] + rest)[1..] == rest;
        assert !Marks([t[0]] + rest, 'j') && !Marks([t[0]] + rest, 's') && !Marks([t[0]] + rest, 'J');
      }
    }
  }

  lemma {:induction false} JobHead(t: string, job: CString)
    requires IsId(job)
    ensures var e := Expand(t, Ids(job, "", false));
            && (t == "" <==> e == "")
            && (t != "" ==> e[0] == t[0] || (IsDigit(e[0]) && t[0] == '%'))
  {
  }

  /** The stage order does not matter only because ids are never empty. */
  lemma ConfluentIffNonEmpty(job: CString, step: CString)
    requires AllDigits(job) && IsId(step)
    ensures job != "" <==>
            forall t :: Expand(Expand(t, Ids(job, "", false)), Ids(job, step, true)) == Expand(t, Ids(job, step, true))
  {
    if job != "" {
      forall t {
        Confluent(t, job, step);
      }
    } else {
      var r1, r2 := Ids("", "", false), Ids("", step, true);
      var t := "%%js";
      assert t[1..] == "%js" && t[1..][2..] == "s" && "s"[1..] == "";
      assert Expand("s", r1) == "s" && Expand("%js", r1) == "s";
      assert Expand(t, r1) == "%s";
      assert "%s"[2..] == "" && Expand("%s", r2) == step;
      assert Expand("s", r2) == "s" && Expand("%js", r2) == "s";
      assert Expand(t, r2) == "%s";
      assert step[0] != '%';
      assert Expand(Expand(t, r1), r2) != Expand(t, r2);
    }
  }

  // Different steps

  /** A step placeholder makes a longer step id give a longer text, and never a shorter one. */
  lemma {:induction false} LongerStep(t: string, job: CString, a: CString, b: CString)
    requires |a| < |b|
    ensures |Expand(t, Ids(job, a, true))| <= |Expand(t, Ids(job, b, true))|
    ensures StepMarks(t) != "" ==> |Expand(t, Ids(job, a, true))| < |Expand(t, Ids(job, b, true))|
    decreases |t|
  {
    if t == "" {
    } else if Marks(t, 'j') || Marks(t, 's') || Marks(t, 'J') {
      LongerStep(t[2..], job, a, b);
      SkipMark(t);
    } else {
      LongerStep(t[1..], job, a, b);
    }
  }

  lemma {:induction false} SkipMark(t: string)
    requires Marks(t, 'j') || Marks(t, 's') || Marks(t, 'J')
    ensures StepMarks(t) == (if t[1] == 'j' then "" else [t[1]]) + StepMarks(t[2..])
  {
    assert t[1..][1..] == t[2..];
  }

  /** With step ids of one length the texts can be read off side by side. */
  lemma {:induction false} SameLengthStep(t: string, job: CString, a: CString, b: CString)
    requires |a| == |b| && Expand(t, Ids(job, a, true)) == Expand(t, Ids(job, b, true)) && StepMarks(t) != ""
    ensures a == b
    decreases |t|
  {
    var x, y := Ids(job, a, true), Ids(job, b, true);
    if Marks(t, 'j') {
      SkipMark(t);
      SameTail(job, Expand(t[2..], x), job, Expand(t[2..], y));
      SameLengthStep(t[2..], job, a, b);
    } else if Marks(t, 's') {
      SameTail(a, Expand(t[2..], x), b, Expand(t[2..], y));
    } else if Marks(t, 'J') {
      SameTail(job + "." + a, Expand(t[2..], x), job + "." + b, Expand(t[2..], y));
      SameTail(job + ".", a, job + ".", b);
    } else {
      SameTail([t[0]], Expand(t[1..], x), [t[0]], Expand(t[1..], y));
      SameLengthStep(t[1..], job, a, b);
    }
  }

  lemma SameTail(a: string, u: string, b: string, v: string)
    requires |a| == |b| && a + u == b + v
    ensures a == b && u == v
  {
    assert (a + u)[..|a|] == a && (b + v)[..|b|] == b;
    assert (a + u)[|a|..] == u && (b + v)[|b|..] == v;
  }

  /** Different steps of a job get different texts exactly if the template has a step
      placeholder. */
  lemma {:induction false} StepsDifferIff(t: string, job: CString, a: CString, b: CString)
    requires a != b
    ensures Expand(t, Ids(job, a, true)) != Expand(t, Ids(job, b, true)) <==> StepMarks(t) != ""
  {
    if StepMarks(t) == "" {
      StepUnused(t, job, a, b);
    } else if |a| < |b| {
      LongerStep(t, job, a, b);
    } else if |b| < |a| {
      LongerStep(t, job, b, a);
    } else if Expand(t, Ids(job, a, true)) == Expand(t, Ids(job, b, true)) {
      SameLengthStep(t, job, a, b);
    }
  }

  lemma {:induction false} StepUnused(t: string, job: CString, a: CString, b: CString)
    requires StepMarks(t) == ""
    ensures Expand(t, Ids(job, a, true)) == Expand(t, Ids(job, b, true))
    decreases |t|
  {
    if t == "" {
    } else if Marks(t, 'j') {
      SkipMark(t);
      StepUnused(t[2..], job, a, b);
    } else {
      StepUnused(t[1..], job, a, b);
    }
  }

  lemma NoMarkCons(c: char, u: string, m: char)
    requires NoMark(u, m) && !(c == '%' && u != "" && u[0] == m)
    ensures NoMark([c] + u, m)
  {
    var t := [c] + u;
    forall i | 0 <= i < |t| - 1 && t[i] == '%'
      ensures t[i + 1] != m
    {
      if i > 0 {
        assert u[i - 1] == '%';
      }
    }
  }

  lemma {:induction false} NoMarkPlain(d: string, u: string, m: char)
    requires '%' !in d && NoMark(u, m)
    ensures NoMark(d + u, m)
    decreases |d|
  {
    if d == "" {
      assert d + u == u;
    } else {
      NoMarkPlain(d[1..], u, m);
      NoMarkCons(d[0], d[1..] + u, m);
      assert d + u == [d[0]] + (d[1..] + u);
    }
  }

  /** Step rendering resolves every placeholder, also across substitution boundaries;
      job rendering resolves `%j`. */
  lemma {:induction false} NothingLeft(t: string, r: Ids, m: char)
    requires IsId(r.job) && (r.full ==> IsId(r.step))
    requires m == 'j' || (r.full && (m == 's' || m == 'J'))
    ensures NoMark(Expand(t, r), m)
    decreases |t|
  {
    if t == "" {
    } else if Marks(t, 'j') {
      NothingLeft(t[2..], r, m);
      NoMarkPlain(r.job, Expand(t[2..], r), m);
    } else if r.full && Marks(t, 's') {
      NothingLeft(t[2..], r, m);
      NoMarkPlain(r.step, Expand(t[2..], r), m);
    } else if r.full && Marks(t, 'J') {
      NothingLeft(t[2..], r, m);
      NoMarkPlain(r.job + "." + r.step, Expand(t[2..], r), m);
    } else {
      NothingLeft(t[1..], r, m);
      NoMarkCons(t[0], Expand(t[1..], r), m);
    }
  }

  /** Job rendering keeps the step placeholders of the template, in order. */
  lemma {:induction false} StepMarksKept(t: string, job: CString)
    requires IsId(job)
    ensures StepMarks(Expand(t, Ids(job, "", false))) == StepMarks(t)
    decreases |t|
  {
    var r := Ids(job, "", false);
    if t == "" {
    } else if Marks(t, 'j') {
      StepMarksKept(t[2..], job);
      ExpandPlain(job, Expand(t[2..], r), r);
      assert t[1..][1..] == t[2..];
      assert StepMarks(t[1..]) == StepMarks(t[2..]);
    } else {
      StepMarksKept(t[1..], job);
      JobHead(t[1..], job);
      MarksCons(t[0], t[1..], Expand(t[1..], r));
      assert t == [t[0]] + t[1..];
    }
  }

  /** Step placeholders depend on the next character only. */
  lemma {:induction false} MarksCons(c: char, a: string, b: string)
    requires StepMarks(a) == StepMarks(b) && (a == "" <==> b == "")
    requires a != "" ==> b[0] == a[0] || (IsDigit(b[0]) && a[0] == '%')
    ensures StepMarks([c] + b) == StepMarks([c] + a)
  {
    assert ([c] + a)[1..] == a && ([c] + b)[1..] == b;
  }

  /** A text without placeholders renders to itself. */
  lemma {:induction false} ResolvedIsFixed(t: string, r: Ids)
    requires Resolved(t)
    ensures Expand(t, r) == t
    decreases |t|
  {
    if t != "" {
      assert forall i :: 0 <= i < |t[1..]| ==> t[1..][i] == t[i + 1];
      ResolvedIsFixed(t[1..], r);
    }
  }

  /** Step rendering is final: rendering its result again, with any ids, changes nothing. */
  lemma {:induction false} StepRenderingFinal(t: string, r: Ids, again: Ids)
    requires r.full && IsId(r.job) && IsId(r.step)
    ensures Resolved(Expand(t, r)) && Expand(Expand(t, r), again) == Expand(t, r)
  {
    NothingLeft(t, r, 'j');
    NothingLeft(t, r, 's');
    NothingLeft(t, r, 'J');
    ResolvedIsFixed(Expand(t, r), again);
  }
}
