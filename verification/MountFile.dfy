/** The text of the Enroot mount file, and how fstab reads it. */
module MountFile {

  const DIR_FIELDS: string := " none x-create=dir,bind,rw 0 0"
  const FILE_FIELDS: string := " none x-create=file,bind,ro 0 0"

  /** What `create_mount_file_locked` prints. */
  function Text(plugin: string, dir: string): string {
    plugin + " " + plugin + FILE_FIELDS + "\n" + (dir + " " + dir + DIR_FIELDS + "\n")
  }

  // Lines

  /** The lines of a file, and what follows the last line end. */
  function Lines(s: string): seq<string> {
    if s == "" then [""]
    else if s[0] == '\n' then [""] + Lines(s[1..])
    else [[s[0]] + Lines(s[1..])[0]] + Lines(s[1..])[1..]
  }

  lemma {:induction false} FirstLine(l: string, rest: string)
    requires '\n' !in l
    ensures Lines(l + "\n" + rest) == [l] + Lines(rest)
    decreases |l|
  {
    var s := l + "\n" + rest;
    if l == "" {
      assert s[1..] == rest;
    } else {
      assert s[1..] == l[1..] + "\n" + rest;
      FirstLine(l[1..], rest);
      assert s[0] == l[0] && [l[0]] + l[1..] == l;
    }
  }

  // Fields

  predicate Blank(c: char) {
    c == ' ' || c == '\t'
  }

  /** The fields of a line: what stands between blanks. */
  function Fields(s: string): seq<string>
    decreases |s|
  {
    if s == "" then []
    else if Blank(s[0]) then Fields(s[1..])
    else [s[..Run(s)]] + Fields(s[Run(s)..])
  }

  /** How far a line goes on without a blank. */
  function Run(s: string): (n: nat)
    ensures n <= |s| && (s != "" && !Blank(s[0]) ==> n > 0)
  {
    if s == "" || Blank(s[0]) then 0 else 1 + Run(s[1..])
  }

  lemma {:induction false} RunOf(w: string, rest: string)
    requires forall i :: 0 <= i < |w| ==> !Blank(w[i])
    requires rest == "" || Blank(rest[0])
    ensures Run(w + rest) == |w|
    decreases |w|
  {
    if w == "" {
      assert w + rest == rest;
    } else {
      assert (w + rest)[1..] == w[1..] + rest;
      RunOf(w[1..], rest);
    }
  }

  /** A field, and what comes behind the next blank. */
  lemma {:induction false} NextField(w: string, rest: string)
    requires w != "" && forall i :: 0 <= i < |w| ==> !Blank(w[i])
    ensures Fields(w) == [w] && Fields(w + " " + rest) == [w] + Fields(rest)
  {
    RunOf(w, "");
    assert w + "" == w && w[..|w|] == w && w[|w|..] == "";
    var s := w + " " + rest;
    RunOf(w, " " + rest);
    assert s == w + (" " + rest) && s[..|w|] == w && s[|w|..] == " " + rest;
    assert (" " + rest)[1..] == rest;
  }

  /** A path that fstab can read. */
  predicate Readable(path: string) {
    path != "" && forall i :: 0 <= i < |path| ==> path[i] != ' ' && path[i] != '\t' && path[i] != '\n'
  }

  lemma {:induction false} LastFields(options: string)
    requires Readable(options)
    ensures Fields("none" + " " + (options + " " + ("0" + " " + "0"))) == ["none", options, "0", "0"]
  {
    NextField("0", "0");
    NextField(options, "0" + " " + "0");
    NextField("none", options + " " + ("0" + " " + "0"));
  }

  lemma {:induction false} SixFields(path: string, options: string)
    requires Readable(path) && Readable(options)
    ensures Fields(path + " " + path + " none " + options + " 0 0") == [path, path, "none", options, "0", "0"]
  {
    var rest := "none" + " " + (options + " " + ("0" + " " + "0"));
    LastFields(options);
    TwoMore(path, rest, ["none", options, "0", "0"]);
    InOneString(path, options);
  }

  lemma {:induction false} TwoMore(path: string, rest: string, fields: seq<string>)
    requires Readable(path) && Fields(rest) == fields
    ensures Fields(path + " " + (path + " " + rest)) == [path, path] + fields
  {
    NextField(path, rest);
    NextField(path, path + " " + rest);
  }

  lemma InOneString(path: string, options: string)
    ensures path + " " + path + " none " + options + " 0 0" ==
              path + " " + (path + " " + ("none" + " " + (options + " " + ("0" + " " + "0"))))
  {
    assert " none " == " " + "none" + " " && " 0 0" == " " + ("0" + " " + "0");
  }

  // What the file says

  /** Two lines and nothing else: the library's file is bound read-only, the dump
      directory read-write, each at its own path and created if it is not there. */
  predicate Binds(file: string, plugin: string, dir: string) {
    Readable(plugin) && Readable(dir) ==>
      && |Lines(file)| == 3 && Lines(file)[2] == ""
      && Fields(Lines(file)[0]) == [plugin, plugin, "none", "x-create=file,bind,ro", "0", "0"]
      && Fields(Lines(file)[1]) == [dir, dir, "none", "x-create=dir,bind,rw", "0", "0"]
  }

  lemma TextBinds(plugin: string, dir: string)
    ensures Binds(Text(plugin, dir), plugin, dir)
  {
    if Readable(plugin) && Readable(dir) {
      TextLines(plugin, dir);
      SixFields(plugin, "x-create=file,bind,ro");
      SixFields(dir, "x-create=dir,bind,rw");
      FileLine(plugin);
      DirLine(dir);
    }
  }

  lemma FileLine(plugin: string)
    ensures plugin + " " + plugin + FILE_FIELDS ==
              plugin + " " + plugin + " none " + "x-create=file,bind,ro" + " 0 0"
  {
    assert FILE_FIELDS == " none " + "x-create=file,bind,ro" + " 0 0";
  }

  lemma DirLine(dir: string)
    ensures dir + " " + dir + DIR_FIELDS == dir + " " + dir + " none " + "x-create=dir,bind,rw" + " 0 0"
  {
    assert DIR_FIELDS == " none " + "x-create=dir,bind,rw" + " 0 0";
  }

  lemma {:induction false} TextLines(plugin: string, dir: string)
    requires '\n' !in plugin && '\n' !in dir
    ensures Lines(Text(plugin, dir)) == [plugin + " " + plugin + FILE_FIELDS, dir + " " + dir + DIR_FIELDS, ""]
  {
    var first, second := plugin + " " + plugin + FILE_FIELDS, dir + " " + dir + DIR_FIELDS;
    NoLineEnd();
    assert second + "\n" == second + "\n" + "";
    FirstLine(first, second + "\n");
    FirstLine(second, "");
  }

  lemma NoLineEnd()
    ensures '\n' !in FILE_FIELDS && '\n' !in DIR_FIELDS
  {
  }
}
