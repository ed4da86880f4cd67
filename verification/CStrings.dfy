/** NUL-terminated strings and the fixed buffers that hold them. */
module CStrings {

  /** The size of every path buffer. */
  const PATH_MAX: nat := 4096

  /** The characters of a C string, without the terminator. */
  type CString = s: string | '\0' !in s

  /** Reading a C string at index i, the terminator included. */
  function At(s: CString, i: nat): char
    requires i <= |s|
  {
    if i == |s| then '\0' else s[i]
  }

  predicate Holds(buf: seq<char>, s: string) {
    && '\0' !in s && |s| < |buf|
    && buf[..|s|] == s && buf[|s|] == '\0'
  }

  lemma HoldsAt(buf: seq<char>, s: CString, i: nat)
    requires Holds(buf, s)
    ensures i <= |s| ==> buf[i] == At(s, i)
  {
    if i < |s| {
      assert buf[..|s|][i] == s[i];
    }
  }

  /** What a reader of the buffer sees: everything before the first NUL. */
  function Read(buf: seq<char>): (s: CString)
  {
    if buf == [] || buf[0] == '\0' then "" else [buf[0]] + Read(buf[1..])
  }

  lemma {:induction false} ReadHolds(buf: seq<char>, s: string)
    requires Holds(buf, s)
    ensures Read(buf) == s
  {
    if s == "" {
    } else {
      assert buf[0] == s[0];
      assert buf[1..][..|s| - 1] == s[1..];
      ReadHolds(buf[1..], s[1..]);
    }
  }

  /** The first n characters, or all of them. */
  function Cut(s: CString, n: nat): (r: CString)
    ensures r <= s && |r| == if |s| <= n then |s| else n
  {
    if |s| <= n then s else s[..n]
  }

  /** `snprintf(dst, size, "%s", s)`: writes what fits, always terminates a non-empty
      buffer, and returns the full length. */
  method Snprintf(dst: array<char>, s: CString) returns (written: nat)
    modifies dst
    ensures written == |s|
    ensures dst.Length > 0 ==> Holds(dst[..], Cut(s, dst.Length - 1))
    ensures forall j :: |s| < j < dst.Length ==> dst[j] == old(dst[j])
  {
    written := |s|;
    if dst.Length > 0 {
      var n := |Cut(s, dst.Length - 1)|;
      forall j | 0 <= j < n {
        dst[j] := s[j];
      }
      dst[n] := '\0';
    }
  }
}
