/** Windows path-prefix grammar used by the swarm mount validator:
    drive letters (`C:`) and UNC shares (`\\server\share`), adapted from the
    Windows implementation of Go's `path/filepath`. Go strings are byte
    strings, so a path here is a sequence of bytes and every index and length
    counts bytes. */
module WindowsPath {

  /** One byte of a Go string. Kept as a `char` below 256 so that paths can be
      written as string literals. */
  type Byte = c: char | c as int < 256

  type Bytes = seq<Byte>

  predicate IsAsciiLetter(c: Byte) {
    'a' <= c <= 'z' || 'A' <= c <= 'Z'
  }

  /** `isSlash`: both separators are accepted. A separator is never a drive
      letter, the drive colon or the `.` that the UNC grammar refuses, so the
      grammar's tests on one byte never overlap. */
  predicate IsSlash(c: Byte)
    ensures IsSlash(c) ==> !IsAsciiLetter(c) && c != ':' && c != '.'
  {
    c == '\\' || c == '/'
  }

  /** The drive-letter form: a letter followed by a colon. */
  predicate HasDriveLetter(p: Bytes) {
    |p| >= 2 && p[1] == ':' && IsAsciiLetter(p[0])
  }

  /** Index of the first separator in `p[from..to]`, or `to` if there is none. */
  function FirstSlash(p: Bytes, from: nat, to: nat): (r: nat)
    requires from <= to <= |p|
    ensures from <= r <= to
    ensures forall k :: from <= k < r ==> !IsSlash(p[k])
    ensures r < to ==> IsSlash(p[r])
    decreases (to as int) - (from as int)
  {
    if from == to || IsSlash(p[from]) then from else FirstSlash(p, from + 1, to)
  }

  /** The UNC grammar as a shape: `p[..n]` is two separators, a server name
      (from index 2, not starting with a separator or `.`), the separator at
      index `s`, and a share name (from index `s + 1`, not empty and not
      starting with `.`); neither name holds a separator, and the prefix ends
      at the end of `p` or at a separator. */
  predicate UncShape(p: Bytes, s: nat, n: nat) {
    3 <= s && s + 1 < n <= |p| &&
    IsSlash(p[0]) && IsSlash(p[1]) && p[2] != '.' &&
    IsSlash(p[s]) && p[s + 1] != '.' &&
    (forall k :: 2 <= k < n && k != s ==> !IsSlash(p[k])) &&
    (n == |p| || IsSlash(p[n]))
  }

  /** Length of the leading volume name: 2 for a drive letter, the end of the
      share name for a UNC prefix, 0 otherwise. */
  function VolumeName(p: Bytes): (r: nat)
    ensures r == 0 || r == 2 || 5 <= r <= |p|
    ensures |p| < 2 ==> r == 0
  {
    if |p| < 2 then 0
    else if p[1] == ':' && IsAsciiLetter(p[0]) then 2
    else if |p| >= 5 && IsSlash(p[0]) && IsSlash(p[1]) && !IsSlash(p[2]) && p[2] != '.' then
      var s := FirstSlash(p, 3, |p| - 1);
      if s == |p| - 1 || IsSlash(p[s + 1]) || p[s + 1] == '.' then 0
      else FirstSlash(p, s + 1, |p|)
    else 0
  }

  /** `volumeNameLen`, with the scanning loops of the source: the outer loop
      looks for the separator that ends the server name, the inner one for the
      end of the share name. */
  method VolumeNameLen(path: Bytes) returns (n: nat)
    ensures n == VolumeName(path)
  {
    if |path| < 2 {
      return 0;
    }
    var c := path[0];
    if path[1] == ':' && IsAsciiLetter(c) {
      return 2;
    }
    var l := |path|;
    if l >= 5 && IsSlash(path[0]) && IsSlash(path[1]) && !IsSlash(path[2]) && path[2] != '.' {
      n := 3;
      while n < l - 1
        invariant 3 <= n <= l - 1
        invariant forall k :: 3 <= k < n ==> !IsSlash(path[k])
      {
        if IsSlash(path[n]) {
          ghost var s := n;
          n := n + 1;
          if !IsSlash(path[n]) {
            if path[n] == '.' {
              break;
            }
            while n < l
              invariant s + 1 <= n <= l
              invariant forall k :: s + 1 <= k < n ==> !IsSlash(path[k])
            {
              if IsSlash(path[n]) {
                break;
              }
              n := n + 1;
            }
            return n;
          }
          break;
        }
        n := n + 1;
      }
    }
    return 0;
  }

  /** `windowsPathAbs`: a volume name followed by a separator. */
  function WindowsPathAbs(path: Bytes): (b: bool)
    ensures b <==> var l := VolumeName(path); 0 < l < |path| && IsSlash(path[l])
  {
    var l := VolumeName(path);
    if l == 0 then false
    else
      var rest := path[l..];
      if rest == [] then false else IsSlash(rest[0])
  }

  /** The volume name is 2 exactly for the drive-letter form. */
  lemma DriveLetterIff(p: Bytes)
    ensures VolumeName(p) == 2 <==> HasDriveLetter(p)
  {
  }

  /** A UNC volume name ends at the end of the path or at a separator. */
  lemma UncEndsAtSeparator(p: Bytes)
    requires VolumeName(p) >= 5
    ensures VolumeName(p) == |p| || IsSlash(p[VolumeName(p)])
  {
  }

  /** Every UNC result has the UNC shape ... */
  lemma UncSound(p: Bytes)
    requires VolumeName(p) >= 5
    ensures exists s :: UncShape(p, s, VolumeName(p))
  {
    var s := FirstSlash(p, 3, |p| - 1);
    assert UncShape(p, s, VolumeName(p));
  }

  /** ... and every path with the UNC shape has that volume name. */
  lemma UncComplete(p: Bytes, s: nat, n: nat)
    requires UncShape(p, s, n)
    ensures VolumeName(p) == n
  {
  }

  /** The result is 0 exactly when the path has neither a drive letter nor a
      UNC prefix. */
  lemma NoVolumeNameIff(p: Bytes)
    ensures VolumeName(p) == 0 <==> !HasDriveLetter(p) && forall s: nat, n: nat :: !UncShape(p, s, n)
  {
    if VolumeName(p) >= 5 {
      UncSound(p);
    }
    forall s: nat, n: nat | UncShape(p, s, n)
      ensures VolumeName(p) != 0
    {
      UncComplete(p, s, n);
    }
  }

  /** Degenerate UNC prefixes have no volume name: a short path, a `.` or a
      separator at index 2, no separator after the server name, an empty
      share name, or a share name that starts with `.`. */
  lemma DegenerateUncExamples()
    ensures VolumeName("\\\\server\\.") == 0
    ensures VolumeName("\\\\server\\\\x") == 0
    ensures VolumeName("\\\\.x") == 0
    ensures VolumeName("\\\\\\x") == 0
    ensures VolumeName("\\\\.x\\y") == 0
    ensures VolumeName("\\\\\\x\\y") == 0
    ensures VolumeName("\\\\server") == 0
    ensures VolumeName("\\\\server\\") == 0
  {
    assert FirstSlash("\\\\server\\.", 8, 9) == 8;
    assert FirstSlash("\\\\server\\.", 7, 9) == 8;
    assert FirstSlash("\\\\server\\.", 6, 9) == 8;
    assert FirstSlash("\\\\server\\.", 5, 9) == 8;
    assert FirstSlash("\\\\server\\.", 4, 9) == 8;
    assert FirstSlash("\\\\server\\.", 3, 9) == 8;
    assert FirstSlash("\\\\server\\\\x", 8, 10) == 8;
    assert FirstSlash("\\\\server\\\\x", 7, 10) == 8;
    assert FirstSlash("\\\\server\\\\x", 6, 10) == 8;
    assert FirstSlash("\\\\server\\\\x", 5, 10) == 8;
    assert FirstSlash("\\\\server\\\\x", 4, 10) == 8;
    assert FirstSlash("\\\\server\\\\x", 3, 10) == 8;
    assert FirstSlash("\\\\server", 7, 7) == 7;
    assert FirstSlash("\\\\server", 6, 7) == 7;
    assert FirstSlash("\\\\server", 5, 7) == 7;
    assert FirstSlash("\\\\server", 4, 7) == 7;
    assert FirstSlash("\\\\server", 3, 7) == 7;
    assert FirstSlash("\\\\server\\", 8, 8) == 8;
    assert FirstSlash("\\\\server\\", 7, 8) == 8;
    assert FirstSlash("\\\\server\\", 6, 8) == 8;
    assert FirstSlash("\\\\server\\", 5, 8) == 8;
    assert FirstSlash("\\\\server\\", 4, 8) == 8;
    assert FirstSlash("\\\\server\\", 3, 8) == 8;
  }

  /** Drive-letter and relative paths. */
  lemma VolumeNameExamples()
    ensures VolumeName("C:") == 2
    ensures VolumeName("C:\\foo") == 2
    ensures VolumeName("relative") == 0
  {
  }

  /** A UNC prefix measured to the end of its share name. Each chain of
      assertions walks one scan of `FirstSlash` back from the separator
      that stops it, one byte per step. */
  lemma UncShareExample()
    ensures VolumeName("\\\\server\\share") == 14
  {
    assert FirstSlash("\\\\server\\share", 8, 13) == 8;
    assert FirstSlash("\\\\server\\share", 7, 13) == 8;
    assert FirstSlash("\\\\server\\share", 6, 13) == 8;
    assert FirstSlash("\\\\server\\share", 5, 13) == 8;
    assert FirstSlash("\\\\server\\share", 4, 13) == 8;
    assert FirstSlash("\\\\server\\share", 3, 13) == 8;
    assert FirstSlash("\\\\server\\share", 14, 14) == 14;
    assert FirstSlash("\\\\server\\share", 13, 14) == 14;
    assert FirstSlash("\\\\server\\share", 12, 14) == 14;
    assert FirstSlash("\\\\server\\share", 11, 14) == 14;
    assert FirstSlash("\\\\server\\share", 10, 14) == 14;
    assert FirstSlash("\\\\server\\share", 9, 14) == 14;
  }

  /** Forward slashes separate like backslashes: the prefix of
      `//server/share/dir` stops before `/dir`. */
  lemma UncForwardSlashExample()
    ensures VolumeName("//server/share/dir") == 14
  {
    assert FirstSlash("//server/share/dir", 8, 17) == 8;
    assert FirstSlash("//server/share/dir", 7, 17) == 8;
    assert FirstSlash("//server/share/dir", 6, 17) == 8;
    assert FirstSlash("//server/share/dir", 5, 17) == 8;
    assert FirstSlash("//server/share/dir", 4, 17) == 8;
    assert FirstSlash("//server/share/dir", 3, 17) == 8;
    assert FirstSlash("//server/share/dir", 14, 18) == 14;
    assert FirstSlash("//server/share/dir", 13, 18) == 14;
    assert FirstSlash("//server/share/dir", 12, 18) == 14;
    assert FirstSlash("//server/share/dir", 11, 18) == 14;
    assert FirstSlash("//server/share/dir", 10, 18) == 14;
    assert FirstSlash("//server/share/dir", 9, 18) == 14;
  }

  /** A UNC volume name depends only on the bytes it covers and the one
      after it: bytes appended after a separator that ends it, or appended
      to a path it covers whole when they start with a separator, leave it
      unchanged. */
  lemma UncPrefixKeptUnderSuffix(p: Bytes, q: Bytes)
    requires VolumeName(p) >= 5
    requires VolumeName(p) < |p| || q == [] || IsSlash(q[0])
    ensures VolumeName(p + q) == VolumeName(p)
  {
    var n := VolumeName(p);
    UncSound(p);
    var s :| UncShape(p, s, n);
    assert forall k :: 0 <= k < |p| ==> (p + q)[k] == p[k];
    assert n < |p + q| ==> IsSlash((p + q)[n]);
    assert UncShape(p + q, s, n);
    UncComplete(p + q, s, n);
  }

  /** The prefix of `\\server\share\dir` is the whole of `\\server\share`. */
  lemma UncShareDirExample()
    ensures VolumeName("\\\\server\\share\\dir") == 14
  {
    UncShareExample();
    UncPrefixKeptUnderSuffix("\\\\server\\share", "\\dir");
    assert "\\\\server\\share" + "\\dir" == "\\\\server\\share\\dir";
  }

  /** A path is Windows-absolute exactly when it is a drive letter followed by
      a separator, or a UNC prefix followed by a separator. */
  lemma WindowsPathAbsIff(p: Bytes)
    ensures WindowsPathAbs(p) <==>
      (HasDriveLetter(p) && |p| > 2 && IsSlash(p[2])) ||
      (exists s: nat, n: nat :: UncShape(p, s, n) && n < |p|)
  {
    var l := VolumeName(p);
    if l >= 5 {
      UncSound(p);
    }
    forall s: nat, n: nat | UncShape(p, s, n)
      ensures l == n
    {
      UncComplete(p, s, n);
    }
  }

  lemma WindowsPathAbsExamples()
    ensures !WindowsPathAbs("")
    ensures !WindowsPathAbs("C:")
    ensures !WindowsPathAbs("C:foo")
    ensures WindowsPathAbs("C:\\")
    ensures WindowsPathAbs("C:\\data")
  {
  }

  lemma WindowsPathAbsUncExamples()
    ensures !WindowsPathAbs("\\\\server\\share")
    ensures WindowsPathAbs("\\\\server\\share\\dir")
  {
    UncShareExample();
    UncShareDirExample();
  }
}
