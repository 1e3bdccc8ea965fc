/** Validation of the mount list of a swarm task before it is scheduled:
    every target must be absolute (named pipes excepted), and the source of
    each mount must have the shape its type demands. The first violation is
    reported and the rest of the list is not looked at.

    The host is a non-Windows one, where Go's `filepath.IsAbs` holds exactly
    of paths that start with `/`. */
module MountValidation {
  import opened WindowsPath

  /** The swarm mount types this core knows, and any other enum value. */
  datatype MountType = Bind | Volume | Tmpfs | NamedPipe | Unknown(code: int)

  /** The three fields of a swarm mount that are validated here. */
  datatype Mount = Mount(kind: MountType, source: Bytes, target: Bytes)

  /** One constructor per error message, carrying the offending value. */
  datatype MountError =
    | InvalidTarget(target: Bytes)
    | InvalidBindSource(source: Bytes)
    | InvalidVolumeSource(source: Bytes)
    | InvalidTmpfsSource
    | InvalidType(kind: MountType)

  /** A nil error, or the error returned. */
  datatype Outcome = Pass | Fail(error: MountError)

  /** The host is not Windows. */
  const HostIsWindows: bool := false

  /** `filepath.IsAbs` on a POSIX host. */
  predicate NativeIsAbs(p: Bytes)
    ensures NativeIsAbs(p) ==> |p| > 0 && IsSlash(p[0]) && !HasDriveLetter(p)
  {
    |p| > 0 && p[0] == '/'
  }

  /** `validateMountAbs`. When the native test fails, the Windows grammar
      is consulted for paths with a volume name, but both of its outcomes
      give `false`, so the result is the native test alone. */
  function ValidateMountAbs(path: Bytes): (abs: bool)
    ensures abs == NativeIsAbs(path)
  {
    if !NativeIsAbs(path) then
      if !HostIsWindows && |path[..VolumeName(path)]| > 0 then
        if !WindowsPathAbs(path) then false else false
      else false
    else true
  }

  /** The verdict on one mount: its target first (except for named pipes),
      then the rule for its type. */
  function CheckMount(m: Mount): (r: Outcome)
    ensures r == Pass ==>
      && NativeIsAbs(m.target)
      && ((m.kind == Bind && ValidateMountAbs(m.source)) ||
          (m.kind == Volume && !ValidateMountAbs(m.source)) ||
          (m.kind == Tmpfs && m.source == []))
    ensures r.Fail? && r.error.InvalidTarget? ==>
      m.kind != NamedPipe && !NativeIsAbs(m.target) && r.error.target == m.target
    ensures r.Fail? && r.error.InvalidBindSource? ==>
      m.kind == Bind && NativeIsAbs(m.target) && !ValidateMountAbs(m.source) && r.error.source == m.source
    ensures r.Fail? && r.error.InvalidVolumeSource? ==>
      m.kind == Volume && NativeIsAbs(m.target) && ValidateMountAbs(m.source) && r.error.source == m.source
    ensures r.Fail? && r.error.InvalidTmpfsSource? ==> m.kind == Tmpfs && NativeIsAbs(m.target) && m.source != []
    ensures r.Fail? && r.error.InvalidType? ==> r.error.kind == m.kind && (m.kind == NamedPipe || m.kind.Unknown?)
  {
    if !NativeIsAbs(m.target) && m.kind != NamedPipe then Fail(InvalidTarget(m.target))
    else
      match m.kind
      case Bind =>
        if !ValidateMountAbs(m.source) then Fail(InvalidBindSource(m.source)) else Pass
      case Volume =>
        if ValidateMountAbs(m.source) then Fail(InvalidVolumeSource(m.source)) else Pass
      case Tmpfs =>
        if m.source != [] then Fail(InvalidTmpfsSource) else Pass
      case _ => Fail(InvalidType(m.kind))
  }

  /** The verdict on a list: the verdict on its first failing mount. An
      empty list passes, and a failing first mount decides the verdict
      whatever follows it. */
  function FirstViolation(ms: seq<Mount>): (r: Outcome)
    ensures ms == [] ==> r == Pass
    ensures ms != [] && CheckMount(ms[0]).Fail? ==> r == CheckMount(ms[0])
  {
    if ms == [] then Pass
    else if CheckMount(ms[0]).Fail? then CheckMount(ms[0])
    else FirstViolation(ms[1..])
  }

  /** Mount `k` is the first mount of `ms` that fails. */
  predicate FailsFirstAt(ms: seq<Mount>, k: nat) {
    k < |ms| && CheckMount(ms[k]).Fail? &&
    forall i :: 0 <= i < k ==> CheckMount(ms[i]) == Pass
  }

  /** `validateMounts`: walks the list in order and returns at the first
      violation. */
  method ValidateMounts(mounts: seq<Mount>) returns (result: Outcome)
    ensures result == FirstViolation(mounts)
    ensures result == Pass <==> forall i :: 0 <= i < |mounts| ==> CheckMount(mounts[i]) == Pass
  {
    for i := 0 to |mounts|
      invariant forall j :: 0 <= j < i ==> CheckMount(mounts[j]) == Pass
      invariant FirstViolation(mounts[i..]) == FirstViolation(mounts)
    {
      assert mounts[i..][1..] == mounts[i + 1..];
      var mount := mounts[i];
      if !NativeIsAbs(mount.target) && mount.kind != NamedPipe {
        return Fail(InvalidTarget(mount.target));
      }
      match mount.kind {
        case Bind =>
          if !ValidateMountAbs(mount.source) {
            return Fail(InvalidBindSource(mount.source));
          }
        case Volume =>
          if ValidateMountAbs(mount.source) {
            return Fail(InvalidVolumeSource(mount.source));
          }
        case Tmpfs =>
          if mount.source != [] {
            return Fail(InvalidTmpfsSource);
          }
        case _ =>
          return Fail(InvalidType(mount.kind));
      }
    }
    assert mounts[|mounts|..] == [];
    return Pass;
  }

  /** A list passes exactly when every mount in it passes. */
  lemma {:induction false} FirstViolationPassIff(ms: seq<Mount>)
    ensures FirstViolation(ms) == Pass <==> forall i :: 0 <= i < |ms| ==> CheckMount(ms[i]) == Pass
  {
    if ms != [] {
      FirstViolationPassIff(ms[1..]);
      assert forall i :: 1 <= i < |ms| ==> ms[i] == ms[1..][i - 1];
    }
  }

  /** The error of a failing list is the error of its first failing mount. */
  lemma {:induction false} FirstViolationAt(ms: seq<Mount>, k: nat)
    requires FailsFirstAt(ms, k)
    ensures FirstViolation(ms) == CheckMount(ms[k])
  {
    if k > 0 {
      assert CheckMount(ms[0]) == Pass;
      assert FailsFirstAt(ms[1..], k - 1) by {
        forall i | 0 <= i < k - 1
          ensures CheckMount(ms[1..][i]) == Pass
        {
          assert ms[1..][i] == ms[i + 1];
        }
      }
      FirstViolationAt(ms[1..], k - 1);
    }
  }

  /** A failing list has a first failing mount. */
  lemma {:induction false} FirstViolationHasFirst(ms: seq<Mount>)
    requires FirstViolation(ms).Fail?
    ensures exists k: nat :: FailsFirstAt(ms, k) && FirstViolation(ms) == CheckMount(ms[k])
  {
    if CheckMount(ms[0]).Fail? {
      assert FailsFirstAt(ms, 0);
    } else {
      FirstViolationHasFirst(ms[1..]);
      var k: nat :| FailsFirstAt(ms[1..], k) && FirstViolation(ms[1..]) == CheckMount(ms[1..][k]);
      forall i | 0 <= i < k + 1
        ensures CheckMount(ms[i]) == Pass
      {
        if i > 0 {
          assert ms[i] == ms[1..][i - 1];
        }
      }
      assert FailsFirstAt(ms, k + 1);
    }
  }

  /** Once a prefix fails, nothing after it is examined; a passing prefix
      leaves the verdict to the rest. */
  lemma {:induction false} FirstViolationAppend(ms: seq<Mount>, rest: seq<Mount>)
    ensures FirstViolation(ms + rest) ==
      if FirstViolation(ms).Fail? then FirstViolation(ms) else FirstViolation(rest)
  {
    if ms == [] {
      assert ms + rest == rest;
    } else {
      assert (ms + rest)[0] == ms[0];
      assert (ms + rest)[1..] == ms[1..] + rest;
      FirstViolationAppend(ms[1..], rest);
    }
  }

  /** Named pipes and unknown types are always rejected. A named pipe is
      never rejected for its target, only for its type. */
  lemma UnsupportedTypeRejected(m: Mount)
    requires m.kind == NamedPipe || m.kind.Unknown?
    ensures CheckMount(m).Fail?
    ensures m.kind == NamedPipe ==> CheckMount(m) == Fail(InvalidType(NamedPipe))
    ensures m.kind.Unknown? ==>
      CheckMount(m) == (if NativeIsAbs(m.target) then Fail(InvalidType(m.kind)) else Fail(InvalidTarget(m.target)))
  {
  }

  /** A list holding a named pipe or a mount of unknown type never passes. */
  lemma {:induction false} UnsupportedTypeInListRejected(ms: seq<Mount>, k: nat)
    requires k < |ms| && (ms[k].kind == NamedPipe || ms[k].kind.Unknown?)
    ensures FirstViolation(ms).Fail?
  {
    UnsupportedTypeRejected(ms[k]);
    FirstViolationPassIff(ms);
  }

  /** For the supported types the target is checked before the source. */
  lemma TargetCheckedFirst(m: Mount)
    requires m.kind in {Bind, Volume, Tmpfs}
    requires !NativeIsAbs(m.target)
    ensures CheckMount(m) == Fail(InvalidTarget(m.target))
  {
  }

  /** The per-type rules, both directions. */
  lemma BindRule(m: Mount)
    requires m.kind == Bind
    ensures CheckMount(m) == Pass <==> NativeIsAbs(m.target) && NativeIsAbs(m.source)
  {
  }

  lemma VolumeRule(m: Mount)
    requires m.kind == Volume
    ensures CheckMount(m) == Pass <==> NativeIsAbs(m.target) && !NativeIsAbs(m.source)
  {
  }

  lemma TmpfsRule(m: Mount)
    requires m.kind == Tmpfs
    ensures CheckMount(m) == Pass <==> NativeIsAbs(m.target) && m.source == []
  {
  }

  /** No (source, target) pair is accepted both as a bind and as a volume. */
  lemma BindVolumeDisjoint(source: Bytes, target: Bytes)
    ensures !(CheckMount(Mount(Bind, source, target)) == Pass &&
              CheckMount(Mount(Volume, source, target)) == Pass)
  {
  }

  /** The Windows grammar accepts `C:\data`, the validator does not. */
  lemma WindowsFallbackIsDead()
    ensures WindowsPathAbs("C:\\data") && !ValidateMountAbs("C:\\data")
    ensures !ValidateMountAbs("") && !WindowsPathAbs("")
  {
  }

  lemma MountExamples()
    ensures CheckMount(Mount(Bind, "/data", "/mnt")) == Pass
    ensures CheckMount(Mount(Bind, "C:\\data", "/mnt")) == Fail(InvalidBindSource("C:\\data"))
    ensures CheckMount(Mount(Volume, "myvolume", "/mnt")) == Pass
    ensures CheckMount(Mount(Volume, "/data", "/mnt")) == Fail(InvalidVolumeSource("/data"))
    ensures CheckMount(Mount(Tmpfs, "", "/mnt")) == Pass
    ensures CheckMount(Mount(Tmpfs, "/data", "/mnt")) == Fail(InvalidTmpfsSource)
    ensures CheckMount(Mount(Unknown(7), "x", "/mnt")) == Fail(InvalidType(Unknown(7)))
    ensures CheckMount(Mount(NamedPipe, "\\\\.\\pipe\\a", "\\\\.\\pipe\\b")) == Fail(InvalidType(NamedPipe))
    ensures CheckMount(Mount(Volume, "myvolume", "mnt")) == Fail(InvalidTarget("mnt"))
  {
  }
}
