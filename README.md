# Swarm mount-spec validator

A model of the validator that the Docker daemon's swarm executor runs on a task's
mount list before the task is scheduled onto a worker. The validator takes the
mounts in order and stops at the first one that breaks a rule:

- the target must be an absolute path, except for a named-pipe mount;
- a bind mount's source must be absolute;
- a volume mount's source must not be absolute;
- a tmpfs mount's source must be empty;
- any other type is rejected, named pipes included.

The file also carries helpers for Windows path prefixes, adapted from Go's
Windows `path/filepath`. `volumeNameLen` measures a drive letter (`C:`) or a UNC
prefix (`\\server\share`). `windowsPathAbs` says whether such a prefix is
followed by a separator.

Two modules, one per component:

- `windows_path.dfy`, module `WindowsPath`, holds the byte-string type and the
  separator test. It computes the volume-name length twice: as the loop method
  `VolumeNameLen`, which follows the source's loops, and as the recursive
  function `VolumeName`, which runs the same two scans through `FirstSlash`.
  The two are proved equal. The declarative descriptions are `HasDriveLetter`
  and `UncShape`, a separate grammar of the UNC prefix, and they are proved
  equivalent to what `VolumeName` computes in both directions. The module
  also holds `WindowsPathAbs`.
- `validate.dfy`, module `MountValidation`, holds the mount and error
  datatypes, `ValidateMountAbs`, and `CheckMount`, the verdict on one mount.
  It also holds `FirstViolation`, the verdict on a whole list, and the loop
  method `ValidateMounts`, which is proved to compute that verdict.

Go strings are byte strings, so a path is a `seq<Byte>`, where `Byte` is a
`char` below 256. Every index and length counts bytes, as it does in the
source. The host is modelled as a non-Windows one, where `filepath.IsAbs(p)`
means that `p` starts with `/` (`NativeIsAbs`).

Two behaviours of the code are kept as written:

- On a non-Windows host, both branches of the Windows-grammar fallback in
  `validateMountAbs` return `false` (validate.go:50-54). So `ValidateMountAbs`
  always equals the native test, and a bind source such as `C:\data` is
  rejected (`WindowsFallbackIsDead`, `MountExamples`).
- Named pipes have no `case` in the switch (validate.go:20-38). Every
  named-pipe mount fails with the invalid-type error, even though the target
  check at validate.go:16 exempts it (`UnsupportedTypeRejected`).

## Model

| member | source | states |
|---|---|---|
| `WindowsPath.IsSlash` | daemon/cluster/executor/container/validate.go:111-113 | a separator (`\` or `/`) is never an ASCII letter, the drive colon or `.`, so the grammar's one-byte tests never overlap |
| `WindowsPath.FirstSlash` | daemon/cluster/executor/container/validate.go:88-101 | the scan stops at the first separator of the range, or at its end when there is none; every byte before that point is not a separator |
| `WindowsPath.VolumeName` | daemon/cluster/executor/container/validate.go:75-109 | the volume-name length is 0, 2, or some `n` with `5 <= n <= len(path)`, so `path[:volumeNameLen(path)]` is always in range; it is 0 for paths shorter than 2 bytes |
| `WindowsPath.VolumeNameLen` | daemon/cluster/executor/container/validate.go:75-109 | the source's nested scanning loops, with `break` and early return, compute exactly the volume-name length of the recursive `VolumeName` |
| `WindowsPath.DriveLetterIff` | daemon/cluster/executor/container/validate.go:80-83 | the length is 2 exactly when byte 1 is `:` and byte 0 is an ASCII letter |
| `WindowsPath.UncEndsAtSeparator` | daemon/cluster/executor/container/validate.go:97-102 | a UNC prefix ends at the end of the path or just before a separator |
| `WindowsPath.UncSound` | daemon/cluster/executor/container/validate.go:85-106 | every UNC length (5 or more) is the end of a `\\server\share` prefix: the server name does not start with `.` or a separator, the share name is not empty and does not start with `.`, and neither name holds a separator |
| `WindowsPath.UncComplete` | daemon/cluster/executor/container/validate.go:85-106 | whenever the path begins with such a `\\server\share` prefix, the length is exactly the end of the share name |
| `WindowsPath.NoVolumeNameIff` | daemon/cluster/executor/container/validate.go:75-109 | the length is 0 exactly when the path has neither a drive letter nor a UNC prefix |
| `WindowsPath.DegenerateUncExamples` | daemon/cluster/executor/container/validate.go:85-108 | `\\server\.`, `\\server\\x`, `\\.x`, `\\\x`, `\\server` and `\\server\` have no volume name; the 6-byte `\\.x\y` and `\\\x\y` show that a `.` or a separator at index 2 disqualifies a path long enough for the UNC form |
| `WindowsPath.VolumeNameExamples` | daemon/cluster/executor/container/validate.go:75-109 | `C:` and `C:\foo` give 2 and `relative` gives 0 |
| `WindowsPath.UncShareExample` | daemon/cluster/executor/container/validate.go:85-106 | `\\server\share` gives 14, the whole path |
| `WindowsPath.UncForwardSlashExample` | daemon/cluster/executor/container/validate.go:85-106 | `//server/share/dir` gives 14: forward slashes work as separators, and the prefix stops before `/dir` |
| `WindowsPath.UncPrefixKeptUnderSuffix` | daemon/cluster/executor/container/validate.go:97-104 | appending bytes after a UNC prefix leaves its length unchanged, provided a separator follows the prefix: one already in the path, or the first appended byte when the prefix covered the whole path |
| `WindowsPath.UncShareDirExample` | daemon/cluster/executor/container/validate.go:85-106 | `\\server\share\dir` gives 14: the prefix stops before the separator after the share name |
| `WindowsPath.WindowsPathAbs` | daemon/cluster/executor/container/validate.go:61-71 | Windows-absolute exactly when the volume name `l` is not empty, the path goes on past it, and byte `l` is a separator |
| `WindowsPath.WindowsPathAbsIff` | daemon/cluster/executor/container/validate.go:61-71 | Windows-absolute exactly when the path is a drive letter followed by a separator, or a UNC prefix followed by a separator (`\` or `/`) |
| `WindowsPath.WindowsPathAbsExamples` | daemon/cluster/executor/container/validate.go:61-71 | `""`, `C:` and `C:foo` are not Windows-absolute; `C:\` and `C:\data` are |
| `WindowsPath.WindowsPathAbsUncExamples` | daemon/cluster/executor/container/validate.go:61-71 | `\\server\share` is not Windows-absolute; `\\server\share\dir` is |
| `MountValidation.NativeIsAbs` | daemon/cluster/executor/container/validate.go:16 | `filepath.IsAbs` on the non-Windows host: an absolute path is non-empty, starts with a separator and never has a drive letter |
| `MountValidation.ValidateMountAbs` | daemon/cluster/executor/container/validate.go:44-57 | the classifier equals the native POSIX test for every path, whatever the Windows helpers return |
| `MountValidation.WindowsFallbackIsDead` | daemon/cluster/executor/container/validate.go:46-54 | `C:\data` is Windows-absolute yet not accepted by the classifier; the empty path is absolute under neither grammar |
| `MountValidation.CheckMount` | daemon/cluster/executor/container/validate.go:16-38 | a mount passes only if its target is absolute and its source fits its type (an absolute bind source, a non-absolute volume source, an empty tmpfs source); each error carries the mount's own offending value and arises only from its own cause: the target error only for a relative target and never for a named pipe; a bind, volume or tmpfs source error only after the target was found absolute, and only for a bind source that is not absolute, a volume source that is absolute, or a non-empty tmpfs source; the invalid-type error only outside bind, volume and tmpfs |
| `MountValidation.FirstViolation` | daemon/cluster/executor/container/validate.go:12-42 | an empty list passes, and when the first mount fails its error is the list's error whatever follows (the early return); the full characterisation is in `FirstViolationPassIff`, `FirstViolationAt` and `FirstViolationHasFirst` |
| `MountValidation.ValidateMounts` | daemon/cluster/executor/container/validate.go:12-42 | the loop with early return yields the error of the first failing mount, and succeeds exactly when every mount passes its target check and its type rule |
| `MountValidation.FirstViolationPassIff` | daemon/cluster/executor/container/validate.go:12-42 | a mount list is accepted exactly when every mount in it is accepted |
| `MountValidation.FirstViolationAt` | daemon/cluster/executor/container/validate.go:13-39 | when mount `k` is the first that fails, the list's error is that mount's error |
| `MountValidation.FirstViolationHasFirst` | daemon/cluster/executor/container/validate.go:13-39 | a rejected list has a first failing mount, and its error is the list's error |
| `MountValidation.FirstViolationAppend` | daemon/cluster/executor/container/validate.go:13-41 | after a failing prefix, later mounts do not affect the verdict; after a passing prefix, the rest decides it |
| `MountValidation.UnsupportedTypeRejected` | daemon/cluster/executor/container/validate.go:16-38 | a named-pipe mount always fails with the invalid-type error and never with the target error; a mount of unknown type fails on its target when the target is relative, otherwise on its type |
| `MountValidation.UnsupportedTypeInListRejected` | daemon/cluster/executor/container/validate.go:12-42 | a list that holds a named-pipe mount or a mount of unknown type is always rejected |
| `MountValidation.TargetCheckedFirst` | daemon/cluster/executor/container/validate.go:16-18 | a bind, volume or tmpfs mount with a relative target fails on its target, before its source is looked at |
| `MountValidation.BindRule` | daemon/cluster/executor/container/validate.go:25-28 | a bind mount is accepted exactly when its target and its source are both absolute |
| `MountValidation.VolumeRule` | daemon/cluster/executor/container/validate.go:29-32 | a volume mount is accepted exactly when its target is absolute and its source is not |
| `MountValidation.TmpfsRule` | daemon/cluster/executor/container/validate.go:33-36 | a tmpfs mount is accepted exactly when its target is absolute and its source is empty |
| `MountValidation.BindVolumeDisjoint` | daemon/cluster/executor/container/validate.go:25-32 | no (source, target) pair is accepted both as a bind mount and as a volume mount |
| `MountValidation.MountExamples` | daemon/cluster/executor/container/validate.go:16-38 | the bind, volume, tmpfs, unknown-type and named-pipe cases on sample paths, including the rejection of bind source `C:\data` |

## Left out

- `runtime.GOOS` is not read. The host is fixed as non-Windows (`HostIsWindows`), because host detection lies outside this file.
- Go's Windows `filepath.IsAbs` is left out for the same reason. On the modelled host, `filepath.IsAbs` is "starts with `/`".
- The swarmkit `api.Mount` protobuf type is reduced to its type, source and target. Its other fields (read-only flag, bind and volume options, propagation) belong to a foreign library and are not inspected by this code.
- The numeric values of the swarmkit mount-type enum are not modelled. Any value other than bind, volume, tmpfs and named pipe is `Unknown(code)`.
- Error texts are left out: `fmt.Errorf`/`errors.New` formatting and the `%s` rendering of the enum. Each message is one `MountError` constructor that carries the offending value.
