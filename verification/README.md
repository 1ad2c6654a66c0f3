# cpu9p: a verified model of the cpu client's 9P2000.L file handle

The cpu client serves the local directory tree to a remote cpu server over
9P2000.L. The file `client/cpu9p.go` implements the served file: a `cpu9p` value is
both the attacher, which hands out the root, and the `p9.File` behind every fid.
A `cpu9p` holds three things:

- a path;
- an optional open `*os.File`;
- a staged extended-attribute operation. This implements the two-phase
  Txattrwalk/Txattrcreate handshake of 9P2000.L: the next Tread or Twrite on the
  same fid carries it out.

This project models that handle in Dafny and proves what its operations
promise. The main results:

- Walk is all or nothing: it returns one QID per name, each the QID of its
  joined prefix, or no QIDs at all with the error of the first prefix whose stat
  fails.
- Directory reads: every entry comes from the listing at or after the requested
  position. Entries are in listing order, each with offset `i + 1`. A name is
  missing only when its stat fails.
- The extended-attribute handshake follows exact rules: an empty buffer, an
  offset other than 0, the wrong staged operation, and the size a create reports.
- The bookkeeping operations (attach, rename notification, close, the
  unsupported operations) do exactly what they say.

## How the model is built

- `base.dfy` (module `Base`) holds the Go values the handle uses:
  - nil-able values (`Option`) and results;
  - fixed-width integers of a 64-bit platform, including Go's `int(uint64)` and
    `uint64(int)` conversions, which wrap;
  - the error values: a `syscall.Errno` (EINVAL = 22, ENOSYS = 38),
    `os.ErrInvalid`, and any other error identified by its text.
- `filesystem.dfy` (module `Filesystem`) makes every operating-system and
  library call a field of a `Host` value. Each field is a total function of the
  call's arguments: `lstat`, `fstat`, `open`, positioned read and write,
  `listxattr`/`getxattr`/`setxattr`, rename, the directory listing,
  `filepath.Join`, the QID type of a mode, and the open-flag translation. A
  contract that mentions `host.rename(a, b)` pins down exactly which call is
  made. One `Host` value is one snapshot of the filesystem across a request or
  a sequence of requests. That is the model's one assumption about the host:
  within a snapshot the same call with the same arguments gives the same
  result. So two `openFile` calls on the same path return the same descriptor,
  and two reads at the same offset return the same bytes, even from a FIFO. The module also
  defines how a handle's QID is derived from a stat, and the left fold of join
  over a walk's names.
- `walk_spec.dfy` (module `WalkSpec`) and `readdir_spec.dfy` (module
  `ReaddirSpec`) define, as recursive functions, what a walk and a directory
  read return. They prove the properties above about those definitions.
- `cpu9p.dfy` (module `Cpu9p`) is the handle, a class with the source's three
  fields:
  - Txattrcreate, Tlopen and the rename notification update the fields in place.
  - Walk and Readdir are loops proved equal to the definitions in `WalkSpec`
    and `ReaddirSpec`.
  - The Tread/Twrite dispatch on the staged operation is a function of the
    handle's state.
- `handshake.dfy` (module `Handshake`) composes requests the way a 9P client
  issues them. It shows what each sequence achieves end to end:
  - create then write;
  - walk then read;
  - rename then notify.

## Behaviour of the code worth knowing

- ReadAt and WriteAt never clear the staged attribute operation. A second Tread
  on a fid with an attribute walk staged reads the attribute again.
- With an attribute walk staged, an empty read buffer succeeds before the offset
  is checked, so it succeeds even at a non-zero offset. An attribute write has
  no such case: its count is the staged size, whatever the buffer length.
- Txattrwalk returns its new handle, and the wrapped probe size, even when the
  probe fails.
- Walk with no names stats the path with `lstat`, even when the handle holds a
  descriptor. Open stats before it opens: on a handle that holds no descriptor
  yet its QID comes from `lstat` of the path, and from `fstat` only when the
  handle already holds one. Create takes its QID from `fstat` of the
  descriptor it has just created.
- Directory listing order is whatever `ioutil.ReadDir` returns (the host's
  `readDir`). Listing positions index into that sequence.

## Model

| member | source | states |
|---|---|---|
| `Base.IntOfU64` | client/cpu9p.go:244-245 | Go's `int(size)`: congruent to the size modulo 2^64, non-negative exactly when the size is below 2^63, and then equal to it |
| `Base.U64OfInt` | client/cpu9p.go:118-121 | Go's `uint64(size)`: congruent to the count modulo 2^64, equal to it when it is non-negative, and at least 2^63 when it is negative |
| `Filesystem.QidOf` | client/cpu9p.go:96-100 | a QID's type is the host's QID type of the stat's mode, its path is the stat's inode number and its version is zero |
| `Filesystem.Identify` | client/cpu9p.go:78-102 | a handle's identity comes from `fstat` of its descriptor when it holds one, otherwise from `lstat` of its path; it fails exactly when that stat fails, with that stat's error, and otherwise carries the stat and the QID derived from it (type from the mode, path from the inode, version zero) |
| `Filesystem.JoinAllSnoc` | client/cpu9p.go:152-161 | joining one more name onto the result of a walk is the walk with that name appended (the loop's `last` is the left fold of join) |
| `WalkSpec.WalkQids` | client/cpu9p.go:140-150 | a walk with no names succeeds exactly when the current path can be stat-ed and returns exactly that one QID, or that stat's error |
| `WalkSpec.ResolveSucceeds` | client/cpu9p.go:152-163 | a walk with names succeeds exactly when every prefix path can be stat-ed; it then returns one QID per name, the k-th being the QID of the k-th joined prefix |
| `WalkSpec.ResolveFirstError` | client/cpu9p.go:152-158 | a failed walk reports the error of the first prefix that cannot be stat-ed, and every earlier prefix could be |
| `ReaddirSpec.EntriesBounded` | client/cpu9p.go:310 | at most `len(listing) - offset` entries, and none when the offset is at or past the end of the listing |
| `ReaddirSpec.EntriesFromListing` | client/cpu9p.go:310-321 | every entry comes from a listing position `i >= offset`: name `listing[i]`, offset `i + 1`, the QID of the joined path, and type equal to the QID's type |
| `ReaddirSpec.EntriesIncreasing` | client/cpu9p.go:310-322 | entries appear in strictly increasing listing order |
| `ReaddirSpec.EntriesComplete` | client/cpu9p.go:310-315 | every listing position at or after the offset whose joined path can be stat-ed has an entry; a name is left out only when its stat fails |
| `ReaddirSpec.StartIndexAsWritten` | client/cpu9p.go:310 | the loop's start index `int(offset)` equals the offset whenever the offset is below 2^63 |
| `ReaddirSpec.HugeOffsetIndexesOutOfRange` | client/cpu9p.go:310-311 | for an offset of 2^63 or more, the start index passes the guard `i < len(fi)` for every listing, yet it is not a valid index of the listing |
| `Cpu9p.Handle.Attach` | client/cpu9p.go:68-70 | the root is a new handle on the same path with no descriptor and nothing staged, and there is no error |
| `Cpu9p.Handle.XattrWalk` | client/cpu9p.go:104-122 | the handle probes the attribute list for an empty name, or the named attribute otherwise, with a zero-length buffer. The returned size is the probe's count converted to uint64 (equal to it when non-negative) and the error is the probe's. The new handle is on the same path, with no descriptor and an attribute walk staged for that name and size. The origin handle is not changed |
| `Cpu9p.Handle.XattrCreate` | client/cpu9p.go:124-130 | stages an attribute create with exactly the given name, size and flags; path and descriptor unchanged; never fails |
| `Cpu9p.Handle.Walk` | client/cpu9p.go:133-164 | the QIDs and error are exactly those of `WalkQids`. On success the returned handle is new, on the left fold of join over the names, with no descriptor and nothing staged. On failure there are no QIDs and no handle |
| `Cpu9p.Handle.Close` | client/cpu9p.go:172-177 | no error when no descriptor is held; otherwise the descriptor's close result |
| `Cpu9p.Handle.Open` | client/cpu9p.go:180-199 | a failed stat gives the zero QID and leaves the handle unchanged. A failed open gives the stat's QID and leaves the handle unchanged. Success stores the new descriptor. The I/O unit is always 0 and nothing else changes |
| `Cpu9p.Handle.ReadAt` | client/cpu9p.go:202-220 | nothing staged: the descriptor read. Attribute walk: an empty buffer gives (0, nil) at any offset; otherwise a non-zero offset gives (0, EINVAL), and offset 0 gives the list (empty name) or get result for the staged name. Attribute create: always (0, EINVAL) |
| `Cpu9p.Handle.WriteAt` | client/cpu9p.go:230-250 | nothing staged: the positioned write's result, unless its error is the O_APPEND refusal, in which case the unpositioned write's result. Attribute create: a non-zero offset gives (0, EINVAL); otherwise the count is the staged size (exactly, below 2^63) and the error is that of setting the staged attribute to the buffer with the staged flags. Attribute walk: always (0, EINVAL) |
| `Cpu9p.Handle.Create` | client/cpu9p.go:253-269 | opens the joined path with O_CREAT added to the mode's flags. A failed open or a failed stat of the new descriptor gives no handle, the zero QID and that error. Otherwise it returns a new handle on the joined path holding the descriptor, with the QID of its stat. The I/O unit is always 0 |
| `Cpu9p.Handle.Readdir` | client/cpu9p.go:303-325 | a failed listing gives no entries and its error; otherwise no error and exactly `Entries` of the listing from the offset, read as unsigned |
| `Cpu9p.Handle.Flush` | client/cpu9p.go:337-339 | always succeeds |
| `Cpu9p.Handle.Renamed` | client/cpu9p.go:342-344 | the path becomes join(parent's path, new name); descriptor and staged operation unchanged |
| `Cpu9p.Handle.RenameAt` | client/cpu9p.go:377-389 | a foreign directory handle gives `os.ErrInvalid`; otherwise the result of renaming join(this path, old name) to join(directory's path, new name) |
| `Cpu9p.Handle.Mknod` | client/cpu9p.go:364-367 | the zero QID and ENOSYS, for all arguments |
| `Cpu9p.Handle.Rename` | client/cpu9p.go:370-373 | ENOSYS for all arguments |
| `Cpu9p.Handle.StatFS` | client/cpu9p.go:394-397 | ENOSYS |
| `Handshake.CreateThenWrite` | client/cpu9p.go:240-245 | Txattrcreate then Twrite at offset 0 sets the attribute to the written bytes with the staged flags and reports Go's `int(size)` of the staged size (the size itself below 2^63), whatever the buffer length; the create stays staged on the handle afterwards |
| `Handshake.WalkThenRead` | client/cpu9p.go:206-216 | Txattrwalk then Tread at offset 0 reads from the same path the same thing the walk measured: the list for an empty name, the named value otherwise. An empty buffer reads nothing |
| `Handshake.RenameThenNotify` | client/cpu9p.go:377-389 | after a successful Trenameat, the rename notification leaves the moved handle on exactly the destination path given to rename; after a failed one its path is unchanged |

## Findings

| source | as written | input that shows it | evidently intended | confidence | as-written member | corrected member |
|---|---|---|---|---|---|---|
| client/cpu9p.go:310 | `i := int(offset)` turns the unsigned Treaddir offset into a signed index | offset 2^63 with any listing: `i` is -2^63, passes `i < len(fi)`, and `fi[i]` panics with an out-of-range index | an offset at or past the end of the listing returns no entries | medium; not executed | `ReaddirSpec.HugeOffsetIndexesOutOfRange` | `ReaddirSpec.EntriesBounded` |

`Cpu9p.Handle.Readdir` uses the corrected reading: it treats the offset as
unsigned, and `ReaddirSpec.EntriesBounded` proves that an offset past the end
yields no entries.

## Left out

- The effect of the operating-system calls on the filesystem. A `Host` is one
  snapshot of the filesystem, so stat-then-act races are outside the model,
  and so is a device or FIFO whose repeated reads return different bytes.
- The bytes a descriptor read or write transfers, beyond what the host's reply
  says.
- Create's release of the new descriptor when its stat fails: the close result
  is discarded, so the model does not show the descriptor being released.
- FSync, Mkdir, Symlink, Link, Remove, UnlinkAt and Readlink: one-line
  wrappers around a single host call, with no logic of their own.
- Mkdir's and Symlink's blank QIDs come with those wrappers.
- The `p9.QIDType` mapping from mode bits and the `osflags` and
  `OpenFlags.OSFlags` translations live outside this file, so they are opaque
  host functions.
- `filepath.Join` and `path.Join` are one opaque host function. They agree on
  Unix, and no path-containment property is claimed.
- The `verbose` and `log.Printf` logging, including the dead logging branch in
  Readlink.
- Concurrency: the 9P engine serialises requests per fid, and nothing here
  synchronises.
- A `Renamed` parent that is not a `cpu9p` makes Go's type assertion panic.
  The model's parameter type rules that case out.
- Cpu9p.Handle.Readdir: an entry's offset is an unbounded number rather than a
  uint64. A Go slice is shorter than 2^63, so `uint64(i + 1)` never wraps.
- Cpu9p.Handle.StatFS: returns only the ENOSYS error, not the zero `p9.FSStat`
  that comes with it.
- Cpu9p.Handle.Readdir: `count` is accepted and ignored, as in the source.
