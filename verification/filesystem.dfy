/** The host the file server runs on, as an oracle: every operating-system and
    library call the server makes is a total function of its arguments. One
    `Host` value is one snapshot of the filesystem, taken across a request or
    a sequence of requests: the same call with the same arguments gives the
    same result within it. */
module Filesystem {
  import opened Base

  type Path = string

  /** An open `*os.File`. */
  datatype Descriptor = Descriptor(fd: nat)

  /** The parts of an `os.FileInfo` the server uses: its mode bits and its inode number. */
  datatype FileInfo = FileInfo(mode: u32, ino: u64)

  /** A 9P QID: the file's type, a version the server leaves zero, and a unique path (the inode). */
  datatype Qid = Qid(typ: byte, version: u32, path: u64)

  const ZeroQid: Qid := Qid(0, 0, 0)

  /** A 9P directory entry; `offset` is the listing position from which the next read resumes. */
  datatype Dirent = Dirent(qid: Qid, typ: byte, name: string, offset: nat)

  /** What a read-like call returns: a count, the bytes it left at the front of
      the caller's buffer, and an error or nil. */
  datatype ReadReply = ReadReply(n: i64, data: seq<byte>, err: Option<Error>)

  /** What a write-like call returns: a count and an error or nil. */
  datatype WriteReply = WriteReply(n: i64, err: Option<Error>)

  /** `os.O_CREATE` on Linux. */
  const O_CREAT: bv32 := 0x40

  datatype Host = Host(
    join: (Path, string) -> Path,                          // filepath.Join and path.Join
    lstat: Path -> Result<FileInfo, Error>,                // os.Lstat
    fstat: Descriptor -> Result<FileInfo, Error>,          // (*os.File).Stat
    qidType: u32 -> byte,                                  // p9.ModeFromOS(mode).QIDType()
    openFlags: (FileInfo, u32) -> bv32,                    // osflags(fi, mode)
    createFlags: u32 -> bv32,                              // mode.OSFlags()
    openFile: (Path, bv32, u32) -> Result<Descriptor, Error>, // os.OpenFile
    close: Descriptor -> Option<Error>,                    // (*os.File).Close
    readAt: (Option<Descriptor>, nat, i64) -> ReadReply,   // (*os.File).ReadAt, buffer length and offset
    writeAt: (Option<Descriptor>, seq<byte>, i64) -> WriteReply, // (*os.File).WriteAt
    write: (Option<Descriptor>, seq<byte>) -> WriteReply,  // (*os.File).Write
    readDir: Path -> Result<seq<string>, Error>,           // ioutil.ReadDir, entry names in its order
    listXattr: (Path, nat) -> ReadReply,                   // unix.Llistxattr, buffer length
    getXattr: (Path, string, nat) -> ReadReply,            // unix.Lgetxattr, buffer length
    setXattr: (Path, string, seq<byte>, i64) -> Option<Error>, // unix.Lsetxattr
    rename: (Path, Path) -> Option<Error>                  // os.Rename
  )

  /** The QID the server derives from a stat result. */
  function QidOf(host: Host, fi: FileInfo): (q: Qid)
    ensures q.typ == host.qidType(fi.mode) && q.path == fi.ino && q.version == 0
  {
    Qid(host.qidType(fi.mode), 0, fi.ino)
  }

  /** A stat result together with the QID derived from it. */
  datatype Stat = Stat(qid: Qid, fi: FileInfo)

  /** The stat behind a handle's identity: of its descriptor when it holds one,
      otherwise of its path without following a final symbolic link. */
  function Identify(host: Host, path: Path, file: Option<Descriptor>): (r: Result<Stat, Error>)
    ensures var s := if file.Some? then host.fstat(file.value) else host.lstat(path);
      && (r.Ok? <==> s.Ok?)
      && (r.Ok? ==> r.value.fi == s.value && r.value.qid.typ == host.qidType(s.value.mode)
                    && r.value.qid.path == s.value.ino && r.value.qid.version == 0)
      && (r.Err? ==> r.error == s.error)
  {
    var s := if file.Some? then host.fstat(file.value) else host.lstat(path);
    match s
    case Ok(fi) => Ok(Stat(QidOf(host, fi), fi))
    case Err(e) => Err(e)
  }

  /** The path reached from `p` by joining `names` one after another, left to right. */
  function JoinAll(join: (Path, string) -> Path, p: Path, names: seq<string>): Path
    decreases |names|
  {
    if names == [] then p else JoinAll(join, join(p, names[0]), names[1..])
  }

  /** Joining one more name extends the fold by one step. */
  lemma {:induction false} JoinAllSnoc(join: (Path, string) -> Path, p: Path, names: seq<string>, n: string)
    ensures JoinAll(join, p, names + [n]) == join(JoinAll(join, p, names), n)
    decreases |names|
  {
    if names == [] {
      assert [] + [n] == [n];
      assert [n][1..] == [];
    } else {
      assert (names + [n])[0] == names[0];
      assert (names + [n])[1..] == names[1..] + [n];
      JoinAllSnoc(join, join(p, names[0]), names[1..], n);
    }
  }
}
