/** The cpu9p file handle: a 9P2000.L file served from a local path, with the
    extended-attribute operation staged on it by Txattrwalk or Txattrcreate. */
module Cpu9p {
  import opened Base
  import opened Filesystem
  import opened WalkSpec
  import opened ReaddirSpec

  /** The staged extended-attribute operation: xattrNone (0), xattrCreate (1) or xattrWalk (2). */
  datatype XattrOp = NoXattr | CreateXattr | WalkXattr

  /** The attribute a staged operation names, the size of its value, and the
      setxattr(2) flags a Txattrcreate carried. */
  datatype PendingXattr = PendingXattr(op: XattrOp, name: string, size: u64, flags: u32)

  /** The zero value of the staged operation: nothing staged. */
  const NoPending: PendingXattr := PendingXattr(NoXattr, "", 0, 0)

  /** A `p9.File` handed to this server: one of its own handles, or a file of another implementation. */
  datatype Peer = Local(h: Handle) | Foreign

  class Handle {
    var path: Path
    var file: Option<Descriptor>
    var pending: PendingXattr

    /** `&cpu9p{path: path}`: no descriptor, nothing staged. */
    constructor (path: Path)
      ensures this.path == path && file == None && pending == NoPending
    {
      this.path := path;
      file := None;
      pending := NoPending;
    }

    /** The root handle of an attach: the server's path, no descriptor, nothing staged. */
    method Attach() returns (root: Handle, err: Option<Error>)
      ensures fresh(root) && err == None
      ensures root.path == path && root.file == None && root.pending == NoPending
    {
      root := new Handle(path);
      err := None;
    }

    /** The identity of the file this handle refers to (`info`). */
    function Info(host: Host): Result<Stat, Error>
      reads this
    {
      Identify(host, path, file)
    }

    /** Txattrwalk: probes the attribute list (empty name) or one attribute's
        value with an empty buffer, and returns a new handle on the same path
        that stages reading it. The handle is returned even when the probe fails. */
    method XattrWalk(host: Host, attr: string) returns (walked: Handle, size: u64, err: Option<Error>)
      ensures fresh(walked)
      ensures var probe := if attr == "" then host.listXattr(path, 0) else host.getXattr(path, attr, 0);
        && size == U64OfInt(probe.n)
        && (0 <= probe.n ==> size as int == probe.n as int)
        && err == probe.err
      ensures walked.path == path && walked.file == None
      ensures walked.pending == PendingXattr(WalkXattr, attr, size, 0)
    {
      var probe;
      if attr == "" {
        probe := host.listXattr(path, 0);
      } else {
        probe := host.getXattr(path, attr, 0);
      }
      walked := new Handle(path);
      walked.pending := PendingXattr(WalkXattr, attr, U64OfInt(probe.n), 0);
      size := U64OfInt(probe.n);
      err := probe.err;
    }

    /** Txattrcreate: stages writing attribute `attr` on this handle. Touches no file. */
    method XattrCreate(attr: string, size: u64, flags: u32) returns (err: Option<Error>)
      modifies this`pending
      ensures pending == PendingXattr(CreateXattr, attr, size, flags)
      ensures path == old(path) && file == old(file)
      ensures err == None
    {
      pending := PendingXattr(CreateXattr, attr, size, flags);
      err := None;
    }

    /** Twalk: with no names, re-stats this handle's path and returns its QID
        and a new handle on the same path; with names, stats each joined prefix
        in turn and returns all their QIDs and a handle on the last one. Any
        failed stat fails the whole walk: no QIDs and no handle. */
    method Walk(host: Host, names: seq<string>) returns (qids: seq<Qid>, walked: Handle?, err: Option<Error>)
      ensures err.None? <==> WalkQids(host, path, names).Ok?
      ensures WalkQids(host, path, names).Ok? ==>
        && qids == WalkQids(host, path, names).value
        && walked != null && fresh(walked)
        && walked.path == JoinAll(host.join, path, names)
        && walked.file == None && walked.pending == NoPending
      ensures WalkQids(host, path, names).Err? ==>
        && err == Some(WalkQids(host, path, names).error)
        && qids == [] && walked == null
    {
      var last := new Handle(path);
      if |names| == 0 {
        var c := new Handle(last.path);
        var st := c.Info(host);
        if st.Err? {
          return [], null, Some(st.error);
        }
        return [st.value.qid], last, None;
      }
      qids := [];
      var i := 0;
      assert names[i..] == names;
      PrependNothing(Resolve(host, path, names));
      while i < |names|
        invariant 0 <= i <= |names|
        invariant fresh(last) && last.file == None && last.pending == NoPending
        invariant last.path == JoinAll(host.join, path, names[..i])
        invariant Resolve(host, path, names) == Prepend(qids, Resolve(host, last.path, names[i..]))
      {
        var c := new Handle(host.join(last.path, names[i]));
        var st := c.Info(host);
        if st.Err? {
          return [], null, Some(st.error);
        }
        assert names[i..][1..] == names[i + 1..];
        PrependTwice(qids, [st.value.qid], Resolve(host, c.path, names[i + 1..]));
        qids := qids + [st.value.qid];
        assert names[..i + 1] == names[..i] + [names[i]];
        JoinAllSnoc(host.join, path, names[..i], names[i]);
        last := c;
        i := i + 1;
      }
      assert names[..i] == names;
      walked, err := last, None;
    }

    /** Tclunk's release of the descriptor: nothing to do, and no error, when none is held. */
    function Close(host: Host): (err: Option<Error>)
      reads this
      ensures file == None ==> err == None
      ensures file != None ==> err == host.close(file.value)
    {
      if file.Some? then host.close(file.value) else None
    }

    /** Tlopen: stats the file, opens its path with the flags derived from the
        stat and the 9P mode, and keeps the descriptor. The I/O unit is always 0
        (the client picks its own). A failure leaves the handle as it was. */
    method Open(host: Host, mode: u32) returns (qid: Qid, iounit: u32, err: Option<Error>)
      modifies this`file
      ensures iounit == 0 && path == old(path) && pending == old(pending)
      ensures Identify(host, path, old(file)).Err? ==>
        && qid == ZeroQid && err == Some(Identify(host, path, old(file)).error) && file == old(file)
      ensures Identify(host, path, old(file)).Ok? ==>
        var st := Identify(host, path, old(file)).value;
        var attempt := host.openFile(path, host.openFlags(st.fi, mode), 0);
        && qid == st.qid
        && (attempt.Err? ==> err == Some(attempt.error) && file == old(file))
        && (attempt.Ok? ==> err == None && file == Some(attempt.value))
    {
      var st := Info(host);
      if st.Err? {
        return ZeroQid, 0, Some(st.error);
      }
      qid := st.value.qid;
      var attempt := host.openFile(path, host.openFlags(st.value.fi, mode), 0);
      if attempt.Err? {
        return qid, 0, Some(attempt.error);
      }
      file := Some(attempt.value);
      iounit, err := 0, None;
    }

    /** Tread. With nothing staged it reads from the descriptor. With an
        attribute walk staged, an empty buffer succeeds with nothing read before
        the offset is looked at; otherwise the offset must be 0 and the
        attribute list (empty name) or the named attribute's value is read.
        With an attribute create staged, reading is invalid. */
    function ReadAt(host: Host, p: seq<byte>, offset: i64): (r: ReadReply)
      reads this
      ensures pending.op == NoXattr ==> r == host.readAt(file, |p|, offset)
      ensures pending.op == WalkXattr && |p| == 0 ==> r == ReadReply(0, [], None)
      ensures pending.op == WalkXattr && |p| != 0 && offset != 0 ==> r == ReadReply(0, [], Some(EINVAL))
      ensures pending.op == WalkXattr && |p| != 0 && offset == 0 ==>
        r == if pending.name == "" then host.listXattr(path, |p|) else host.getXattr(path, pending.name, |p|)
      ensures pending.op == CreateXattr ==> r == ReadReply(0, [], Some(EINVAL))
    {
      match pending.op
      case NoXattr => host.readAt(file, |p|, offset)
      case WalkXattr =>
        if |p| == 0 then ReadReply(0, [], None)
        else if offset != 0 then ReadReply(0, [], Some(EINVAL))
        else if pending.name == "" then host.listXattr(path, |p|)
        else host.getXattr(path, pending.name, |p|)
      case CreateXattr => ReadReply(0, [], Some(EINVAL))
    }

    /** Twrite. With nothing staged it writes through the descriptor, falling
        back to an unpositioned write only when the positioned write is refused
        because the file was opened with O_APPEND. With an attribute create
        staged, the offset must be 0; the attribute is set to the buffer with
        the staged flags and the count reported is the staged size, whatever
        the buffer's length. With an attribute walk staged, writing is invalid. */
    function WriteAt(host: Host, p: seq<byte>, offset: i64): (r: WriteReply)
      reads this
      ensures pending.op == NoXattr ==>
        var positioned := host.writeAt(file, p, offset);
        r == if positioned.err.Some? && IsAppendModeError(positioned.err.value) then host.write(file, p) else positioned
      ensures pending.op == CreateXattr && offset != 0 ==> r == WriteReply(0, Some(EINVAL))
      ensures pending.op == CreateXattr && offset == 0 ==>
        && r.n == IntOfU64(pending.size)
        && (pending.size as int < TwoTo63 ==> r.n as int == pending.size as int)
        && r.err == host.setXattr(path, pending.name, p, pending.flags as int as i64)
      ensures pending.op == WalkXattr ==> r == WriteReply(0, Some(EINVAL))
    {
      match pending.op
      case NoXattr =>
        var positioned := host.writeAt(file, p, offset);
        if positioned.err.Some? && IsAppendModeError(positioned.err.value) then host.write(file, p) else positioned
      case CreateXattr =>
        if offset != 0 then WriteReply(0, Some(EINVAL))
        else WriteReply(IntOfU64(pending.size), host.setXattr(path, pending.name, p, pending.flags as int as i64))
      case WalkXattr => WriteReply(0, Some(EINVAL))
    }

    /** Tlcreate: opens `name` under this handle's path with O_CREAT added to
        the 9P mode's flags, and returns a new handle holding the descriptor
        with the QID of the new file. On failure there is no handle and the QID
        is zero. The I/O unit is always 0. */
    method Create(host: Host, name: string, mode: u32, permissions: u32, uid: u32, gid: u32)
      returns (child: Handle?, qid: Qid, iounit: u32, err: Option<Error>)
      ensures iounit == 0
      ensures var attempt := host.openFile(host.join(path, name), O_CREAT | host.createFlags(mode), permissions);
        && (attempt.Err? ==> child == null && qid == ZeroQid && err == Some(attempt.error))
        && (attempt.Ok? && host.fstat(attempt.value).Err? ==>
              child == null && qid == ZeroQid && err == Some(host.fstat(attempt.value).error))
        && (attempt.Ok? && host.fstat(attempt.value).Ok? ==>
              && child != null && fresh(child)
              && child.path == host.join(path, name) && child.file == Some(attempt.value)
              && child.pending == NoPending
              && qid == QidOf(host, host.fstat(attempt.value).value) && err == None)
    {
      var attempt := host.openFile(host.join(path, name), O_CREAT | host.createFlags(mode), permissions);
      if attempt.Err? {
        return null, ZeroQid, 0, Some(attempt.error);
      }
      var created := new Handle(host.join(path, name));
      created.file := Some(attempt.value);
      var st := created.Info(host);
      if st.Err? {
        var _ := created.Close(host);
        return null, ZeroQid, 0, Some(st.error);
      }
      child, qid, iounit, err := created, st.value.qid, 0, None;
    }

    /** Treaddir: lists the directory and returns, from listing position
        `offset` on, an entry for every name whose joined path can be stat-ed.
        A name that cannot be stat-ed is skipped; only a failed listing is an
        error. `count` is not enforced here. */
    method Readdir(host: Host, offset: u64, count: u32) returns (dirents: seq<Dirent>, err: Option<Error>)
      ensures host.readDir(path).Err? ==> dirents == [] && err == Some(host.readDir(path).error)
      ensures host.readDir(path).Ok? ==>
        err == None && dirents == Entries(host, path, host.readDir(path).value, offset as nat)
    {
      var listing := host.readDir(path);
      if listing.Err? {
        return [], Some(listing.error);
      }
      var names := listing.value;
      dirents := [];
      var i: nat := offset as nat;
      while i < |names|
        invariant dirents + Entries(host, path, names, i) == Entries(host, path, names, offset as nat)
        decreases |names| - i
      {
        var entry := new Handle(host.join(path, names[i]));
        var st := entry.Info(host);
        if st.Ok? {
          assert EntryAt(host, path, names, i) == Some(Dirent(st.value.qid, st.value.qid.typ, names[i], i + 1));
          dirents := dirents + [Dirent(st.value.qid, st.value.qid.typ, names[i], i + 1)];
        }
        i := i + 1;
      }
      err := None;
    }

    /** Tflush: there is nothing buffered, so it always succeeds. */
    function Flush(): (err: Option<Error>)
      ensures err == None
    {
      None
    }

    /** The rename notification: this handle now refers to `newName` in `parent`'s directory. */
    method Renamed(host: Host, parent: Handle, newName: string)
      modifies this`path
      ensures path == host.join(old(parent.path), newName)
      ensures file == old(file) && pending == old(pending)
    {
      path := host.join(parent.path, newName);
    }

    /** Trenameat: renames `oldName` in this directory to `newName` in `newDir`,
        which must be one of this server's handles. No containment check is made. */
    function RenameAt(host: Host, oldName: string, newDir: Peer, newName: string): (err: Option<Error>)
      reads this, if newDir.Local? then {newDir.h} else {}
      ensures newDir.Foreign? ==> err == Some(ErrInvalid)
      ensures newDir.Local? ==> err == host.rename(host.join(path, oldName), host.join(newDir.h.path, newName))
    {
      match newDir
      case Foreign => Some(ErrInvalid)
      case Local(nd) => host.rename(host.join(path, oldName), host.join(nd.path, newName))
    }

    /** Tmknod is not supported. */
    function Mknod(name: string, mode: u32, major: u32, minor: u32, uid: u32, gid: u32): (r: (Qid, Error))
      ensures r == (ZeroQid, ENOSYS)
    {
      (ZeroQid, ENOSYS)
    }

    /** Trename, the single-name form, is not supported. */
    function Rename(directory: Peer, name: string): (err: Option<Error>)
      ensures err == Some(ENOSYS)
    {
      Some(ENOSYS)
    }

    /** Tstatfs is not supported. */
    function StatFS(): (err: Error)
      ensures err == ENOSYS
    {
      ENOSYS
    }
  }
}
