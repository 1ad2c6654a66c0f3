/** The request sequences a 9P client issues against one handle, with what
    each sequence achieves as a whole. */
module Handshake {
  import opened Base
  import opened Filesystem
  import opened Cpu9p

  /** Txattrcreate then Twrite at offset 0: the attribute is set to the written
      bytes with the staged flags, and the staged size is what the write
      reports. The create stays staged afterwards: the write does not clear it. */
  method CreateThenWrite(host: Host, h: Handle, attr: string, size: u64, flags: u32, value: seq<byte>)
    returns (staged: Option<Error>, written: WriteReply)
    modifies h`pending
    ensures staged == None
    ensures written.err == host.setXattr(h.path, attr, value, flags as int as i64)
    ensures written.n == IntOfU64(size)
    ensures size as int < TwoTo63 ==> written.n as int == size as int
    ensures h.pending == PendingXattr(CreateXattr, attr, size, flags)
    ensures h.path == old(h.path) && h.file == old(h.file)
  {
    staged := h.XattrCreate(attr, size, flags);
    written := h.WriteAt(host, value, 0);
  }

  /** Txattrwalk then Tread at offset 0: the read asks the same path for the
      same thing the walk measured (the attribute list for an empty name, the
      attribute's value otherwise), and the origin handle is left as it was. */
  method WalkThenRead(host: Host, h: Handle, attr: string, buffer: seq<byte>)
    returns (size: u64, walkErr: Option<Error>, read: ReadReply)
    ensures var probe := if attr == "" then host.listXattr(h.path, 0) else host.getXattr(h.path, attr, 0);
      size == U64OfInt(probe.n) && walkErr == probe.err
    ensures |buffer| == 0 ==> read == ReadReply(0, [], None)
    ensures |buffer| != 0 ==>
      read == if attr == "" then host.listXattr(h.path, |buffer|) else host.getXattr(h.path, attr, |buffer|)
  {
    var walked;
    walked, size, walkErr := h.XattrWalk(host, attr);
    read := walked.ReadAt(host, buffer, 0);
  }

  /** Trenameat from `dir` into `target`, then the rename notification to the
      moved file's handle: on success the handle tracks exactly the path the
      file was renamed to; on failure it keeps its path. */
  method RenameThenNotify(host: Host, dir: Handle, oldName: string, target: Handle, newName: string, moved: Handle)
    returns (err: Option<Error>)
    modifies moved`path
    ensures err == host.rename(host.join(old(dir.path), oldName), host.join(old(target.path), newName))
    ensures err == None ==> moved.path == host.join(old(target.path), newName)
    ensures err != None ==> moved.path == old(moved.path)
  {
    err := dir.RenameAt(host, oldName, Local(target), newName);
    if err == None {
      moved.Renamed(host, target, newName);
    }
  }
}
