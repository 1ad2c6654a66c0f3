/** What a directory read returns: one entry per listed name from the
    requested position on, except names whose stat fails. */
module ReaddirSpec {
  import opened Base
  import opened Filesystem

  /** The directory entry for listing position `i`, or nothing when the named path cannot be stat-ed. */
  function EntryAt(host: Host, dir: Path, names: seq<string>, i: nat): Option<Dirent>
    requires i < |names|
  {
    match Identify(host, host.join(dir, names[i]), None)
    case Ok(st) => Some(Dirent(st.qid, st.qid.typ, names[i], i + 1))
    case Err(_) => None
  }

  /** The entries for listing positions `i`, `i + 1`, ... in order. */
  function Entries(host: Host, dir: Path, names: seq<string>, i: nat): seq<Dirent>
    decreases |names| - i
  {
    if |names| <= i then []
    else
      var rest := Entries(host, dir, names, i + 1);
      match EntryAt(host, dir, names, i)
      case Some(d) => [d] + rest
      case None => rest
  }

  /** A directory entry that faithfully reports listing position `d.offset - 1`. */
  predicate FromListing(host: Host, dir: Path, names: seq<string>, d: Dirent) {
    && 1 <= d.offset <= |names|
    && d.name == names[d.offset - 1]
    && Identify(host, host.join(dir, d.name), None).Ok?
    && d.qid == Identify(host, host.join(dir, d.name), None).value.qid
    && d.typ == d.qid.typ
  }

  /** At most one entry per listing position from `i` on; none when `i` is past the end. */
  lemma {:induction false} EntriesBounded(host: Host, dir: Path, names: seq<string>, i: nat)
    ensures |names| <= i ==> Entries(host, dir, names, i) == []
    ensures i <= |names| ==> |Entries(host, dir, names, i)| <= |names| - i
    decreases |names| - i
  {
    if i < |names| {
      EntriesBounded(host, dir, names, i + 1);
    }
  }

  /** Every entry comes from a listing position at or after `i`, with that
      position's name and the QID of the joined path. */
  lemma {:induction false} EntriesFromListing(host: Host, dir: Path, names: seq<string>, i: nat)
    ensures forall m :: 0 <= m < |Entries(host, dir, names, i)| ==>
      i < Entries(host, dir, names, i)[m].offset && FromListing(host, dir, names, Entries(host, dir, names, i)[m])
    decreases |names| - i
  {
    if i < |names| {
      EntriesFromListing(host, dir, names, i + 1);
    }
  }

  /** Entries appear in strictly increasing listing order. */
  lemma {:induction false} EntriesIncreasing(host: Host, dir: Path, names: seq<string>, i: nat)
    ensures forall a, b :: 0 <= a < b < |Entries(host, dir, names, i)| ==>
      Entries(host, dir, names, i)[a].offset < Entries(host, dir, names, i)[b].offset
    decreases |names| - i
  {
    if i < |names| {
      EntriesIncreasing(host, dir, names, i + 1);
      EntriesFromListing(host, dir, names, i + 1);
    }
  }

  /** Whether some entry in `es` reports listing position `j`. */
  predicate Reports(es: seq<Dirent>, j: nat) {
    exists m :: 0 <= m < |es| && es[m].offset == j + 1
  }

  /** A listing position at or after `i` is left out only when its stat fails. */
  lemma {:induction false} EntriesComplete(host: Host, dir: Path, names: seq<string>, i: nat)
    ensures forall j: nat :: i <= j < |names| && Identify(host, host.join(dir, names[j]), None).Ok? ==>
      Reports(Entries(host, dir, names, i), j)
    decreases |names| - i
  {
    if i < |names| {
      EntriesComplete(host, dir, names, i + 1);
      var es := Entries(host, dir, names, i);
      var rest := Entries(host, dir, names, i + 1);
      forall j: nat | i <= j < |names| && Identify(host, host.join(dir, names[j]), None).Ok?
        ensures Reports(es, j)
      {
        if j == i {
          assert es[0].offset == j + 1;
        } else {
          var m' :| 0 <= m' < |rest| && rest[m'].offset == j + 1;
          if EntryAt(host, dir, names, i).Some? {
            assert es[m' + 1] == rest[m'];
          } else {
            assert es[m'] == rest[m'];
          }
        }
      }
    }
  }

  /** The start index Go's `int(offset)` gives, as the source computes it. */
  function StartIndexAsWritten(offset: u64): (i: i64)
    ensures offset as int < TwoTo63 ==> i as int == offset as int
  {
    IntOfU64(offset)
  }

  /** For offsets of 2^63 and above the start index is negative: the loop guard
      `i < len(fi)` admits it for every listing, and `fi[i]` is out of range. */
  lemma HugeOffsetIndexesOutOfRange(offset: u64, names: seq<string>)
    requires TwoTo63 <= offset as int
    ensures StartIndexAsWritten(offset) as int < |names|
    ensures !(0 <= StartIndexAsWritten(offset) as int < |names|)
  {
  }
}
