/** What a 9P walk from one path resolves to: the QIDs of the successive
    prefixes of the walked names, all or nothing. */
module WalkSpec {
  import opened Base
  import opened Filesystem

  /** The path reached after walking the first `k + 1` names. */
  function PrefixPath(host: Host, p: Path, names: seq<string>, k: nat): Path
    requires k < |names|
  {
    JoinAll(host.join, p, names[..k + 1])
  }

  /** Adds QIDs resolved so far in front of the outcome of the rest of a walk. */
  function Prepend(qids: seq<Qid>, rest: Result<seq<Qid>, Error>): Result<seq<Qid>, Error> {
    match rest
    case Ok(more) => Ok(qids + more)
    case Err(e) => Err(e)
  }

  lemma PrependNothing(r: Result<seq<Qid>, Error>)
    ensures Prepend([], r) == r
  {
    if r.Ok? { assert [] + r.value == r.value; }
  }

  lemma PrependTwice(first: seq<Qid>, second: seq<Qid>, r: Result<seq<Qid>, Error>)
    ensures Prepend(first, Prepend(second, r)) == Prepend(first + second, r)
  {
    if r.Ok? { assert first + (second + r.value) == (first + second) + r.value; }
  }

  /** Walks `names` from `p` left to right, stat-ing each joined path without
      following a final link; the first failed stat ends the walk with its error. */
  function Resolve(host: Host, p: Path, names: seq<string>): Result<seq<Qid>, Error>
    decreases |names|
  {
    if names == [] then Ok([])
    else
      var next := host.join(p, names[0]);
      match Identify(host, next, None)
      case Err(e) => Err(e)
      case Ok(st) => Prepend([st.qid], Resolve(host, next, names[1..]))
  }

  /** The QIDs a walk returns: for no names the current path's own QID, for
      some names the QID of every prefix. */
  function WalkQids(host: Host, p: Path, names: seq<string>): (r: Result<seq<Qid>, Error>)
    ensures names == [] ==> (r.Ok? <==> Identify(host, p, None).Ok?)
    ensures names == [] && r.Ok? ==> r.value == [Identify(host, p, None).value.qid]
    ensures names == [] && r.Err? ==> r.error == Identify(host, p, None).error
  {
    if names == [] then
      match Identify(host, p, None)
      case Ok(st) => Ok([st.qid])
      case Err(e) => Err(e)
    else Resolve(host, p, names)
  }

  /** The k-th prefix after the first name is the (k-1)-th prefix of the rest of the walk. */
  lemma PrefixPathStep(host: Host, p: Path, names: seq<string>, k: nat)
    requires 1 <= k < |names|
    ensures PrefixPath(host, p, names, k) == PrefixPath(host, host.join(p, names[0]), names[1..], k - 1)
  {
    assert names[..k + 1][0] == names[0];
    assert names[..k + 1][1..] == names[1..][..k];
  }

  lemma PrefixPathFirst(host: Host, p: Path, names: seq<string>)
    requires 0 < |names|
    ensures PrefixPath(host, p, names, 0) == host.join(p, names[0])
  {
    assert names[..1][0] == names[0];
    assert names[..1][1..] == [];
    assert JoinAll(host.join, host.join(p, names[0]), []) == host.join(p, names[0]);
  }

  /** A walk succeeds exactly when every prefix path can be stat-ed, and then
      it returns one QID per name, the k-th being that of the k-th prefix. */
  lemma {:induction false} ResolveSucceeds(host: Host, p: Path, names: seq<string>)
    ensures Resolve(host, p, names).Ok? <==>
      forall k :: 0 <= k < |names| ==> Identify(host, PrefixPath(host, p, names, k), None).Ok?
    ensures Resolve(host, p, names).Ok? ==>
      && |Resolve(host, p, names).value| == |names|
      && forall k :: 0 <= k < |names| ==>
           Resolve(host, p, names).value[k] == Identify(host, PrefixPath(host, p, names, k), None).value.qid
    decreases |names|
  {
    if names != [] {
      var next := host.join(p, names[0]);
      PrefixPathFirst(host, p, names);
      ResolveSucceeds(host, next, names[1..]);
      forall k | 1 <= k < |names|
        ensures PrefixPath(host, p, names, k) == PrefixPath(host, next, names[1..], k - 1)
      {
        PrefixPathStep(host, p, names, k);
      }
      if Identify(host, next, None).Ok? && Resolve(host, next, names[1..]).Ok? {
        var rest := Resolve(host, next, names[1..]).value;
        assert Resolve(host, p, names).value == [Identify(host, next, None).value.qid] + rest;
      } else if Identify(host, next, None).Ok? {
        var k' :| 0 <= k' < |names| - 1 && !Identify(host, PrefixPath(host, next, names[1..], k'), None).Ok?;
        assert !Identify(host, PrefixPath(host, p, names, k' + 1), None).Ok?;
      }
    }
  }

  /** A failed walk reports the error of the first prefix path that cannot be
      stat-ed; every prefix before it could be. */
  lemma {:induction false} ResolveFirstError(host: Host, p: Path, names: seq<string>)
    ensures Resolve(host, p, names).Err? ==>
      exists j :: 0 <= j < |names|
        && Identify(host, PrefixPath(host, p, names, j), None) == Err(Resolve(host, p, names).error)
        && forall k :: 0 <= k < j ==> Identify(host, PrefixPath(host, p, names, k), None).Ok?
    decreases |names|
  {
    if names != [] && Resolve(host, p, names).Err? {
      var next := host.join(p, names[0]);
      PrefixPathFirst(host, p, names);
      if Identify(host, next, None).Err? {
        assert Identify(host, PrefixPath(host, p, names, 0), None) == Err(Resolve(host, p, names).error);
      } else {
        ResolveFirstError(host, next, names[1..]);
        var j :| 0 <= j < |names| - 1
          && Identify(host, PrefixPath(host, next, names[1..], j), None) == Err(Resolve(host, next, names[1..]).error)
          && forall k :: 0 <= k < j ==> Identify(host, PrefixPath(host, next, names[1..], k), None).Ok?;
        PrefixPathStep(host, p, names, j + 1);
        forall k | 0 <= k < j + 1
          ensures Identify(host, PrefixPath(host, p, names, k), None).Ok?
        {
          if k > 0 { PrefixPathStep(host, p, names, k); }
        }
        assert Identify(host, PrefixPath(host, p, names, j + 1), None) == Err(Resolve(host, p, names).error);
      }
    }
  }
}
