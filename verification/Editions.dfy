/**
 A source that changes over time: one synchronisation after the other into the same volume
 (internal/planner/apply_filesets.go:93-178).
 */
module Editions {
  import opened Text
  import opened FilesetIndex
  import opened VolumeTree

  /** A state of the source and its index. */
  datatype Edition = Edition(src: Files, local: Index)

  /** The volume after synchronising one edition after the other. */
  ghost function Synchronised(v: Volume, eds: seq<Edition>, planned: bool): Try {
    if eds == [] then Left(v) else
      var before := Synchronised(v, eds[..|eds| - 1], planned);
      if before.Left? then Tried(before.v, eds[|eds| - 1].src, eds[|eds| - 1].local, planned) else before
  }

  /** The index a synchronisation of edition `i` finds. */
  function IndexBefore(first: Index, eds: seq<Edition>, i: nat): Index
    requires i <= |eds|
  {
    if i == 0 then first else eds[i - 1].local
  }

  /** Every edition is indexed, spares the index file's name, and turns no file of its predecessor into a directory. */
  ghost predicate Tame(h: string -> string, first: Index, eds: seq<Edition>) {
    forall i :: 0 <= i < |eds| ==>
      && IsLocal(h, eds[i].local, eds[i].src) && PrefixFree(eds[i].src.Keys) && Clear(eds[i].src.Keys)
      && NoFileBecameDir(IndexBefore(first, eds, i), eds[i].src)
  }

  /** Some edition, or the index at the start, has the path. */
  ghost predicate EverManaged(first: Index, eds: seq<Edition>, p: string) {
    p in Paths(first.files) || exists i :: 0 <= i < |eds| && p in eds[i].src
  }

  /** Some edition has a file at, above or below the path. */
  ghost predicate EverInTheWay(eds: seq<Edition>, p: string) {
    exists i :: 0 <= i < |eds| && (p in eds[i].src || ClashesWith(p, eds[i].src.Keys))
  }

  /** After some editions: the last one is in place, what only earlier ones had is gone, everything else is as at the start. */
  ghost predicate Followed(h: string -> string, v: Volume, eds: seq<Edition>, u: Volume) {
    var first := RemoteOf(v.stored);
    && u.labelled == v.labelled
    && (if eds == [] then u == v else Kept(h, u, eds[|eds| - 1].src, eds[|eds| - 1].local))
    && (forall p :: p in u.files && EverManaged(first, eds, p) && !Blank(p) ==> p in Paths(IndexBefore(first, eds, |eds|).files))
    && (forall p :: !EverManaged(first, eds, p) && !EverInTheWay(eds, p) ==> SameAt(v.files, u.files, p))
  }

  lemma {:induction false} FollowedStep(h: string -> string, v: Volume, front: seq<Edition>, last: Edition, u: Volume, u': Volume)
    requires Followed(h, v, front, u) && Tame(h, RemoteOf(v.stored), front + [last]) && Kept(h, u', last.src, last.local) && u'.labelled == u.labelled
    requires forall p :: Fate(u.files, IndexBefore(RemoteOf(v.stored), front, |front|), last.src, u'.files, p)
    ensures Followed(h, v, front + [last], u')
  {
    hide Kept, IsLocal, PrefixFree, Clear, NoFileBecameDir;
    var first, eds := RemoteOf(v.stored), front + [last];
    assert eds[..|front|] == front && eds[|front|] == last;
    LocalPaths(h, last.local, last.src);
    forall p | p in u'.files && EverManaged(first, eds, p) && !Blank(p) ensures p in last.src {
      assert Fate(u.files, IndexBefore(first, front, |front|), last.src, u'.files, p);
      if p !in last.src { ManagedBefore(first, front, last, p); }
    }
    forall p | !EverManaged(first, eds, p) && !EverInTheWay(eds, p) ensures SameAt(v.files, u'.files, p) {
      NotBefore(first, front, last, p);
      assert Fate(u.files, IndexBefore(first, front, |front|), last.src, u'.files, p);
      assert SameAt(v.files, u.files, p);
      if p in Paths(IndexBefore(first, front, |front|).files) { IndexedWasManaged(h, first, front, last, p); }
    }
  }

  lemma {:induction false} ManagedBefore(first: Index, front: seq<Edition>, last: Edition, p: string)
    requires EverManaged(first, front + [last], p) && p !in last.src
    ensures EverManaged(first, front, p)
  {
    var eds := front + [last];
    if p !in Paths(first.files) {
      var i :| 0 <= i < |eds| && p in eds[i].src;
      assert front[i] == eds[i];
    }
  }

  lemma {:induction false} NotBefore(first: Index, front: seq<Edition>, last: Edition, p: string)
    requires !EverManaged(first, front + [last], p) && !EverInTheWay(front + [last], p)
    ensures !EverManaged(first, front, p) && !EverInTheWay(front, p) && p !in last.src && !ClashesWith(p, last.src.Keys)
  {
    var eds := front + [last];
    assert eds[|front|] == last;
    assert forall i :: 0 <= i < |front| ==> eds[i] == front[i];
  }

  lemma {:induction false} IndexedWasManaged(h: string -> string, first: Index, front: seq<Edition>, last: Edition, p: string)
    requires Tame(h, first, front + [last]) && p in Paths(IndexBefore(first, front, |front|).files)
    ensures EverManaged(first, front, p)
  {
    if |front| > 0 {
      var e := front[|front| - 1];
      assert (front + [last])[|front| - 1] == e;
      LocalPaths(h, e.local, e.src);
    }
  }

  lemma {:induction false} TameFront(h: string -> string, first: Index, eds: seq<Edition>)
    requires Tame(h, first, eds) && eds != []
    ensures Tame(h, first, eds[..|eds| - 1])
    ensures var e := eds[|eds| - 1];
            && IsLocal(h, e.local, e.src) && PrefixFree(e.src.Keys) && Clear(e.src.Keys)
            && NoFileBecameDir(IndexBefore(first, eds[..|eds| - 1], |eds| - 1), e.src)
  {
    hide IsLocal, PrefixFree, Clear, NoFileBecameDir;
    var front := eds[..|eds| - 1];
    forall i | 0 <= i < |front| ensures front[i] == eds[i] && IndexBefore(first, front, i) == IndexBefore(first, eds, i) {}
    assert IndexBefore(first, front, |front|) == IndexBefore(first, eds, |front|);
  }

  /** What a volume must be like for the first edition. */
  ghost predicate Start(h: string -> string, v: Volume) {
    var first := RemoteOf(v.stored);
    && Digests(h) && !v.stored.Torn? && PrefixFree(v.files.Keys) && (IsBuilt(h, first) || first == EmptyIndex)
    && Agrees(h, v.files, first) && Beside(v.files, first) && !Blocked(v.files)
  }

  /**
   Synchronising any sequence of tame editions of a source succeeds each time. Afterwards the last
   edition is in place, files that only earlier editions or the first index had are gone, and every
   path that no edition had or was in the way of is as it was.
   */
  lemma {:induction false} EditionsFollowed(h: string -> string, v: Volume, eds: seq<Edition>, planned: bool)
    requires Reads(v, planned) && Start(h, v) && Tame(h, RemoteOf(v.stored), eds)
    ensures Synchronised(v, eds, planned).Left? && Followed(h, v, eds, Synchronised(v, eds, planned).v)
  {
    hide Tried, Tame, Followed, Start, IsLocal, PrefixFree, Clear, NoFileBecameDir, Kept, Fate, IndexBefore;
    if eds == [] {
      NothingFollowed(h, v);
    } else {
      var front, last, first := eds[..|eds| - 1], eds[|eds| - 1], RemoteOf(v.stored);
      assert eds == front + [last];
      TameFront(h, first, eds);
      EditionsFollowed(h, v, front, planned);
      var u := Synchronised(v, front, planned).v;
      NextPremises(h, v, front, last, u, planned);
      SyncReestablishes(h, u, last.src, last.local, planned);
      FollowedStep(h, v, front, last, u, Tried(u, last.src, last.local, planned).v);
    }
  }

  lemma {:induction false} NothingFollowed(h: string -> string, v: Volume)
    ensures Followed(h, v, [], v)
  {
  }

  lemma {:induction false} NextPremises(h: string -> string, v: Volume, front: seq<Edition>, last: Edition, u: Volume, planned: bool)
    requires Reads(v, planned) && Start(h, v) && Followed(h, v, front, u) && Tame(h, RemoteOf(v.stored), front + [last])
    requires IsLocal(h, last.local, last.src) && PrefixFree(last.src.Keys)
    ensures Reads(u, planned) && !u.stored.Torn? && RemoteOf(u.stored) == IndexBefore(RemoteOf(v.stored), front, |front|)
    ensures Premises(h, u.files, RemoteOf(u.stored), last.src, last.local) && !Blocked(u.files)
  {
    hide Blocked, Agrees, NoFileBecameDir, Clear;
    if |front| > 0 {
      var e := front[|front| - 1];
      assert (front + [last])[|front| - 1] == e;
      assert IsLocal(h, e.local, e.src);
    }
  }
}
