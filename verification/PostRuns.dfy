/**
 Runs of the store by the operations alone.  Which posts are indexed and which are
 being loaded follows from the operations and the files, without the objects of
 PostStore, and so does the one way in which a load can fail its assertion: another
 load of the same post was quicker.
 */
module PostRuns {
  import opened Basics
  import opened Posts
  import opened RbTree
  import opened PostBuild
  import opened PostCache
  import opened PostListing

  /** What can happen to a store.  The operations that take a number refer to a
      post being loaded, or to a reference, by position. */
  datatype Op =
    | LookupPost(id: nat)
    | Start(id: nat)
    | RefreshStarted(k: nat)
    | InsertStarted(k: nat)
    | Release(k: nat)
    | RefreshHeld(k: nat)
    | ListSome(tag: Option<string>, pred: Pred, skip: int, n: nat)
    | ShowPost(id: nat)
    | ShowPage(tag: Option<string>, pred: Pred, skip: int, n: nat)
    | Change(files: Files)

  /** How a step ends: the last two are failed assertions, which end the program. */
  datatype Outcome = Done | NotFound | RefreshFailed | InsertFailed

  /** A post that load_post has not inserted yet. */
  datatype Load = Load(id: nat, built: bool)

  /** The ids in the index, the loads in progress, and the file cache. */
  datatype Summary = Summary(ids: set<nat>, loading: seq<Load>, files: Files)

  /** What an operation does to the summary.  An operation that refers to a load that
      is not there, or not at this stage, does nothing. */
  function Next(site: Site, s: Summary, op: Op): Summary
  {
    match op
    case Start(id) => if id in s.ids then s else s.(loading := s.loading + [Load(id, false)])
    case RefreshStarted(k) =>
      if k >= |s.loading| || s.loading[k].built then s
      else
        var id := s.loading[k].id;
        s.(loading := RemoveAt(s.loading, k)
                      + if Build(site, id, s.files).Some? then [Load(id, true)] else [])
    case InsertStarted(k) =>
      if k >= |s.loading| || !s.loading[k].built then s
      else s.(ids := s.ids + {s.loading[k].id}, loading := RemoveAt(s.loading, k))
    case ShowPost(id) => if Build(site, id, s.files).Some? then s.(ids := s.ids + {id}) else s
    case Change(files) => s.(files := files)
    case _ => s
  }

  function NextAll(site: Site, s: Summary, ops: seq<Op>): Summary
    decreases |ops|
  {
    if ops == [] then s else NextAll(site, Next(site, s, ops[0]), ops[1..])
  }

  // ----- Loads that collide -------------------------------------------------------------

  /** The assertion of load_post fails: the id has been indexed since the lookup. */
  predicate Collides(s: Summary, op: Op)
  {
    op.InsertStarted? && op.k < |s.loading| && s.loading[op.k].built && s.loading[op.k].id in s.ids
  }

  predicate SomeCollides(site: Site, s: Summary, ops: seq<Op>)
    decreases |ops|
  {
    ops != [] && (Collides(s, ops[0]) || SomeCollides(site, Next(site, s, ops[0]), ops[1..]))
  }

  predicate InProgress(s: Summary, id: nat)
  {
    exists i :: 0 <= i < |s.loading| && s.loading[i].id == id
  }

  /** A load of an id that is already being loaded. */
  predicate Overlaps(s: Summary, op: Op)
  {
    (op.Start? || op.ShowPost?) && InProgress(s, op.id)
  }

  predicate SomeOverlap(site: Site, s: Summary, ops: seq<Op>)
    decreases |ops|
  {
    ops != [] && (Overlaps(s, ops[0]) || SomeOverlap(site, Next(site, s, ops[0]), ops[1..]))
  }

  /** No two loads are of the same id, and none is of an indexed one. */
  ghost predicate NoRace(s: Summary)
  {
    && (forall i :: 0 <= i < |s.loading| ==> s.loading[i].id !in s.ids)
    && (forall i, j :: 0 <= i < j < |s.loading| ==> s.loading[i].id != s.loading[j].id)
  }

  lemma RemoveNoRace(s: Summary, k: nat)
    requires NoRace(s) && k < |s.loading|
    ensures NoRace(s.(loading := RemoveAt(s.loading, k)))
    ensures !InProgress(s.(loading := RemoveAt(s.loading, k)), s.loading[k].id)
  {
    var rest := RemoveAt(s.loading, k);
    assert forall i :: 0 <= i < |rest| ==> rest[i] == s.loading[if i < k then i else i + 1];
  }

  lemma NextNoRace(site: Site, s: Summary, op: Op)
    requires NoRace(s) && !Overlaps(s, op)
    ensures NoRace(Next(site, s, op)) && !Collides(s, op)
  {
    hide Build, RemoveAt;
    if (op.RefreshStarted? || op.InsertStarted?) && op.k < |s.loading| {
      RemoveNoRace(s, op.k);
    }
  }

  /** Only loads that overlap collide. */
  lemma {:induction false} CollisionsOverlap(site: Site, s: Summary, ops: seq<Op>)
    requires NoRace(s) && SomeCollides(site, s, ops)
    ensures SomeOverlap(site, s, ops)
    decreases |ops|
  {
    if !Overlaps(s, ops[0]) {
      NextNoRace(site, s, ops[0]);
      CollisionsOverlap(site, Next(site, s, ops[0]), ops[1..]);
    }
  }

  /** The operation loads this id. */
  predicate Loads(op: Op, id: nat)
  {
    (op.Start? || op.ShowPost?) && op.id == id
  }

  /** No id is loaded again after a load of it was started. */
  predicate Apart(ops: seq<Op>)
  {
    forall i, j :: 0 <= i < j < |ops| && ops[i].Start? ==> !Loads(ops[j], ops[i].id)
  }

  lemma {:induction false} ApartNeverOverlaps(site: Site, s: Summary, ops: seq<Op>)
    requires Apart(ops)
    requires forall i, j :: 0 <= i < |s.loading| && 0 <= j < |ops| ==> !Loads(ops[j], s.loading[i].id)
    ensures !SomeOverlap(site, s, ops)
    decreases |ops|
  {
    if ops != [] {
      var op, rest, next := ops[0], ops[1..], Next(site, s, ops[0]);
      assert forall j :: 0 <= j < |rest| ==> rest[j] == ops[j + 1];
      NextLoads(site, s, op);
      hide Next;
      forall i, j | 0 <= i < |next.loading| && 0 <= j < |rest|
        ensures !Loads(rest[j], next.loading[i].id)
      {
        assert rest[j] == ops[j + 1];
      }
      assert !Overlaps(s, op);
      ApartNeverOverlaps(site, next, rest);
    }
  }

  /** Only Start brings an id into loading. */
  lemma NextLoads(site: Site, s: Summary, op: Op)
    ensures forall l :: l in Next(site, s, op).loading ==>
              (op.Start? && l.id == op.id) || exists i :: 0 <= i < |s.loading| && s.loading[i].id == l.id
  {
    hide Build;
    forall l | l in Next(site, s, op).loading && !(op.Start? && l.id == op.id)
      ensures exists i :: 0 <= i < |s.loading| && s.loading[i].id == l.id
    {
      var i :| 0 <= i < |Next(site, s, op).loading| && Next(site, s, op).loading[i] == l;
      if (op.RefreshStarted? || op.InsertStarted?) && Next(site, s, op) != s {
        var rest := RemoveAt(s.loading, op.k);
        assert i < |rest| ==> rest[i] == s.loading[if i < op.k then i else i + 1];
        assert i >= |rest| ==> l.id == s.loading[op.k].id;
      } else {
        assert s.loading[i] == l;
      }
    }
  }

  // ----- Files that change by the rules -------------------------------------------------

  /** The ids of the posts that have been built. */
  function Live(s: Summary): set<nat>
  {
    s.ids + set l | l in s.loading && l.built :: l.id
  }

  /** Contents get new revisions, no file appears that a build of a live post asks for
      in vain, and these posts can be built again. */
  ghost predicate Gentle(site: Site, s: Summary, files: Files)
  {
    && Later(s.files, files)
    && forall id :: id in Live(s) ==>
         && Build(site, id, files).Some?
         && (Build(site, id, s.files).Some? ==>
               StillMissing(s.files, files, Build(site, id, s.files).value.asked))
  }

  /** All the changes of a run are so, up to a collision. */
  ghost predicate AllGentle(site: Site, s: Summary, ops: seq<Op>)
    decreases |ops|
  {
    ops == []
    || (&& (ops[0].Change? ==> Gentle(site, s, ops[0].files))
        && (Collides(s, ops[0]) || AllGentle(site, Next(site, s, ops[0]), ops[1..])))
  }

  /** The files change by the rules for any posts: contents get new revisions, what
      builds builds again, and what it asks for is there. */
  ghost predicate Orderly(site: Site, was: Files, now: Files)
  {
    && Later(was, now)
    && forall id :: Build(site, id, was).Some? ==> Build(site, id, now).Some? && Complete(site, id, was)
  }

  ghost predicate AllOrderly(site: Site, files: Files, ops: seq<Op>)
    decreases |ops|
  {
    ops == []
    || (&& (ops[0].Change? ==> Orderly(site, files, ops[0].files))
        && AllOrderly(site, if ops[0].Change? then ops[0].files else files, ops[1..]))
  }

  /** Everything that has been built can be built again. */
  ghost predicate AllBuild(site: Site, s: Summary)
  {
    forall id :: id in Live(s) ==> Build(site, id, s.files).Some?
  }

  lemma OrderlyChange(site: Site, s: Summary, files: Files)
    requires AllBuild(site, s) && Orderly(site, s.files, files)
    ensures Gentle(site, s, files) && AllBuild(site, s.(files := files))
  {
    hide Build, Later;
    assert Live(s.(files := files)) == Live(s);
  }

  lemma NextAllBuild(site: Site, s: Summary, op: Op)
    requires AllBuild(site, s) && (op.Change? ==> Orderly(site, s.files, op.files))
    ensures op.Change? ==> Gentle(site, s, op.files)
    ensures AllBuild(site, Next(site, s, op))
  {
    hide Build, Live, Orderly, Gentle;
    if op.Change? {
      OrderlyChange(site, s, op.files);
    } else {
      NextLive(site, s, op);
    }
  }

  /** What becomes live has just been built. */
  lemma NextLive(site: Site, s: Summary, op: Op)
    ensures forall id :: id in Live(Next(site, s, op)) ==> id in Live(s) || Build(site, id, s.files).Some?
  {
    hide Build;
    var next := Next(site, s, op);
    if (op.RefreshStarted? || op.InsertStarted?) && next != s {
      forall l | l in next.loading && l.built
        ensures l in s.loading || Build(site, l.id, s.files).Some?
      {
        var rest := RemoveAt(s.loading, op.k);
        if l in rest {
          var i :| 0 <= i < |rest| && rest[i] == l;
          assert s.loading[if i < op.k then i else i + 1] == l;
        }
      }
    }
  }

  /** So the rules hold for whatever is live if they hold for all posts. */
  lemma {:induction false} OrderlyIsGentle(site: Site, s: Summary, ops: seq<Op>)
    requires AllBuild(site, s) && AllOrderly(site, s.files, ops)
    ensures AllGentle(site, s, ops)
    decreases |ops|
  {
    if ops != [] {
      NextAllBuild(site, s, ops[0]);
      hide AllBuild, Gentle, Orderly;
      OrderlyIsGentle(site, Next(site, s, ops[0]), ops[1..]);
    }
  }
}
