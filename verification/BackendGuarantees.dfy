/** The guarantees of the life cycle for every torrent of a backend that serves many. */
module BackendGuarantees {
  import opened Common
  import opened TorrentLifecycle
  import opened TorrentGuarantees
  import opened TorrentBackend
  import opened TorrentSaves

  lemma {:induction false} LocalRunConcat(a: seq<GlobalStep>, b: seq<GlobalStep>, id: Id)
    ensures LocalRun(a + b, id) == LocalRun(a, id) + LocalRun(b, id)
    decreases |b|
  {
    if b == [] {
      assert a + b == a;
    } else {
      var last := |b| - 1;
      assert (a + b)[..|a + b| - 1] == a + b[..last] && (a + b)[|a + b| - 1] == b[last];
      LocalRunConcat(a, b[..last], id);
    }
  }

  lemma {:induction false} RunsInTurn(s: State, a: seq<Step>, b: seq<Step>)
    ensures Run(s, a + b) == Run(Run(s, a), b)
    decreases |a|
  {
    if a == [] {
      assert a + b == b;
    } else {
      assert (a + b)[1..] == a[1..] + b;
      RunsInTurn(Next(s, a[0]), a[1..], b);
    }
  }

  /**
   In a run with any number of torrents: once a torrent's removal is accepted, nothing that happens to it
   or to the others brings its resume file back before it is sent to the session again.
   */
  lemma RemovedTorrentStaysAway(before: seq<GlobalStep>, id: Id, request: nat, after: seq<GlobalStep>)
    requires var s := Run(INITIAL, LocalRun(before, id));
      RemovalAccepted(s) && NeverReAdds(Next(s, Remove(request)), LocalRun(after, id))
    ensures !Run(INITIAL, LocalRun(before + [RemoveFor(id, request)] + after, id)).resumeFile
  {
    var a, b := LocalRun(before, id), LocalRun(after, id);
    LocalRunConcat(before + [RemoveFor(id, request)], after, id);
    LocalRunConcat(before, [RemoveFor(id, request)], id);
    RemovalIsLocal(id, request);
    RunsInTurn(INITIAL, a + [Remove(request)], b);
    RunAppend(INITIAL, a, Remove(request));
    RemovedFileStaysAway(a, request, b);
  }

  lemma RemovalIsLocal(id: Id, request: nat)
    ensures LocalRun([RemoveFor(id, request)], id) == [Remove(request)]
  {
    assert [RemoveFor(id, request)][..0] == [];
  }

  /** Each torrent's accepted removals are answered once, however many torrents there are. */
  lemma EveryTorrentIsAnswered(steps: seq<GlobalStep>, id: Id)
    ensures var s := Run(INITIAL, LocalRun(steps, id));
      && s.accepted == s.answered + (if s.pendingRemoval.Some? then multiset{s.pendingRemoval.value} else multiset{})
      && (s.calls == [] && s.alerts == [] ==> s.accepted == s.answered)
  {
    RemovalsAreAnsweredOnce(LocalRun(steps, id));
  }

  // ----- the resume files of all torrents -----

  /** The state of torrent `id` before step `k` of a run. */
  function Before(steps: seq<GlobalStep>, id: Id, k: nat): State
    requires k <= |steps|
  {
    Run(INITIAL, LocalRun(steps[..k], id))
  }

  /** Step `k` handles saved resume data of torrent `id`, which was not removed on request. */
  predicate WritesFor(steps: seq<GlobalStep>, id: Id, k: nat)
    requires k < |steps|
  {
    var step := Local(steps[k], id);
    step.Some? && Writes(Before(steps, id, k), step.value)
  }

  predicate DeletesFor(steps: seq<GlobalStep>, id: Id, k: nat)
    requires k < |steps|
  {
    var step := Local(steps[k], id);
    step.Some? && Deletes(Before(steps, id, k), step.value)
  }

  predicate KeptSince(steps: seq<GlobalStep>, id: Id, k: nat, n: nat)
    requires k < n <= |steps|
  {
    WritesFor(steps, id, k) && forall j :: k < j < n ==> !DeletesFor(steps, id, j)
  }

  predicate Kept(steps: seq<GlobalStep>, id: Id, n: nat)
    requires n <= |steps|
  {
    exists k :: 0 <= k < n && KeptSince(steps, id, k, n)
  }

  lemma FileOfNext(steps: seq<GlobalStep>, id: Id, n: nat)
    requires n < |steps|
    ensures Before(steps, id, n + 1).resumeFile <==>
      WritesFor(steps, id, n) || (Before(steps, id, n).resumeFile && !DeletesFor(steps, id, n))
  {
    var local, before := Local(steps[n], id), LocalRun(steps[..n], id);
    assert steps[..n + 1][..n] == steps[..n];
    if local.Some? {
      RunAppend(INITIAL, before, local.value);
      RunsAreSound(INITIAL, before);
      FileAfterStep(Run(INITIAL, before), local.value);
    } else {
      assert before + [] == before;
    }
  }

  lemma KeptNext(steps: seq<GlobalStep>, id: Id, n: nat, m: nat)
    requires n < m == n + 1 <= |steps|
    ensures Kept(steps, id, m) <==> WritesFor(steps, id, n) || (Kept(steps, id, n) && !DeletesFor(steps, id, n))
  {
    if Kept(steps, id, m) {
      var k :| 0 <= k < m && KeptSince(steps, id, k, m);
      KeptLonger(steps, id, k, n, m);
    }
    if WritesFor(steps, id, n) {
      KeptLonger(steps, id, n, n, m);
    }
    if Kept(steps, id, n) {
      var k :| 0 <= k < n && KeptSince(steps, id, k, n);
      KeptLonger(steps, id, k, n, m);
    }
  }

  lemma KeptLonger(steps: seq<GlobalStep>, id: Id, k: nat, n: nat, m: nat)
    requires k <= n < m == n + 1 <= |steps|
    ensures k == n ==> (KeptSince(steps, id, k, m) <==> WritesFor(steps, id, n))
    ensures k < n ==> (KeptSince(steps, id, k, m) <==> KeptSince(steps, id, k, n) && !DeletesFor(steps, id, n))
  {
  }

  lemma {:induction false} FilesUpTo(steps: seq<GlobalStep>, id: Id, n: nat)
    requires n <= |steps|
    ensures Before(steps, id, n).resumeFile <==> Kept(steps, id, n)
  {
    if n > 0 {
      FilesUpTo(steps, id, n - 1);
      FileOfNext(steps, id, n - 1);
      KeptNext(steps, id, n - 1, n);
    }
  }

  /**
   After every run each torrent has a resume file exactly if a save of it, not removed on request, was
   handled and no removal of it was accepted or completed since, whatever the other torrents did.
   */
  lemma EveryFileExactly(steps: seq<GlobalStep>, id: Id)
    ensures Run(INITIAL, LocalRun(steps, id)).resumeFile <==> Kept(steps, id, |steps|)
  {
    FilesUpTo(steps, id, |steps|);
    assert steps[..|steps|] == steps;
  }

  lemma {:induction false} NeverRequested(steps: seq<GlobalStep>, id: Id, n: nat)
    requires n <= |steps| && forall i :: 0 <= i < |steps| && steps[i].RemoveFor? ==> steps[i].id != id
    ensures Before(steps, id, n).pendingRemoval == None
  {
    if n > 0 {
      NeverRequested(steps, id, n - 1);
      var local, before := Local(steps[n - 1], id), LocalRun(steps[..n - 1], id);
      assert steps[..n][..n - 1] == steps[..n - 1];
      if local.Some? {
        RunAppend(INITIAL, before, local.value);
        StaysUnrequested(Run(INITIAL, before), local.value);
      } else {
        assert before + [] == before;
      }
    }
  }

  /** A torrent nobody removes has its file from the first save of it that is handled. */
  lemma SavedTorrentHasFile(steps: seq<GlobalStep>, id: Id)
    requires forall i :: 0 <= i < |steps| && steps[i].RemoveFor? ==> steps[i].id != id
    ensures Run(INITIAL, LocalRun(steps, id)).resumeFile <==> exists k :: 0 <= k < |steps| && WritesFor(steps, id, k)
  {
    EveryFileExactly(steps, id);
    if k :| 0 <= k < |steps| && WritesFor(steps, id, k) {
      forall j | k < j < |steps| ensures !DeletesFor(steps, id, j) {
        NeverRequested(steps, id, j);
      }
      assert KeptSince(steps, id, k, |steps|);
    }
  }

  /** When a torrent's calls are executed and its alerts handled, nothing of it is left half done. */
  lemma EveryTorrentSettles(steps: seq<GlobalStep>, id: Id)
    requires var s := Run(INITIAL, LocalRun(steps, id)); s.calls == [] && s.alerts == []
    ensures var s := Run(INITIAL, LocalRun(steps, id));
      && s.pending == {} && s.pendingRemoval == None && !s.unloading && !s.unloadRemoving && s.session == s.handle
      && forall c :: c in s.pendingSaves ==> c in s.destroyed
  {
    NothingLeftHalfDone(LocalRun(steps, id));
  }
}
