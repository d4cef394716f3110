/**
 Replacing a state file atomically: write a temporary file, flush it, rename it over the
 destination, flush the directory.  The disk keeps apart what running programs see and what may
 be found after a crash.
 */
module AtomicFile {
  import opened Common

  type Bytes = seq<char>

  /** Contents written since the last flush may be anything after a crash. */
  datatype File = File(data: Bytes, flushed: bool)

  /**
   `survivors` holds every file that may be found under the destination's name after a crash:
   a rename is certain to last only once the directory is flushed.
   */
  datatype Disk = Disk(
    files: map<nat, File>, next: nat, temporary: Option<nat>, destination: Option<nat>, survivors: set<Option<nat>>)

  function Contents(d: Disk, entry: Option<nat>): Option<Bytes> {
    if entry.Some? && entry.value in d.files then Some(d.files[entry.value].data) else None
  }

  /** A crash that leaves this directory entry leaves its contents whole, and they are allowed. */
  predicate Durable(d: Disk, entry: Option<nat>, allowed: set<Option<Bytes>>) {
    && Contents(d, entry) in allowed
    && (entry.Some? ==> entry.value in d.files && d.files[entry.value].flushed)
  }

  predicate WellFormed(d: Disk) {
    && (forall i :: i in d.files ==> i < d.next)
    && d.destination in d.survivors
    && (d.temporary.Some? ==> d.temporary.value in d.files && d.temporary !in d.survivors)
  }

  /** Whatever a crash leaves is one of the allowed contents, complete. */
  predicate Safe(d: Disk, allowed: set<Option<Bytes>>) {
    WellFormed(d) && forall entry :: entry in d.survivors ==> Durable(d, entry, allowed)
  }

  lemma SafeForMore(d: Disk, allowed: set<Option<Bytes>>, more: set<Option<Bytes>>)
    requires Safe(d, allowed) && allowed <= more
    ensures Safe(d, more)
  {
  }

  // ----- the effects of the system calls -----

  function Unlinked(d: Disk): Disk {
    d.(temporary := None)
  }

  function Created(d: Disk): Disk {
    d.(files := d.files[d.next := File("", false)], next := d.next + 1, temporary := Some(d.next))
  }

  function Appended(d: Disk, bytes: Bytes): Disk
    requires d.temporary.Some? && d.temporary.value in d.files
  {
    var i := d.temporary.value;
    d.(files := d.files[i := File(d.files[i].data + bytes, false)])
  }

  function Flushed(d: Disk): Disk
    requires d.temporary.Some? && d.temporary.value in d.files
  {
    var i := d.temporary.value;
    d.(files := d.files[i := d.files[i].(flushed := true)])
  }

  function Renamed(d: Disk): Disk {
    d.(temporary := None, destination := d.temporary, survivors := d.survivors + {d.temporary})
  }

  function DirectoryFlushed(d: Disk): Disk {
    d.(survivors := {d.destination})
  }

  lemma EffectsAreSafe(d: Disk, allowed: set<Option<Bytes>>)
    requires Safe(d, allowed)
    ensures Safe(Unlinked(d), allowed) && Safe(Created(d), allowed) && Safe(DirectoryFlushed(d), allowed)
  {
    assert d.next !in d.files;
  }

  lemma AppendIsSafe(d: Disk, bytes: Bytes, allowed: set<Option<Bytes>>)
    requires Safe(d, allowed) && d.temporary.Some?
    ensures Safe(Appended(d, bytes), allowed) && Safe(Flushed(d), allowed)
  {
  }

  /** Renaming is safe because the complete new contents are already flushed. */
  lemma RenameIsSafe(d: Disk, allowed: set<Option<Bytes>>)
    requires Safe(d, allowed) && d.temporary.Some? && Durable(d, d.temporary, allowed)
    ensures Safe(Renamed(d), allowed)
  {
  }

  // ----- what the calls return -----

  /** The result of one call to write; calls beyond the list write everything they are given. */
  datatype WriteResult = Interrupted | Wrote(count: nat) | NoProgress | WriteError

  predicate Advances(r: WriteResult) {
    r.Interrupted? || (r.Wrote? && r.count > 0)
  }

  function Total(script: seq<WriteResult>, k: nat): nat
    requires k <= |script|
  {
    if k == 0 then 0 else Total(script, k - 1) + if script[k - 1].Wrote? then script[k - 1].count else 0
  }

  lemma {:induction false} TotalGrows(script: seq<WriteResult>, j: nat, k: nat)
    requires j <= k <= |script|
    ensures Total(script, j) <= Total(script, k)
  {
    if j < k {
      TotalGrows(script, j, k - 1);
    }
  }

  /** Every call made before `n` bytes are written is merely interrupted or writes something. */
  ghost predicate WritesOut(script: seq<WriteResult>, n: nat) {
    forall j :: 0 <= j < |script| && Total(script, j) < n ==> Advances(script[j])
  }

  /** Which of the other calls fail. */
  datatype Failures = Failures(
    path: bool, firstUnlink: bool, open: bool, flush: bool, close: bool, rename: bool,
    openDirectory: bool, flushDirectory: bool, closeDirectory: bool, lastUnlink: bool)

  predicate DirectorySyncs(f: Failures) {
    !f.openDirectory && !f.flushDirectory && !f.closeDirectory
  }

  /** No call from opening the temporary file to closing the directory fails. */
  ghost predicate Commits(contents: Bytes, script: seq<WriteResult>, f: Failures) {
    !f.open && WritesOut(script, |contents|) && !f.flush && !f.close && !f.rename && DirectorySyncs(f)
  }

  /** The temporary file is written, flushed and renamed, whatever the directory does. */
  ghost predicate Renames(contents: Bytes, script: seq<WriteResult>, f: Failures) {
    WritesOut(script, |contents|) && !f.flush && !f.close && !f.rename
  }

  /** A write succeeds; `leftover` says whether a temporary file is in its way. */
  ghost predicate Succeeds(leftover: bool, contents: Bytes, script: seq<WriteResult>, f: Failures) {
    !f.path && (!leftover || !f.firstUnlink) && Commits(contents, script, f)
  }

  /** A write leaves a temporary file behind. */
  ghost predicate Litters(leftover: bool, contents: Bytes, script: seq<WriteResult>, f: Failures) {
    if f.path then leftover
    else f.lastUnlink && ((leftover && f.firstUnlink) || (!f.open && !Renames(contents, script, f)))
  }

  /** The history only grew, by states that are safe. */
  ghost predicate Extends(before: seq<Disk>, after: seq<Disk>, allowed: set<Option<Bytes>>) {
    && |before| <= |after| && after[..|before|] == before
    && forall i :: |before| <= i < |after| ==> Safe(after[i], allowed)
  }

  class FileSystem {
    var disk: Disk
    ghost var history: seq<Disk>      // the disk after each effect, newest last

    constructor (d: Disk)
      ensures disk == d && history == [d]
    {
      disk, history := d, [d];
    }

    ghost predicate Recorded()
      reads this
    {
      history != [] && history[|history| - 1] == disk
    }

    /** Every effect is a point at which the machine may crash. */
    method Effect(d: Disk)
      modifies this
      ensures disk == d && history == old(history) + [d] && Recorded()
    {
      disk := d;
      history := history + [d];
    }

    /** Writes everything, however the calls cut it up, unless one of them fails before that. */
    method WriteAll(contents: Bytes, script: seq<WriteResult>, ghost allowed: set<Option<Bytes>>) returns (ok: bool)
      requires Recorded() && Safe(disk, allowed) && disk.temporary.Some?
      requires Contents(disk, disk.temporary) == Some("")
      modifies this
      ensures Recorded() && Extends(old(history), history, allowed)
      ensures disk.temporary == old(disk).temporary && Safe(disk, allowed)
      ensures disk.survivors == old(disk).survivors && disk.destination == old(disk).destination
      ensures ok ==> Contents(disk, disk.temporary) == Some(contents)
      ensures ok <==> WritesOut(script, |contents|)
    {
      var offset, calls := 0, 0;
      ghost var before := disk;
      while offset < |contents|
        invariant 0 <= offset <= |contents| && 0 <= calls <= |script|
        invariant Recorded() && Extends(old(history), history, allowed)
        invariant disk.temporary == before.temporary && Safe(disk, allowed)
        invariant disk.survivors == before.survivors && disk.destination == before.destination
        invariant Contents(disk, disk.temporary) == Some(contents[..offset])
        invariant forall j :: 0 <= j < calls ==> Advances(script[j])
        invariant offset < |contents| ==> offset == Total(script, calls)
        invariant offset == |contents| && calls < |script| ==> Total(script, calls) >= |contents|
        decreases |contents| - offset, |script| - calls
      {
        var result := if calls < |script| then script[calls] else Wrote(|contents| - offset);
        if !Advances(result) {
          return false;
        }
        calls := if calls < |script| then calls + 1 else calls;
        if result.Wrote? {
          var n := Min(result.count, |contents| - offset);
          AppendIsSafe(disk, contents[offset..offset + n], allowed);
          assert contents[..offset] + contents[offset..offset + n] == contents[..offset + n];
          Effect(Appended(disk, contents[offset..offset + n]));
          offset := offset + n;
        }
      }
      assert contents[..|contents|] == contents;
      forall j | calls <= j < |script| ensures Total(script, j) >= |contents| {
        TotalGrows(script, calls, j);
      }
      ok := true;
    }

    method SyncParentDirectory(f: Failures, ghost allowed: set<Option<Bytes>>) returns (ok: bool)
      requires Recorded() && Safe(disk, allowed)
      modifies this
      ensures Recorded() && Extends(old(history), history, allowed) && Safe(disk, allowed)
      ensures disk == old(disk).(survivors := disk.survivors)
      ensures ok <==> DirectorySyncs(f)
      ensures ok ==> disk.survivors == {disk.destination}
    {
      if f.openDirectory || f.flushDirectory {
        return false;
      }
      EffectsAreSafe(disk, allowed);
      Effect(DirectoryFlushed(disk));
      ok := !f.closeDirectory;
    }

    method CommitFile(contents: Bytes, script: seq<WriteResult>, f: Failures, ghost allowed: set<Option<Bytes>>)
      returns (ok: bool)
      requires Recorded() && Safe(disk, allowed) && Some(contents) in allowed
      modifies this
      ensures Recorded() && Extends(old(history), history, allowed) && Safe(disk, allowed)
      ensures ok <==> old(disk).temporary == None && Commits(contents, script, f)
      ensures ok ==> Safe(disk, {Some(contents)}) && disk.temporary == None
      ensures disk.temporary.Some? <==> old(disk).temporary.Some? || (!f.open && !Renames(contents, script, f))
    {
      if disk.temporary.Some? || f.open {
        return false;
      }
      EffectsAreSafe(disk, allowed);
      Effect(Created(disk));
      var written := WriteAll(contents, script, allowed);
      if !written || f.flush {
        return false;
      }
      AppendIsSafe(disk, [], allowed);
      Effect(Flushed(disk));
      if f.close || f.rename {
        return false;
      }
      RenameIsSafe(disk, allowed);
      Effect(Renamed(disk));
      assert Durable(disk, disk.destination, {Some(contents)});
      ok := SyncParentDirectory(f, allowed);
    }

    /**
     At every crash point the destination is complete: one of the contents that could be found
     before, or the new ones.  The write succeeds exactly when no call that matters fails, and
     then only the new contents can be found; a failure leaves no temporary file behind
     unless deleting it fails too.
     */
    method WriteFileAtomically(contents: Bytes, script: seq<WriteResult>, f: Failures, ghost allowed: set<Option<Bytes>>)
      returns (ok: bool)
      requires Recorded() && Safe(disk, allowed)
      modifies this
      ensures Recorded() && Extends(old(history), history, allowed + {Some(contents)})
      ensures Safe(disk, AllowedNext(allowed, contents, ok))
      ensures ok <==> Succeeds(old(disk).temporary.Some?, contents, script, f)
      ensures disk.temporary.Some? <==> Litters(old(disk).temporary.Some?, contents, script, f)
    {
      ghost var either := allowed + {Some(contents)};
      SafeForMore(disk, allowed, either);
      if f.path {
        return false;
      }
      if !f.firstUnlink {
        EffectsAreSafe(disk, either);
        Effect(Unlinked(disk));
      }
      ok := CommitFile(contents, script, f, either);
      if !ok && !f.lastUnlink {
        EffectsAreSafe(disk, either);
        Effect(Unlinked(disk));
      }
    }

    /** After a crash: one of the survivors is the destination, unflushed files hold anything. */
    method Crash(pick: Option<nat>, garbage: nat -> Bytes, ghost allowed: set<Option<Bytes>>)
      requires Recorded() && Safe(disk, allowed)
      modifies this
      ensures Recorded() && Extends(old(history), history, allowed) && Safe(disk, allowed)
      ensures pick in old(disk).survivors ==> CrashesTo(old(disk), disk)
      ensures pick !in old(disk).survivors ==> disk == old(disk)
      ensures disk.temporary == old(disk).temporary
    {
      if pick !in disk.survivors {
        return;
      }
      var files := map i | i in disk.files :: if disk.files[i].flushed then disk.files[i] else File(garbage(i), true);
      Effect(Disk(files, disk.next, disk.temporary, pick, {pick}));
    }

    /**
     Any sequence of writes and crashes, failed writes retried or not: a write succeeds exactly when no
     call that matters to it fails, and whatever is found in the end is complete and was written
     by the last successful write or a later one.
     */
    method Replay(events: seq<Event>, ghost start: set<Option<Bytes>>) returns (oks: seq<bool>)
      requires Recorded() && Safe(disk, start)
      modifies this
      ensures Recorded() && |oks| == |events| && oks == Results(old(disk).temporary.Some?, events)
      ensures Safe(disk, Allowed(start, events, oks))
      ensures Contents(disk, disk.destination) in Allowed(start, events, oks)
    {
      oks := [];
      ghost var leftover := disk.temporary.Some?;
      for k := 0 to |events|
        invariant |oks| == k && Recorded() && RunTo(start, leftover, events[..k], oks, disk)
      {
        ghost var before := disk;
        var ok := Happens(events[k], Allowed(start, events[..k], oks));
        RunNext(start, leftover, events, k, oks, before, disk, ok);
        oks := oks + [ok];
      }
      assert events[..|events|] == events;
    }

    /** One event: a write that succeeds or not, or a crash. */
    method Happens(e: Event, ghost allowed: set<Option<Bytes>>) returns (ok: bool)
      requires Recorded() && Safe(disk, allowed)
      modifies this
      ensures Recorded() && Safe(disk, if e.Write? then AllowedNext(allowed, e.contents, ok) else allowed)
      ensures ok <==> e.Write? && Succeeds(old(disk).temporary.Some?, e.contents, e.script, e.failures)
      ensures disk.temporary.Some? <==>
        if e.Write? then Litters(old(disk).temporary.Some?, e.contents, e.script, e.failures) else old(disk).temporary.Some?
    {
      match e
      case Write(contents, script, f) => ok := WriteFileAtomically(contents, script, f, allowed);
      case CrashEvent(pick, garbage) =>
        Crash(pick, garbage, allowed);
        ok := false;
    }
  }

  /** The disk after some events, `oks` telling which of them are successful writes. */
  ghost predicate RunTo(start: set<Option<Bytes>>, leftover: bool, events: seq<Event>, oks: seq<bool>, disk: Disk) {
    && |oks| == |events| && oks == Results(leftover, events) && Safe(disk, Allowed(start, events, oks))
    && (disk.temporary.Some? <==> LitterAfter(leftover, events))
  }

  lemma RunNext(start: set<Option<Bytes>>, leftover: bool, events: seq<Event>, k: nat, oks: seq<bool>, before: Disk, disk: Disk, ok: bool)
    requires k < |events| && RunTo(start, leftover, events[..k], oks, before)
    requires var e, allowed := events[k], Allowed(start, events[..k], oks);
      && Safe(disk, if e.Write? then AllowedNext(allowed, e.contents, ok) else allowed)
      && (ok <==> e.Write? && Succeeds(before.temporary.Some?, e.contents, e.script, e.failures))
      && (disk.temporary.Some? <==>
          if e.Write? then Litters(before.temporary.Some?, e.contents, e.script, e.failures) else before.temporary.Some?)
    ensures RunTo(start, leftover, events[..k + 1], oks + [ok], disk)
  {
    assert events[..k + 1][..k] == events[..k] && (oks + [ok])[..k] == oks;
  }

  // ----- runs of writes and crashes -----

  datatype Event = Write(contents: Bytes, script: seq<WriteResult>, failures: Failures) | CrashEvent(pick: Option<nat>, garbage: nat -> Bytes)

  function AllowedNext(allowed: set<Option<Bytes>>, contents: Bytes, ok: bool): set<Option<Bytes>> {
    if ok then {Some(contents)} else allowed + {Some(contents)}
  }

  /** What may be found after the events, of which the writes with `oks` true succeeded. */
  function Allowed(start: set<Option<Bytes>>, events: seq<Event>, oks: seq<bool>): set<Option<Bytes>>
    requires |oks| == |events|
    decreases |events|
  {
    if events == [] then start
    else
      var last := |events| - 1;
      var before := Allowed(start, events[..last], oks[..last]);
      if events[last].Write? then AllowedNext(before, events[last].contents, oks[last]) else before
  }

  /** Whether a temporary file is left after the events, if `leftover` says it was there before. */
  ghost predicate LitterAfter(leftover: bool, events: seq<Event>)
    decreases |events|
  {
    if events == [] then leftover
    else
      var last := |events| - 1;
      var before := LitterAfter(leftover, events[..last]);
      if events[last].CrashEvent? then before
      else Litters(before, events[last].contents, events[last].script, events[last].failures)
  }

  /** Which of the events are successful writes. */
  ghost function Results(leftover: bool, events: seq<Event>): (oks: seq<bool>)
    ensures |oks| == |events|
    decreases |events|
  {
    if events == [] then []
    else
      var last := |events| - 1;
      var e := events[last];
      Results(leftover, events[..last]) +
      [e.Write? && Succeeds(LitterAfter(leftover, events[..last]), e.contents, e.script, e.failures)]
  }

  /** No write after event `j` succeeded. */
  predicate NoneAfter(events: seq<Event>, oks: seq<bool>, j: int)
    requires |oks| == |events|
  {
    forall k :: 0 <= k < |events| && j < k ==> !(events[k].Write? && oks[k])
  }

  /** Exactly: contents written since the last success, that one included, or the first ones if none succeeded. */
  lemma {:induction false} AllowedMeaning(start: set<Option<Bytes>>, events: seq<Event>, oks: seq<bool>, c: Option<Bytes>)
    requires |oks| == |events|
    ensures c in Allowed(start, events, oks) <==>
      || (c in start && NoneAfter(events, oks, -1))
      || (exists j :: 0 <= j < |events| && events[j].Write? && c == Some(events[j].contents) && NoneAfter(events, oks, j))
    decreases |events|
  {
    if events != [] {
      var last := |events| - 1;
      var events', oks' := events[..last], oks[..last];
      AllowedMeaning(start, events', oks', c);
      LastEvent(events, oks);
      if events[last].Write? && c == Some(events[last].contents) {
        assert NoneAfter(events, oks, last);
      }
      if j :| 0 <= j < last && events'[j].Write? && c == Some(events'[j].contents) && NoneAfter(events', oks', j) {
        assert events[j] == events'[j];
        assert !(events[last].Write? && oks[last]) ==> NoneAfter(events, oks, j);
      }
      if j :| 0 <= j < |events| && events[j].Write? && c == Some(events[j].contents) && NoneAfter(events, oks, j) {
        assert j < last ==> events'[j] == events[j] && NoneAfter(events', oks', j);
      }
    }
  }

  lemma LastEvent(events: seq<Event>, oks: seq<bool>)
    requires |oks| == |events| && events != []
    ensures var last := |events| - 1;
      forall j :: -1 <= j < last ==>
        (NoneAfter(events, oks, j) <==> NoneAfter(events[..last], oks[..last], j) && !(events[last].Write? && oks[last]))
  {
    var last := |events| - 1;
    forall j | -1 <= j < last
      ensures NoneAfter(events, oks, j) <==> NoneAfter(events[..last], oks[..last], j) && !(events[last].Write? && oks[last])
    {
      assert forall k :: 0 <= k < last ==> events[..last][k] == events[k] && oks[..last][k] == oks[k];
    }
  }

  /** What a crash may turn the disk into. */
  ghost predicate CrashesTo(d: Disk, d': Disk) {
    && d'.destination in d.survivors && d'.survivors == {d'.destination} && WellFormed(d')
    && forall i :: i in d.files && d.files[i].flushed ==> i in d'.files && d'.files[i] == d.files[i]
  }

  /** Wherever the machine crashes, the next start finds one of the allowed contents, settled. */
  lemma CrashTheorem(d: Disk, d': Disk, allowed: set<Option<Bytes>>)
    requires Safe(d, allowed) && CrashesTo(d, d')
    ensures Contents(d', d'.destination) in allowed && Safe(d', {Contents(d', d'.destination)})
  {
    assert Durable(d, d'.destination, allowed);
  }
}
