/** Installing a set of files one by one and putting the earlier ones back after a failure at any step. */
module Releases {
  import opened Options

  type Content = string

  /** One manifest file; equal hashes are taken as equal contents. `before` is None for a file the release adds. */
  datatype Entry = Entry(name: string, before: Option<Content>, after: Content)

  const RELEASE_TMP := ".release-tmp"
  const RESTORE_TMP := ".restore-tmp"

  function Temporary(e: Entry): string { e.name + RELEASE_TMP }

  function RestoreTemporary(e: Entry): string { e.name + RESTORE_TMP }

  /** The steps of replacing one file, and one that fails: a failed write leaves `partial` behind. */
  datatype Step = Open | Write | Own | Replace

  datatype Fault = NoFault | Fault(file: nat, step: Step, partial: Content)

  predicate Hits(fault: Fault, file: nat, step: Step) {
    fault.Fault? && fault.file == file && fault.step == step
  }

  /** Manifest names are distinct keys, and none of them is a temporary name of the manifest. */
  ghost predicate Separate(m: seq<Entry>) {
    && (forall i, j :: 0 <= i < j < |m| ==> m[i].name != m[j].name)
    && (forall i, j :: 0 <= i < |m| && 0 <= j < |m| ==>
        m[i].name != Temporary(m[j]) && m[i].name != RestoreTemporary(m[j]))
  }

  lemma TemporariesDiffer(a: Entry, b: Entry)
    ensures Temporary(a) != RestoreTemporary(b)
    ensures a.name != b.name ==> Temporary(a) != Temporary(b)
  {
    var s, t := Temporary(a), RestoreTemporary(b);
    assert s[|s| - 9] == 'l';
    assert t[|t| - 9] == 's';
    if Temporary(a) == Temporary(b) {
      assert a.name == Temporary(a)[..|Temporary(a)| - |RELEASE_TMP|];
      assert b.name == Temporary(b)[..|Temporary(b)| - |RELEASE_TMP|];
    }
  }

  // ----- What the files become -----

  /** The files after every entry of m was replaced by its new content. */
  function Overlay(files: map<string, Content>, m: seq<Entry>): map<string, Content> {
    if m == [] then files
    else Overlay(files, m[..|m| - 1])[m[|m| - 1].name := m[|m| - 1].after]
  }

  function PutBack(files: map<string, Content>, e: Entry): map<string, Content> {
    if e.before.None? then files - {e.name} else files[e.name := e.before.value] - {RestoreTemporary(e)}
  }

  /** The files after every entry of m got its earlier content back. */
  function Reverted(files: map<string, Content>, m: seq<Entry>): map<string, Content> {
    if m == [] then files else PutBack(Reverted(files, m[..|m| - 1]), m[|m| - 1])
  }

  predicate Same(a: map<string, Content>, b: map<string, Content>, n: string) {
    (n in a <==> n in b) && (n in a ==> a[n] == b[n])
  }

  predicate IsBefore(files: map<string, Content>, e: Entry) {
    if e.before.None? then e.name !in files else e.name in files && files[e.name] == e.before.value
  }

  predicate IsAfter(files: map<string, Content>, e: Entry) {
    e.name in files && files[e.name] == e.after
  }

  predicate Named(m: seq<Entry>, n: string) {
    exists i :: 0 <= i < |m| && m[i].name == n
  }

  lemma {:induction false} OverlayAt(files: map<string, Content>, m: seq<Entry>, n: string)
    requires forall i, j :: 0 <= i < j < |m| ==> m[i].name != m[j].name
    ensures !Named(m, n) ==> Same(files, Overlay(files, m), n)
    ensures forall i :: 0 <= i < |m| && m[i].name == n ==> IsAfter(Overlay(files, m), m[i])
  {
    if m != [] {
      OverlayAt(files, m[..|m| - 1], n);
      if Named(m[..|m| - 1], n) { assert Named(m, n); }
    }
  }

  /** Putting one entry back writes its own file and at most removes its own temporary file. */
  lemma PutBackAt(files: map<string, Content>, e: Entry, n: string)
    requires e.name != RestoreTemporary(e)
    ensures n != e.name && n != RestoreTemporary(e) ==> Same(files, PutBack(files, e), n)
    ensures IsBefore(PutBack(files, e), e)
  {
  }

  ghost predicate Touches(m: seq<Entry>, n: string) {
    exists i :: 0 <= i < |m| && (m[i].name == n || RestoreTemporary(m[i]) == n)
  }

  lemma {:induction false} RevertedElsewhere(files: map<string, Content>, m: seq<Entry>, n: string)
    requires Separate(m) && !Touches(m, n)
    ensures Same(files, Reverted(files, m), n)
  {
    if m != [] {
      var last := |m| - 1;
      RevertedElsewhere(files, m[..last], n);
      PutBackAt(Reverted(files, m[..last]), m[last], n);
      assert m[last].name != n && RestoreTemporary(m[last]) != n;
    }
  }

  lemma {:induction false} RevertedAt(files: map<string, Content>, m: seq<Entry>, i: nat)
    requires Separate(m) && i < |m|
    ensures IsBefore(Reverted(files, m), m[i])
    decreases |m|
  {
    var last := |m| - 1;
    PutBackAt(Reverted(files, m[..last]), m[last], m[i].name);
    if i < last {
      RevertedAt(files, m[..last], i);
      assert m[..last][i] == m[i];
      assert m[i].name != m[last].name && m[i].name != RestoreTemporary(m[last]);
    }
  }

  // ----- The files on disk -----

  class FileStore {
    var files: map<string, Content>

    constructor (files: map<string, Content>)
      ensures this.files == files
    {
      this.files := files;
    }

    /** open(name, "xb"): refuses an existing file. */
    method CreateNew(name: string) returns (ok: bool)
      modifies this
      ensures ok <==> name !in old(files)
      ensures files == if ok then old(files)[name := ""] else old(files)
    {
      ok := name !in files;
      if ok { files := files[name := ""]; }
    }

    method WriteTo(name: string, content: Content)
      modifies this
      ensures files == old(files)[name := content]
    {
      files := files[name := content];
    }

    /** os.replace */
    method Rename(source: string, target: string)
      requires source in files && source != target
      modifies this
      ensures files == old(files)[target := old(files)[source]] - {source}
    {
      files := files[target := files[source]] - {source};
    }

    /** unlink(missing_ok=True) */
    method Unlink(name: string)
      modifies this
      ensures files == old(files) - {name}
    {
      files := files - {name};
    }
  }

  datatype Production = Ready | Installed | Foreign

  function Quantity(b: bool): nat { if b then 1 else 0 }

  /** Every file as the release expects it, every file already as it installs it, or neither. */
  method ProductionState(store: FileStore, m: seq<Entry>) returns (p: Production)
    ensures p.Ready? <==> forall i :: 0 <= i < |m| ==> IsBefore(store.files, m[i])
    ensures p.Installed? <==> !p.Ready? && forall i :: 0 <= i < |m| ==> IsAfter(store.files, m[i])
  {
    var ready, installed := 0, 0;
    for k := 0 to |m|
      invariant ready <= k && installed <= k
      invariant ready == k <==> forall i :: 0 <= i < k ==> IsBefore(store.files, m[i])
      invariant installed == k <==> forall i :: 0 <= i < k ==> IsAfter(store.files, m[i])
    {
      ready := ready + Quantity(IsBefore(store.files, m[k]));
      installed := installed + Quantity(IsAfter(store.files, m[k]));
    }
    p := if ready == |m| then Ready else if installed == |m| then Installed else Foreign;
  }

  /** Failed: the entries before `done` are replaced, and the temporary file of entry `done` may be left. */
  datatype Result = Complete | Failed(done: nat, leftover: Option<Content>)

  predicate Leftover(files: map<string, Content>, m: seq<Entry>) {
    exists i :: 0 <= i < |m| && Temporary(m[i]) in files
  }

  function Partly(files: map<string, Content>, m: seq<Entry>, r: Result): map<string, Content>
    requires r.Failed? ==> r.done < |m|
  {
    if r.Complete? then Overlay(files, m)
    else
      var replaced := Overlay(files, m[..r.done]);
      if r.leftover.Some? then replaced[Temporary(m[r.done]) := r.leftover.value] else replaced
  }

  /** One file of `install`: either it holds its new content and no temporary file is left, or it is untouched. */
  method InstallOne(store: FileStore, e: Entry, index: nat, fault: Fault) returns (ok: bool, leftover: Option<Content>)
    requires e.name != Temporary(e)
    modifies store
    ensures ok <==> !(fault.Fault? && fault.file == index) && Temporary(e) !in old(store.files)
    ensures ok ==> store.files == old(store.files)[e.name := e.after] && leftover.None?
    ensures !ok ==> store.files == if leftover.Some? then old(store.files)[Temporary(e) := leftover.value]
            else old(store.files)
    ensures !ok ==> (leftover.Some? <==> Temporary(e) !in old(store.files) && !Hits(fault, index, Open))
  {
    var temporary := Temporary(e);
    if Hits(fault, index, Open) {
      return false, None;
    }
    var created := store.CreateNew(temporary);
    if !created {
      return false, None;
    }
    store.WriteTo(temporary, if Hits(fault, index, Write) then fault.partial else e.after);
    if Hits(fault, index, Write) || Hits(fault, index, Own) || Hits(fault, index, Replace) {
      return false, Some(store.files[temporary]);
    }
    store.Rename(temporary, e.name);
    return true, None;
  }

  /** `install`: a step of one file may fail. It completes iff none does and no temporary file was there. */
  method Install(store: FileStore, m: seq<Entry>, fault: Fault) returns (r: Result)
    requires Separate(m)
    modifies store
    ensures r.Complete? <==> (fault.NoFault? || fault.file >= |m|) && !Leftover(old(store.files), m)
    ensures r.Failed? ==> r.done < |m|
    ensures r.Failed? && !Leftover(old(store.files), m) ==>
            r.done == fault.file && (r.leftover.None? <==> fault.step.Open?)
    ensures store.files == Partly(old(store.files), m, r)
  {
    hide Temporary, RestoreTemporary;
    for k := 0 to |m|
      invariant store.files == Overlay(old(store.files), m[..k])
      invariant !Leftover(old(store.files), m[..k]) && (fault.Fault? ==> fault.file >= k)
    {
      TemporaryUntouched(old(store.files), m, k);
      var ok, leftover := InstallOne(store, m[k], k, fault);
      if !ok {
        MoreLeftovers(old(store.files), m, k);
        return Failed(k, leftover);
      }
      assert m[..k + 1][..k] == m[..k];
    }
    assert m[..|m|] == m;
    return Complete;
  }

  lemma MoreLeftovers(files: map<string, Content>, m: seq<Entry>, k: nat)
    requires k < |m| && !Leftover(files, m[..k])
    ensures Temporary(m[k]) in files ==> Leftover(files, m)
  {
  }

  lemma TemporaryUntouched(files: map<string, Content>, m: seq<Entry>, k: nat)
    requires Separate(m) && k < |m|
    ensures Temporary(m[k]) in Overlay(files, m[..k]) <==> Temporary(m[k]) in files
  {
    OverlayAt(files, m[..k], Temporary(m[k]));
    assert !Named(m[..k], Temporary(m[k]));
  }

  /** The files after a restore that stopped before entry `done`. */
  function Returned(files: map<string, Content>, m: seq<Entry>, done: nat, leftover: Option<Content>)
    : map<string, Content>
    requires done <= |m| && (leftover.Some? ==> done < |m|)
  {
    var back := Reverted(files, m[..done]);
    if leftover.Some? then back[RestoreTemporary(m[done]) := leftover.value] else back
  }

  /** `restore`, from the archived earlier contents. An interrupted restore has put back a prefix. */
  method Restore(store: FileStore, archive: map<string, Content>, m: seq<Entry>, fault: Fault)
    returns (done: nat, leftover: Option<Content>)
    requires Separate(m)
    requires forall i :: 0 <= i < |m| && m[i].before.Some? ==>
             m[i].name in archive && archive[m[i].name] == m[i].before.value
    modifies store
    ensures done <= |m| && (fault.NoFault? || fault.file >= |m| ==> done == |m|)
    ensures leftover.Some? ==> done < |m|
    ensures store.files == Returned(old(store.files), m, done, leftover)
  {
    for k := 0 to |m|
      invariant store.files == Reverted(old(store.files), m[..k])
    {
      var e := m[k];
      assert m[..k + 1][..k] == m[..k];
      if Hits(fault, k, Open) {
        return k, None;
      }
      if e.before.None? {
        store.Unlink(e.name);
      } else {
        var data := archive[e.name];
        store.WriteTo(RestoreTemporary(e), if Hits(fault, k, Write) then fault.partial else data);
        if Hits(fault, k, Write) || Hits(fault, k, Own) || Hits(fault, k, Replace) {
          return k, Some(store.files[RestoreTemporary(e)]);
        }
        ghost var before := Reverted(old(store.files), m[..k]);
        store.Rename(RestoreTemporary(e), e.name);
        assert store.files == before[e.name := data] - {RestoreTemporary(e)};
      }
    }
    return |m|, None;
  }

  // ----- The whole installer -----

  datatype Outcome =
    | Refused            // production is not what the release was built on
    | NothingToDo
    | BackupFailed
    | Success
    | RolledBack
    | RestoreFailed

  /** Names the installer may create or change. */
  ghost predicate Ours(m: seq<Entry>, n: string) {
    exists i :: 0 <= i < |m| && (n == m[i].name || n == Temporary(m[i]) || n == RestoreTemporary(m[i]))
  }

  ghost predicate AllBefore(files: map<string, Content>, m: seq<Entry>) {
    forall i :: 0 <= i < |m| ==> IsBefore(files, m[i])
  }

  ghost predicate AllAfter(files: map<string, Content>, m: seq<Entry>) {
    forall i :: 0 <= i < |m| ==> IsAfter(files, m[i])
  }

  /** No manifest file is ever torn: it has its earlier content or its new one. */
  ghost predicate Whole(files: map<string, Content>, m: seq<Entry>) {
    forall i :: 0 <= i < |m| ==> IsBefore(files, m[i]) || IsAfter(files, m[i])
  }

  ghost predicate OthersKept(a: map<string, Content>, b: map<string, Content>, m: seq<Entry>) {
    forall n :: !Ours(m, n) ==> Same(a, b, n)
  }

  function Replaced(m: seq<Entry>, r: Result): seq<Entry>
    requires r.Failed? ==> r.done < |m|
  {
    if r.Complete? then m else m[..r.done]
  }

  lemma PartlyWhole(files: map<string, Content>, m: seq<Entry>, r: Result)
    requires Separate(m) && AllBefore(files, m) && (r.Failed? ==> r.done < |m|)
    ensures Whole(Partly(files, m, r), m) && (r.Complete? ==> AllAfter(Partly(files, m, r), m))
  {
    var replaced := Replaced(m, r);
    forall i | 0 <= i < |m|
      ensures IsBefore(Partly(files, m, r), m[i]) || IsAfter(Partly(files, m, r), m[i])
      ensures r.Complete? ==> IsAfter(Partly(files, m, r), m[i])
    {
      OverlayAt(files, replaced, m[i].name);
      if i < |replaced| {
        assert replaced[i] == m[i];
      } else {
        assert !Named(replaced, m[i].name);
      }
    }
  }

  lemma PartlyOthers(files: map<string, Content>, m: seq<Entry>, r: Result)
    requires Separate(m) && (r.Failed? ==> r.done < |m|)
    ensures OthersKept(files, Partly(files, m, r), m)
  {
    forall n | !Ours(m, n)
      ensures Same(files, Partly(files, m, r), n)
    {
      OverlayAt(files, Replaced(m, r), n);
      assert !Named(Replaced(m, r), n);
    }
  }

  lemma PartlyLeftover(files: map<string, Content>, m: seq<Entry>, r: Result)
    requires Separate(m) && (r.Failed? ==> r.done < |m|)
    ensures r.Complete? ==> forall i :: 0 <= i < |m| ==> Same(files, Partly(files, m, r), Temporary(m[i]))
    ensures (r.Failed? && r.leftover.Some?) || Leftover(files, m) ==> Leftover(Partly(files, m, r), m)
  {
    forall i | 0 <= i < |m|
      ensures Same(files, Overlay(files, Replaced(m, r)), Temporary(m[i]))
    {
      OverlayAt(files, Replaced(m, r), Temporary(m[i]));
      assert !Named(Replaced(m, r), Temporary(m[i]));
    }
    if r.Failed? && r.leftover.Some? { assert Temporary(m[r.done]) in Partly(files, m, r); }
  }

  /** What `install` leaves: the replaced prefix new, the rest earlier, only our names touched. */
  lemma PartlyKeeps(files: map<string, Content>, m: seq<Entry>, r: Result)
    requires Separate(m) && AllBefore(files, m) && (r.Failed? ==> r.done < |m|)
    ensures var now := Partly(files, m, r);
            && Whole(now, m) && OthersKept(files, now, m)
            && (r.Complete? ==> AllAfter(now, m) && forall i :: 0 <= i < |m| ==> Same(files, now, Temporary(m[i])))
            && (r.Failed? && r.leftover.Some? ==> Leftover(now, m))
            && (Leftover(files, m) ==> Leftover(now, m))
  {
    PartlyWhole(files, m, r);
    PartlyOthers(files, m, r);
    PartlyLeftover(files, m, r);
  }

  lemma ReturnedWhole(files: map<string, Content>, m: seq<Entry>, done: nat, leftover: Option<Content>)
    requires Separate(m) && Whole(files, m) && done <= |m| && (leftover.Some? ==> done < |m|)
    ensures Whole(Returned(files, m, done, leftover), m)
    ensures done == |m| ==> AllBefore(Returned(files, m, done, leftover), m)
  {
    var now := Returned(files, m, done, leftover);
    forall i | 0 <= i < |m|
      ensures IsBefore(now, m[i]) || IsAfter(now, m[i])
      ensures i < done ==> IsBefore(now, m[i])
    {
      if i < done {
        RevertedAt(files, m[..done], i);
        assert m[..done][i] == m[i];
      } else {
        assert !Touches(m[..done], m[i].name);
        RevertedElsewhere(files, m[..done], m[i].name);
      }
    }
  }

  lemma ReturnedOthers(files: map<string, Content>, m: seq<Entry>, done: nat, leftover: Option<Content>)
    requires Separate(m) && done <= |m| && (leftover.Some? ==> done < |m|)
    ensures OthersKept(files, Returned(files, m, done, leftover), m)
  {
    forall n | !Ours(m, n)
      ensures Same(files, Returned(files, m, done, leftover), n)
    {
      assert !Touches(m[..done], n);
      RevertedElsewhere(files, m[..done], n);
    }
  }

  lemma ReturnedLeftover(files: map<string, Content>, m: seq<Entry>, done: nat, leftover: Option<Content>)
    requires Separate(m) && done <= |m| && (leftover.Some? ==> done < |m|) && Leftover(files, m)
    ensures Leftover(Returned(files, m, done, leftover), m)
  {
    var i :| 0 <= i < |m| && Temporary(m[i]) in files;
    forall j | 0 <= j < |m|
      ensures Temporary(m[i]) != RestoreTemporary(m[j])
    {
      TemporariesDiffer(m[i], m[j]);
    }
    assert !Touches(m[..done], Temporary(m[i]));
    RevertedElsewhere(files, m[..done], Temporary(m[i]));
    assert Temporary(m[i]) in Returned(files, m, done, leftover);
  }

  /** What `restore` leaves, from any mixture of earlier and new files. */
  lemma RevertedKeeps(files: map<string, Content>, m: seq<Entry>, done: nat, leftover: Option<Content>)
    requires Separate(m) && Whole(files, m) && done <= |m| && (leftover.Some? ==> done < |m|)
    ensures var now := Returned(files, m, done, leftover);
            && Whole(now, m) && OthersKept(files, now, m)
            && (done == |m| ==> AllBefore(now, m))
            && (Leftover(files, m) ==> Leftover(now, m))
  {
    ReturnedWhole(files, m, done, leftover);
    ReturnedOthers(files, m, done, leftover);
    if Leftover(files, m) { ReturnedLeftover(files, m, done, leftover); }
  }

  /** One run of the installer: the production check, the backup, the installation, the checks of the
      restarted services, and the rollback. */
  method Deploy(store: FileStore, m: seq<Entry>, backupOk: bool, installFault: Fault, checksPass: bool,
                restoreFault: Fault)
    returns (outcome: Outcome)
    requires Separate(m)
    modifies store
    ensures outcome.Refused? <==> !AllBefore(old(store.files), m) && !AllAfter(old(store.files), m)
    ensures outcome.NothingToDo? <==> !AllBefore(old(store.files), m) && AllAfter(old(store.files), m)
    ensures outcome.BackupFailed? ==> !backupOk
    ensures outcome in {Refused, NothingToDo, BackupFailed} ==> store.files == old(store.files)
    // All or nothing, and nothing else.
    ensures outcome.Success? ==> AllAfter(store.files, m)
    ensures outcome.RolledBack? ==> AllBefore(store.files, m)
    ensures outcome.RestoreFailed? ==> Whole(store.files, m) && restoreFault.Fault? && restoreFault.file < |m|
    ensures OthersKept(old(store.files), store.files, m)
    // Exactly when it succeeds.
    ensures outcome.Success? <==>
            && AllBefore(old(store.files), m) && backupOk && (installFault.NoFault? || installFault.file >= |m|)
                && checksPass
            && !Leftover(old(store.files), m)
    // A file that fails after its temporary file was created leaves that file behind.
    ensures AllBefore(old(store.files), m) && backupOk && !Leftover(old(store.files), m)
            && installFault.Fault? && installFault.file < |m| && !installFault.step.Open?
            ==> Leftover(store.files, m)
    ensures Leftover(old(store.files), m) ==> Leftover(store.files, m)
  {
    var production := ProductionState(store, m);
    if production.Foreign? {
      assert !AllBefore(store.files, m) && !AllAfter(store.files, m);
      return Refused;
    }
    if production.Installed? {
      return NothingToDo;
    }
    assert AllBefore(store.files, m);
    if !backupOk {
      return BackupFailed;
    }
    var archive := store.files;
    var r := Install(store, m, installFault);
    PartlyKeeps(old(store.files), m, r);
    if r.Complete? && checksPass {
      return Success;
    }
    ghost var middle := store.files;
    var done, leftover := Restore(store, archive, m, restoreFault);
    RevertedKeeps(middle, m, done, leftover);
    return if done == |m| then RolledBack else RestoreFailed;
  }

  /** A run that failed while writing a file blocks every later run of the same release, even a faultless one:
      the temporary file is never removed, and it is opened as a new file. */
  method DeployAgain(store: FileStore, m: seq<Entry>, fault: Fault) returns (first: Outcome, second: Outcome)
    requires Separate(m) && AllBefore(store.files, m) && !Leftover(store.files, m)
    requires fault.Fault? && fault.file < |m| && !fault.step.Open?
    modifies store
    ensures first.RolledBack? && second.RolledBack?
    ensures AllBefore(store.files, m) && Leftover(store.files, m)
  {
    first := Deploy(store, m, true, fault, true, NoFault);
    second := Deploy(store, m, true, NoFault, true, NoFault);
  }
}
