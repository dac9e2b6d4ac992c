/** The settings file of the 1W remotes: save() writes a temporary file, keeps a backup and renames
    twice, recoverInterruptedSave() repairs after power loss. Power can fail between any two flash
    operations, and in the middle of a write. */
module CrashSafeStore {

  datatype FileName = Main | Temp | Backup

  /** A file holds a whole document or a torn prefix, which is not valid JSON. */
  datatype File<+D> = Torn | Whole(doc: D)

  type Disk<D> = map<FileName, File<D>>

  /** How the flash answers during one save(). */
  datatype Io = Io(lockOk: bool, openOk: bool, writeOk: bool, backupOk: bool, replaceOk: bool, restoreOk: bool)

  function Remove<D>(d: Disk<D>, name: FileName): Disk<D> {
    d - {name}
  }

  /** Rename is atomic and replaces its target. */
  function Rename<D>(d: Disk<D>, source: FileName, target: FileName): Disk<D>
    requires source in d
  {
    (d - {source})[target := d[source]]
  }

  // ---------------------------------------------------------------- save() as its disk states

  /** Every state the disk passes through once the temporary file is written. */
  function Swap<D>(d: Disk<D>, io: Io): seq<Disk<D>>
    requires Temp in d
  {
    var cleared := Remove(d, Backup);
    if Main in cleared && !io.backupOk then [d, cleared, Remove(cleared, Temp)]
    else
      var parked := if Main in cleared then Rename(cleared, Main, Backup) else cleared;
      if io.replaceOk then
        var replaced := Rename(parked, Temp, Main);
        [d, cleared, parked, replaced, Remove(replaced, Backup)]
      else
        var dropped := Remove(parked, Temp);
        [d, cleared, parked, dropped] +
        (if Backup in dropped && io.restoreOk then [Rename(dropped, Backup, Main)] else [])
  }

  /** Every state the disk passes through during save(). */
  function SaveStates<D>(d: Disk<D>, doc: D, empty: bool, io: Io): seq<Disk<D>> {
    if !io.lockOk || empty then [d]
    else
      var clean := Remove(d, Temp);
      if !io.openOk then [d, clean]
      else
        var torn := clean[Temp := Torn];
        if !io.writeOk then [d, clean, torn, Remove(torn, Temp)]
        else [d, clean, torn] + Swap(torn[Temp := Whole(doc)], io)
  }

  function SaveReturns(hasMain: bool, empty: bool, io: Io): bool {
    io.lockOk && !empty && io.openOk && io.writeOk && (hasMain ==> io.backupOk) && io.replaceOk
  }

  function Last<T>(s: seq<T>): T
    requires s != []
  {
    s[|s| - 1]
  }

  function SaveEnd<D>(d: Disk<D>, doc: D, empty: bool, io: Io): Disk<D> {
    Last(SaveStates(d, doc, empty, io))
  }

  // ---------------------------------------------------------------- recovery

  predicate Recoverable<D>(d: Disk<D>, candidate: FileName, renameOk: FileName -> bool) {
    candidate in d && d[candidate].Whole? && renameOk(candidate)
  }

  function Recover<D>(d: Disk<D>, renameOk: FileName -> bool): Disk<D> {
    if Main in d then d
    else if Recoverable(d, Temp, renameOk) then Rename(d, Temp, Main)
    else if Recoverable(d, Backup, renameOk) then Rename(d, Backup, Main)
    else d
  }

  const RELIABLE: FileName -> bool := (name: FileName) => true

  // ---------------------------------------------------------------- the file system object

  class Flash<D> {
    var files: Disk<D>

    constructor ()
      ensures files == map[]
    {
      files := map[];
    }

    method Delete(name: FileName)
      modifies this
      ensures files == Remove(old(files), name)
    {
      files := files - {name};
    }

    method Move(source: FileName, target: FileName, works: bool) returns (ok: bool)
      requires source in files
      modifies this
      ensures ok == works
      ensures files == if ok then Rename(old(files), source, target) else old(files)
    {
      ok := works;
      if ok {
        var f := files[source];
        files := (files - {source})[target := f];
      }
    }

    /** From the complete temporary file to the end; `passed` are the disk states on the way. */
    method SwapIn(io: Io) returns (ok: bool, ghost passed: seq<Disk<D>>)
      requires Temp in files
      modifies this
      ensures passed == Swap(old(files), io) && files == Last(passed)
      ensures ok == ((Main in old(files) ==> io.backupOk) && io.replaceOk)
    {
      passed := [files];
      Delete(Backup);
      passed := passed + [files];
      if Main in files {
        var backedUp := Move(Main, Backup, io.backupOk);
        if !backedUp {
          Delete(Temp);
          passed := passed + [files];
          return false, passed;
        }
      }
      passed := passed + [files];
      var replaced := Move(Temp, Main, io.replaceOk);
      if !replaced {
        Delete(Temp);
        passed := passed + [files];
        if Backup in files {
          var restored := Move(Backup, Main, io.restoreOk);
          if restored {
            passed := passed + [files];
          }
        }
        return false, passed;
      }
      passed := passed + [files];
      Delete(Backup);
      passed := passed + [files];
      ok := true;
    }

    method Save(doc: D, empty: bool, io: Io) returns (ok: bool, ghost passed: seq<Disk<D>>)
      modifies this
      ensures passed == SaveStates(old(files), doc, empty, io) && files == Last(passed)
      ensures ok == SaveReturns(Main in old(files), empty, io)
    {
      passed := [files];
      if !io.lockOk || empty {
        return false, passed;
      }
      Delete(Temp);
      passed := passed + [files];
      if !io.openOk {
        return false, passed;
      }
      files := files[Temp := Torn];
      passed := passed + [files];
      if !io.writeOk {
        Delete(Temp);
        passed := passed + [files];
        return false, passed;
      }
      files := files[Temp := Whole(doc)];
      ghost var rest;
      ok, rest := SwapIn(io);
      passed := passed + rest;
    }

    method RecoverInterruptedSave(renameOk: FileName -> bool)
      modifies this
      ensures files == Recover(old(files), renameOk)
    {
      if Main in files {
        return;
      }
      var candidates := [Temp, Backup];
      for i := 0 to |candidates|
        invariant files == old(files)
        invariant forall j :: 0 <= j < i ==> !Recoverable(files, candidates[j], renameOk)
      {
        assert i == 1 ==> !Recoverable(files, candidates[0], renameOk);
        if candidates[i] in files && files[candidates[i]].Whole? {
          var moved := Move(candidates[i], Main, renameOk(candidates[i]));
          if moved {
            return;
          }
        }
      }
      assert !Recoverable(files, candidates[0], renameOk) && !Recoverable(files, candidates[1], renameOk);
    }
  }

  // ---------------------------------------------------------------- one save

  /** The settings file is complete and holds `doc`. */
  predicate Settled<D(==)>(d: Disk<D>, doc: D) {
    Main in d && d[Main] == Whole(doc)
  }

  /** Nothing has been stored yet: at most a torn temporary file. */
  predicate Blank<D>(d: Disk<D>) {
    Main !in d && Backup !in d && (Temp in d ==> d[Temp].Torn?)
  }

  /** Not both renames of the replace-and-restore pair fail. One failing rename never is. */
  predicate Benign(io: Io) {
    io.replaceOk || io.restoreOk
  }

  /** The disk with the complete temporary file. */
  function Written<D>(d: Disk<D>, doc: D): (t: Disk<D>)
    ensures Temp in t
  {
    Remove(d, Temp)[Temp := Torn][Temp := Whole(doc)]
  }

  lemma SaveIsSwap<D>(d: Disk<D>, doc: D, io: Io)
    requires io.lockOk && io.openOk && io.writeOk
    ensures SaveEnd(d, doc, false, io) == Last(Swap(Written(d, doc), io))
    ensures forall cut :: 3 <= cut < |SaveStates(d, doc, false, io)| ==>
              cut - 3 < |Swap(Written(d, doc), io)| && SaveStates(d, doc, false, io)[cut] == Swap(Written(d, doc), io)[cut - 3]
  {
  }

  /** Power may fail after any step: recovery finds the old or the new document, whatever the
      flash answers. */
  lemma CutSaveRecovers<D>(d: Disk<D>, kept: D, doc: D, empty: bool, io: Io, cut: nat)
    requires Settled(d, kept) && cut < |SaveStates(d, doc, empty, io)|
    ensures var r := Recover(SaveStates(d, doc, empty, io)[cut], RELIABLE);
            Settled(r, kept) || Settled(r, doc)
  {
    if io.lockOk && !empty && io.openOk && io.writeOk {
      SaveIsSwap(d, doc, io);
      assert Settled(Written(d, doc), kept);
    }
  }

  /** A save that runs to its end leaves the new document exactly when it returns true, and keeps
      the old one otherwise, exactly if the flash did not fail both to replace and to restore. */
  lemma FinishedSave<D>(d: Disk<D>, kept: D, doc: D, empty: bool, io: Io)
    requires Settled(d, kept)
    ensures SaveReturns(true, empty, io) ==> Settled(SaveEnd(d, doc, empty, io), doc)
    ensures !SaveReturns(true, empty, io) ==>
      (Settled(SaveEnd(d, doc, empty, io), kept) <==>
        !(io.lockOk && !empty && io.openOk && io.writeOk && io.backupOk && !io.replaceOk && !io.restoreOk))
  {
    if io.lockOk && !empty && io.openOk && io.writeOk {
      SaveIsSwap(d, doc, io);
    }
  }

  lemma FirstSave<D>(d: Disk<D>, doc: D, empty: bool, io: Io, cut: nat)
    requires Blank(d) && cut < |SaveStates(d, doc, empty, io)|
    ensures var r := Recover(SaveStates(d, doc, empty, io)[cut], RELIABLE);
            Blank(r) || Settled(r, doc)
    ensures SaveReturns(false, empty, io) ==> Settled(SaveEnd(d, doc, empty, io), doc)
    ensures !SaveReturns(false, empty, io) ==> Blank(SaveEnd(d, doc, empty, io))
  {
    if io.lockOk && !empty && io.openOk && io.writeOk {
      SaveIsSwap(d, doc, io);
    }
  }

  /** Replace and restore both failing, and replace failing once more in the next save, loses
      every copy. */
  lemma ThreeFailuresLoseEverything<D>(d: Disk<D>, kept: D, doc: D, doc': D)
    requires Settled(d, kept)
    ensures var bad := Io(true, true, true, true, false, false);
            SaveEnd(SaveEnd(d, doc, false, bad), doc', false, bad) == map[]
  {
    var bad := Io(true, true, true, true, false, false);
    SaveIsSwap(d, doc, bad);
    var d' := SaveEnd(d, doc, false, bad);
    assert d' == Remove(Rename(Remove(Written(d, doc), Backup), Main, Backup), Temp);
    forall name: FileName ensures name in d' <==> name == Backup {
      match name case Main => case Temp => case Backup =>
    }
    SaveIsSwap(d', doc', bad);
    var d'' := SaveEnd(d', doc', false, bad);
    assert d'' == Remove(Remove(Written(d', doc'), Backup), Temp);
    forall name: FileName ensures name !in d'' {
      match name case Main => case Temp => case Backup =>
    }
  }

  // ---------------------------------------------------------------- any number of saves

  datatype Event<+D> =
    | Saved(doc: D, empty: bool, io: Io)               // ran to its end
    | Cut(doc: D, empty: bool, io: Io, at: nat)        // power lost after `at` operations, then a boot

  ghost function Happen<D>(d: Disk<D>, e: Event<D>): Disk<D> {
    match e
    case Saved(doc, empty, io) => SaveEnd(d, doc, empty, io)
    case Cut(doc, empty, io, at) =>
      var states := SaveStates(d, doc, empty, io);
      Recover(if at < |states| then states[at] else Last(states), RELIABLE)
  }

  ghost function HappenAll<D>(d: Disk<D>, es: seq<Event<D>>): Disk<D> {
    if es == [] then d else Happen(HappenAll(d, es[..|es| - 1]), es[|es| - 1])
  }

  /** Event `i` is a save that returned true. */
  ghost predicate Completed<D(!new)>(d: Disk<D>, es: seq<Event<D>>, i: int) {
    0 <= i < |es| && es[i].Saved? && SaveReturns(Main in HappenAll(d, es[..i]), es[i].empty, es[i].io)
  }

  /** `doc` was stored by event `i`, and no save after `i` returned true. */
  ghost predicate Newest<D(!new)>(d: Disk<D>, es: seq<Event<D>>, i: int, doc: D) {
    && 0 <= i < |es| && es[i].doc == doc && (es[i].Cut? || Completed(d, es, i))
    && forall j :: i < j < |es| ==> !Completed(d, es, j)
  }

  lemma NewestStays<D(!new)>(d: Disk<D>, es: seq<Event<D>>, e: Event<D>, i: int, doc: D)
    requires Newest(d, es, i, doc) && !Completed(d, es + [e], |es|)
    ensures Newest(d, es + [e], i, doc)
  {
    CompletedPrefix(d, es, e);
  }

  lemma CompletedPrefix<D(!new)>(d: Disk<D>, es: seq<Event<D>>, e: Event<D>)
    ensures forall i :: 0 <= i < |es| ==> (Completed(d, es + [e], i) <==> Completed(d, es, i))
  {
    forall i | 0 <= i < |es|
      ensures Completed(d, es + [e], i) <==> Completed(d, es, i)
    {
      assert (es + [e])[..i] == es[..i];
    }
  }

  /** Crash safety over any number of saves, each finished or cut anywhere: the settings file always
      holds, whole, the document of the last save that returned true or of a later one that was cut,
      and it is missing only before the first such save. */
  lemma {:induction false} SettingsSurvive<D(!new)>(d: Disk<D>, es: seq<Event<D>>)
    requires Blank(d) && (forall i :: 0 <= i < |es| && es[i].Saved? ==> Benign(es[i].io))
    ensures var now := HappenAll(d, es);
            || (exists i, doc :: Newest(d, es, i, doc) && Settled(now, doc))
            || (Blank(now) && forall i :: 0 <= i < |es| ==> !Completed(d, es, i))
    decreases |es|
  {
    if es != [] {
      var n := |es| - 1;
      var before, e := es[..n], es[n];
      assert es == before + [e];
      SettingsSurvive(d, before);
      CompletedPrefix(d, before, e);
      var was, now := HappenAll(d, before), HappenAll(d, es);
      assert now == Happen(was, e);
      var states := SaveStates(was, e.doc, e.empty, e.io);
      var at := if e.Cut? && e.at < |states| then e.at else |states| - 1;
      if Blank(was) {
        FirstSave(was, e.doc, e.empty, e.io, at);
        if Settled(now, e.doc) {
          assert Newest(d, es, n, e.doc);
        }
      } else {
        var i, doc :| Newest(d, before, i, doc) && Settled(was, doc);
        CutSaveRecovers(was, doc, e.doc, e.empty, e.io, at);
        FinishedSave(was, doc, e.doc, e.empty, e.io);
        if Completed(d, es, n) || (e.Cut? && Settled(now, e.doc)) {
          assert Newest(d, es, n, e.doc) && Settled(now, e.doc);
        } else {
          NewestStays(d, before, e, i, doc);
          assert Newest(d, es, i, doc) && Settled(now, doc);
        }
      }
    }
  }

  /** The newer document is preferred: whatever the backup holds, a save cut while the whole temporary
      file is there and the settings file is missing is recovered with the new document. */
  lemma NewerIsRecovered<D>(d: Disk<D>, doc: D, io: Io, k: nat)
    requires k < |SaveStates(d, doc, false, io)|
    requires var cut := SaveStates(d, doc, false, io)[k]; Main !in cut && Temp in cut && cut[Temp].Whole?
    requires Main in d
    ensures var cut := SaveStates(d, doc, false, io)[k];
      Main in Recover(cut, RELIABLE) && Recover(cut, RELIABLE)[Main] == Whole(doc)
  {
    SaveIsSwap(d, doc, io);
  }
}
