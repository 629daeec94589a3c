/**
 * What the sync agent promises, stated over the specification functions of
 * module Sync: the status rules, the fingerprint cache of the scan, the
 * outcome of one upload, the plan of a whole pass (which files are deleted,
 * which uploaded, which entries remain), the main-loop schedule and the
 * folder watcher.
 */
module SyncLemmas {
  import opened Wrappers
  import opened Text
  import opened Replies
  import opened CbdApi
  import opened Sync

  // ================================================================ status

  /** `update_status` switches the icon exactly when the state changes, and touches nothing else. */
  lemma SetStatusMeaning(a: Agent, s: Status)
    ensures var r := SetStatus(a, s);
      && r.status == s
      && r.shown == (if s == a.status then a.shown else a.shown + [s])
      && r.(status := a.status, shown := a.shown) == a
  {
  }

  /** `handle_error` records the message, keeps every earlier one and sets `error`. */
  lemma HandleErrorMeaning(a: Agent, message: string)
    ensures var r := HandleError(a, message);
      && r.status == Error && r.errors == a.errors + {message}
      && r.metadata == a.metadata && r.requests == a.requests && r.syncing == a.syncing
  {
  }

  /** `printingStatus` never returns the bare "Printing" its callers compare with. */
  lemma PauseUnreachable(inbox: seq<string>)
    ensures StatusRun(inbox) != Ok("Printing")
  {
    if |inbox| >= 2 {
      StatusNeverBarePrinting(RStrip(inbox[0]));
    }
  }

  // ================================================================ scan

  /**
   * After a scan: exactly the globbed names are returned, each with its file's
   * mtime and size and the same entry as in `metadata`; `metadata` gains the
   * globbed names and keeps every other entry unchanged.
   */
  lemma ScanRecords(stored: map<string, Meta>, folder: map<string, Stat>, sha: seq<bv8> -> string)
    ensures var files := ScanResult(stored, folder, sha);
      var metadata := ScanMetadata(stored, folder, sha);
      && files.Keys == LocalNames(folder)
      && metadata.Keys == stored.Keys + LocalNames(folder)
      && (forall n | n in files :: && files[n].mtime == folder[n].mtime && files[n].size == folder[n].size
                                   && metadata[n] == files[n])
      && (forall n | n in stored && n !in files :: metadata[n] == stored[n])
  {
  }

  /**
   * The fingerprint cache: a globbed file is hashed again exactly when its
   * entry is missing, has no checksum, or its mtime or size differs; otherwise
   * its stored entry is left as it was.
   */
  lemma ScanHashesWhenNeeded(stored: map<string, Meta>, folder: map<string, Stat>, sha: seq<bv8> -> string, n: string)
    requires n in LocalNames(folder)
    ensures NeedHash(stored, n, folder[n]) ==> ScanResult(stored, folder, sha)[n] == Fresh(folder[n], sha)
    ensures !NeedHash(stored, n, folder[n]) ==>
      n in stored && ScanMetadata(stored, folder, sha)[n] == stored[n] && ScanResult(stored, folder, sha)[n] == stored[n]
  {
  }

  /** A second scan of an unchanged folder changes nothing and returns the same. */
  lemma ScanIdempotent(stored: map<string, Meta>, folder: map<string, Stat>, sha: seq<bv8> -> string)
    ensures var once := ScanMetadata(stored, folder, sha);
      && ScanMetadata(once, folder, sha) == once
      && ScanResult(once, folder, sha) == ScanResult(stored, folder, sha)
  {
    var once := ScanMetadata(stored, folder, sha);
    forall n | n in LocalNames(folder)
      ensures Scanned(once, n, folder[n], sha) == once[n]
    {
    }
  }

  /**
   * The cache trusts mtime and size: when a file's bytes change but its mtime
   * and size do not, the next scan returns the entry of the previous scan,
   * whatever the hash of the new bytes.
   */
  lemma SameStatKeepsOldHash(stored: map<string, Meta>, folder: map<string, Stat>, sha: seq<bv8> -> string,
                             n: string, bytes: seq<bv8>)
    requires n in LocalNames(folder) && sha(folder[n].content) != []
    ensures var later := folder[n := folder[n].(content := bytes)];
      ScanResult(ScanMetadata(stored, folder, sha), later, sha)[n] == ScanResult(stored, folder, sha)[n]
  {
    var later := folder[n := folder[n].(content := bytes)];
    assert LocalNames(later) == LocalNames(folder);
  }

  /** Right after a scan, `is_file_modified` is false for every globbed file. */
  lemma NotModifiedAfterScan(stored: map<string, Meta>, folder: map<string, Stat>, sha: seq<bv8> -> string, n: string)
    requires n in LocalNames(folder)
    ensures !Modified(ScanMetadata(stored, folder, sha), n, ScanResult(stored, folder, sha)[n], folder[n].mtime)
  {
  }

  // ================================================================ watcher

  lemma LowerSuffix(s: string, t: string)
    requires EndsWith(s, t)
    ensures EndsWith(Lower(s), Lower(t))
  {
    assert Lower(s)[|s| - |t|..] == Lower(t);
  }

  /** Every file the glob picks up also wakes the watcher. */
  lemma GlobbedNamesWatched(folder: map<string, Stat>, n: string)
    requires n in LocalNames(folder)
    ensures Watched(false, n)
  {
    LowerSuffix(n, CtbExt);
    assert Lower(CtbExt) == CtbExt;
  }

  /**
   * The watcher ignores directories and letter case; the glob does not ignore
   * case, so a `.CTB` file requests a sync that does not pick it up.
   */
  lemma WatcherExamples()
    ensures Watched(false, "Part.CTB") && !Watched(true, "parts.ctb") && !Watched(false, "part.ctb.tmp")
    ensures "Part.CTB" !in LocalNames(map["Part.CTB" := Stat(0, 0, [])])
  {
    assert Lower("Part.CTB") == "part.ctb";
    assert Lower("part.ctb.tmp")[8..] == ".tmp";
    assert "Part.CTB"[4..] == ".CTB";
  }
  // ================================================================ upload_file

  /** `upload_file` reaches `uploadFile`: the printer is not reported printing and the size settled. */
  predicate Sends(w: World, name: string) {
    w.device.printing.Ok? && w.device.printing.value != "Printing" && w.settled(name)
  }

  /** The `finally` block: state `synced`, the file no longer syncing, nothing else touched. */
  lemma FinishOutcome(a: Agent, name: string)
    ensures var r := Finish(a, name);
      && r.status == Synced && r.syncing == a.syncing - {name}
      && r.shown == (if a.status == Synced then a.shown else a.shown + [Synced])
      && r.metadata == a.metadata && r.errors == a.errors && r.requests == a.requests
      && r.paused == a.paused && r.manual == a.manual
  {
  }

  /** The size wait and the upload touch no other file's entry and drop no other message. */
  lemma DeliverOutcome(a: Agent, w: World, name: string)
    requires name in w.folder
    ensures var r := Deliver(a, w, name);
      && r.requests == a.requests + (if w.settled(name) then [Store(name)] else [])
      && (r.metadata == a.metadata || r.metadata == a.metadata[name := Fresh(w.folder[name], w.sha)])
      && a.errors - {name} <= r.errors
      && r.syncing == a.syncing && r.paused == a.paused && r.manual == a.manual
  {
    if w.settled(name) {
      var sent := a.(requests := a.requests + [Store(name)]);
      match w.device.answer(name)
      case Raised(f) =>
        HandleErrorMeaning(sent, UploadException(f));
      case Ok(result) =>
        if UploadFailed(result) {
          HandleErrorMeaning(sent, "Upload error: " + result);
        }
    }
  }

  lemma AttemptOutcome(a: Agent, w: World, name: string)
    requires name in w.folder
    ensures var r := Attempt(a, w, name);
      && r.requests == a.requests + (if Sends(w, name) then [Store(name)] else [])
      && (r.metadata == a.metadata || r.metadata == a.metadata[name := Fresh(w.folder[name], w.sha)])
      && a.errors - {name} <= r.errors
      && r.syncing - {name} == a.syncing - {name}
      && r.manual == a.manual
      && (w.device.printing != Ok("Printing") && !a.paused ==> !r.paused)
  {
    if w.device.printing.Ok? && w.device.printing.value != "Printing" {
      DeliverOutcome(SetStatus(a.(paused := false, syncing := a.syncing + {name}), Syncing), w, name);
    }
  }

  /**
   * Whatever happens inside it, `upload_file` ends in state `synced` with the
   * file no longer syncing; it asks the printer to store the file exactly when
   * it gets that far; it touches no other file's entry and removes no error
   * message other than one equal to the file name.
   */
  lemma UploadOneOutcome(a: Agent, w: World, name: string)
    requires name in w.folder
    ensures var r := UploadOne(a, w, name);
      && r.status == Synced
      && r.syncing == a.syncing - {name}
      && r.requests == a.requests + (if Sends(w, name) then [Store(name)] else [])
      && (r.metadata == a.metadata || r.metadata == a.metadata[name := Fresh(w.folder[name], w.sha)])
      && a.errors - {name} <= r.errors
      && r.manual == a.manual
      && (w.device.printing != Ok("Printing") && !a.paused ==> !r.paused)
  {
    AttemptOutcome(a, w, name);
    FinishOutcome(Attempt(a, w, name), name);
  }

  /** A failed delivery from state `syncing`: the message is added, entries kept, the icon shows `error`. */
  lemma DeliveryFails(b: Agent, w: World, name: string, message: string)
    requires name in w.folder && w.settled(name) && b.status == Syncing
    requires match w.device.answer(name)
      case Raised(f) => message == UploadException(f)
      case Ok(result) => UploadFailed(result) && message == "Upload error: " + result
    ensures var r := Deliver(b, w, name);
      && r.errors == b.errors + {message} && r.metadata == b.metadata
      && r.status == Error && r.shown == b.shown + [Error]
  {
  }

  /** A successful delivery rewrites the file's entry and drops an error entry named like the file. */
  lemma DeliverySucceeds(b: Agent, w: World, name: string)
    requires name in w.folder && w.settled(name)
    requires w.device.answer(name).Ok? && !UploadFailed(w.device.answer(name).value)
    ensures var r := Deliver(b, w, name);
      && r.metadata == b.metadata[name := Fresh(w.folder[name], w.sha)]
      && r.errors == b.errors - {name}
  {
  }

  /**
   * The results of the upload itself: success rewrites the file's entry from
   * its current state and drops an error entry named like the file; an
   * exception or a failure text adds a message and keeps the entries, and the
   * icon shows `error` only to be switched back to `synced` at once.
   */
  lemma UploadOneResult(a: Agent, w: World, name: string)
    requires name in w.folder && Sends(w, name)
    ensures var r := UploadOne(a, w, name);
      match w.device.answer(name)
      case Ok(result) =>
        if UploadFailed(result) then
          && r.errors == a.errors + {"Upload error: " + result} && r.metadata == a.metadata
          && |r.shown| >= 2 && r.shown[|r.shown| - 2..] == [Error, Synced]
        else
          && r.metadata == a.metadata[name := Fresh(w.folder[name], w.sha)]
          && r.errors == a.errors - {name}
      case Raised(f) =>
        && r.errors == a.errors + {UploadException(f)} && r.metadata == a.metadata
        && |r.shown| >= 2 && r.shown[|r.shown| - 2..] == [Error, Synced]
  {
    var busy := SetStatus(a.(paused := false, syncing := a.syncing + {name}), Syncing);
    assert Attempt(a, w, name) == Deliver(busy, w, name);
    FinishOutcome(Deliver(busy, w, name), name);
    match w.device.answer(name)
    case Ok(result) =>
      if UploadFailed(result) {
        DeliveryFails(busy, w, name, "Upload error: " + result);
      } else {
        DeliverySucceeds(busy, w, name);
      }
    case Raised(f) =>
      DeliveryFails(busy, w, name, UploadException(f));
  }

  /**
   * `error_files` holds messages while success removes the file name, so a
   * failed upload's message survives a later successful upload of the same file.
   */
  lemma ErrorOutlivesSuccess(a: Agent, failing: World, working: World, name: string, result: string)
    requires name in failing.folder && name in working.folder
    requires Sends(failing, name) && failing.device.answer(name) == Ok(result) && UploadFailed(result)
    requires Sends(working, name) && working.device.answer(name).Ok? && !UploadFailed(working.device.answer(name).value)
    requires name != "Upload error: " + result
    ensures "Upload error: " + result in UploadOne(UploadOne(a, failing, name), working, name).errors
  {
    UploadOneResult(a, failing, name);
    UploadOneResult(UploadOne(a, failing, name), working, name);
  }
  // ================================================================ sync_all

  lemma AppendAssoc<T>(x: seq<T>, y: seq<T>, z: seq<T>)
    ensures x + y + z == x + (y + z)
  {
  }

  /** The `removeCardFile` requests for `names`, in order. */
  function Removals(names: seq<string>): seq<Request> {
    if names == [] then [] else Removals(names[..|names| - 1]) + [Remove(names[|names| - 1])]
  }

  /** The `uploadFile` requests the upload loop makes for `names`: absent remotely and sent. */
  function Stores(w: World, remote: set<string>, names: seq<string>): seq<Request> {
    if names == [] then []
    else
      var name := names[|names| - 1];
      Stores(w, remote, names[..|names| - 1]) + (if name !in remote && Sends(w, name) then [Store(name)] else [])
  }

  /** One pass of the deletion loop: one request; the entry goes unless the removal raised. */
  lemma DeleteOneEffect(b: Agent, w: World, name: string)
    ensures var r := DeleteOne(b, w, name);
      && r.requests == b.requests + [Remove(name)]
      && (forall k :: k in r.metadata <==> k in b.metadata && (k != name || name in w.device.unremovable))
      && (forall k | k in r.metadata :: r.metadata[k] == b.metadata[k])
      && b.errors <= r.errors
      && r.syncing == b.syncing && r.paused == b.paused && r.manual == b.manual
  {
  }

  /** The deletion loop's effect on `names`, as `DeletePhaseEffect` states it. */
  ghost predicate DeletedAll(a: Agent, w: World, names: seq<string>, r: Agent) {
    && r.requests == a.requests + Removals(names)
    && (forall k :: k in r.metadata <==> k in a.metadata && (k !in names || k in w.device.unremovable))
    && (forall k | k in r.metadata :: r.metadata[k] == a.metadata[k])
    && a.errors <= r.errors
    && r.syncing == a.syncing && r.paused == a.paused && r.manual == a.manual
  }

  /** The deletion loop and its requests on one more name. */
  lemma DeleteSnoc(a: Agent, w: World, front: seq<string>, name: string)
    ensures DeletePhase(a, w, front + [name]) == DeleteOne(DeletePhase(a, w, front), w, name)
    ensures Removals(front + [name]) == Removals(front) + [Remove(name)]
  {
    assert (front + [name])[..|front|] == front;
  }

  lemma DeleteStep(a: Agent, w: World, front: seq<string>, name: string, b: Agent)
    requires DeletedAll(a, w, front, b)
    ensures DeletedAll(a, w, front + [name], DeleteOne(b, w, name))
  {
    DeleteOneEffect(b, w, name);
    AppendAssoc(a.requests, Removals(front), [Remove(name)]);
    DeleteSnoc(a, w, front, name);
  }

  /**
   * The deletion loop asks the printer to remove each name once, in order;
   * the entries of the names it removed are gone, every other entry stays,
   * and no message is dropped.
   */
  lemma {:induction false} DeletePhaseEffect(a: Agent, w: World, names: seq<string>)
    decreases |names|
    ensures DeletedAll(a, w, names, DeletePhase(a, w, names))
  {
    if names == [] {
      assert a.requests + [] == a.requests;
    } else {
      var front := names[..|names| - 1];
      assert names == front + [names[|names| - 1]];
      DeletePhaseEffect(a, w, front);
      DeleteSnoc(a, w, front, names[|names| - 1]);
      DeleteStep(a, w, front, names[|names| - 1], DeletePhase(a, w, front));
    }
  }

  /** The upload loop may start on `names`: each is scanned, globbed, and its entry is the scanned one. */
  predicate Ready(a: Agent, w: World, local: map<string, Meta>, names: seq<string>) {
    forall n | n in names ::
      && n in local && n in w.folder && EndsWith(n, CtbExt)
      && n in a.metadata && a.metadata[n] == local[n]
      && local[n].mtime == w.folder[n].mtime && local[n].size == w.folder[n].size
  }

  /** The entry of `n` is current: it has the file's mtime and size. */
  predicate Current(a: Agent, w: World, n: string)
    requires n in w.folder
  {
    n in a.metadata && a.metadata[n].mtime == w.folder[n].mtime && a.metadata[n].size == w.folder[n].size
  }

  /**
   * One step of the upload loop on a name whose entry is the scanned one:
   * `is_file_modified` is false, so the file is uploaded exactly when it is
   * absent from the printer.
   */
  lemma UploadStepAbsentOnly(a: Agent, w: World, local: map<string, Meta>, remote: set<string>, name: string)
    requires Ready(a, w, local, [name])
    ensures UploadStep(a, w, local, remote, name) == if name in remote then a else UploadOne(a, w, name)
  {
    assert name in [name];
    LowerSuffix(name, CtbExt);
    assert Lower(CtbExt) == CtbExt;
    assert EndsWith(Lower(name), CtbExt);
    if name in remote {
      assert !Modified(a.metadata, name, local[name], w.folder[name].mtime);
    }
  }

  /** The upload loop's effect on `names`, as `UploadPhaseEffect` states it. */
  ghost predicate UploadedAll(a: Agent, w: World, remote: set<string>, names: seq<string>, r: Agent) {
    && r.requests == a.requests + Stores(w, remote, names)
    && (forall k | k !in names :: (k in r.metadata <==> k in a.metadata))
    && (forall k | k !in names && k in a.metadata :: r.metadata[k] == a.metadata[k])
    && (forall k | k in names && k in w.folder :: Current(r, w, k))
    && r.manual == a.manual
    && (w.device.printing != Ok("Printing") && !a.paused ==> !r.paused)
  }

  /** The last name of a distinct sequence is not among the others, which are distinct. */
  lemma DistinctFront(names: seq<string>)
    requires names != [] && Distinct(names)
    ensures names[|names| - 1] !in names[..|names| - 1] && Distinct(names[..|names| - 1])
    ensures forall k :: k in names <==> k in names[..|names| - 1] || k == names[|names| - 1]
  {
    var front := names[..|names| - 1];
    assert names == front + [names[|names| - 1]];
    assert forall j | 0 <= j < |front| :: front[j] == names[j];
  }

  /** The upload loop and its requests on one more name. */
  lemma UploadSnoc(a: Agent, w: World, local: map<string, Meta>, remote: set<string>, front: seq<string>, name: string)
    requires forall n | n in front + [name] :: n in local && n in w.folder
    ensures UploadPhase(a, w, local, remote, front + [name])
      == UploadStep(UploadPhase(a, w, local, remote, front), w, local, remote, name)
    ensures Stores(w, remote, front + [name])
      == Stores(w, remote, front) + (if name !in remote && Sends(w, name) then [Store(name)] else [])
  {
    assert (front + [name])[..|front|] == front;
  }

  /** A name the printer already holds is skipped: its entry is the scanned one and stays current. */
  lemma UploadSkipped(a: Agent, w: World, remote: set<string>, front: seq<string>, name: string, b: Agent)
    requires name in remote && name in w.folder && Current(b, w, name)
    requires UploadedAll(a, w, remote, front, b)
    ensures UploadedAll(a, w, remote, front + [name], b)
  {
    assert a.requests + Stores(w, remote, front) + [] == a.requests + Stores(w, remote, front);
  }

  /** The bookkeeping of `UploadTaken`, for any agent `r` that `upload_file` may leave. */
  lemma UploadTakenBy(a: Agent, w: World, remote: set<string>, front: seq<string>, name: string, b: Agent, r: Agent)
    requires name !in remote && name !in front && name in w.folder && Current(b, w, name)
    requires UploadedAll(a, w, remote, front, b)
    requires r.requests == b.requests + (if Sends(w, name) then [Store(name)] else [])
    requires r.metadata == b.metadata || r.metadata == b.metadata[name := Fresh(w.folder[name], w.sha)]
    requires r.manual == b.manual
    requires w.device.printing != Ok("Printing") && !b.paused ==> !r.paused
    ensures UploadedAll(a, w, remote, front + [name], r)
  {
    StoresSnoc(w, remote, front, name);
    AppendAssoc(a.requests, Stores(w, remote, front), if Sends(w, name) then [Store(name)] else []);
    var names := front + [name];
    forall k | k !in names
      ensures (k in r.metadata <==> k in a.metadata)
      ensures k in a.metadata ==> r.metadata[k] == a.metadata[k]
    {
      assert k != name && k !in front;
    }
    forall k | k in names && k in w.folder
      ensures Current(r, w, k)
    {
      if k != name {
        assert k in front;
      }
    }
  }

  lemma StoresSnoc(w: World, remote: set<string>, front: seq<string>, name: string)
    ensures Stores(w, remote, front + [name])
      == Stores(w, remote, front) + (if name !in remote && Sends(w, name) then [Store(name)] else [])
  {
    assert (front + [name])[..|front|] == front;
  }

  /** A name the printer does not hold goes through `upload_file`. */
  lemma UploadTaken(a: Agent, w: World, remote: set<string>, front: seq<string>, name: string, b: Agent)
    requires name !in remote && name !in front && name in w.folder && Current(b, w, name)
    requires UploadedAll(a, w, remote, front, b)
    ensures UploadedAll(a, w, remote, front + [name], UploadOne(b, w, name))
  {
    UploadOneOutcome(b, w, name);
    UploadTakenBy(a, w, remote, front, name, b, UploadOne(b, w, name));
  }

  lemma UploadNext(a: Agent, w: World, local: map<string, Meta>, remote: set<string>, front: seq<string>, name: string,
                   b: Agent)
    requires name !in front && Ready(a, w, local, [name])
    requires UploadedAll(a, w, remote, front, b)
    ensures UploadedAll(a, w, remote, front + [name], UploadStep(b, w, local, remote, name))
  {
    assert name in [name];
    assert Ready(b, w, local, [name]);
    UploadStepAbsentOnly(b, w, local, remote, name);
    if name in remote {
      UploadSkipped(a, w, remote, front, name, b);
    } else {
      UploadTaken(a, w, remote, front, name, b);
    }
  }

  /**
   * The upload loop on distinct, ready names asks the printer to store
   * exactly the names absent from it that `upload_file` gets to send; it
   * leaves the entries of other names alone and every entry of its names
   * current.
   */
  lemma {:induction false} UploadPhaseEffect(a: Agent, w: World, local: map<string, Meta>, remote: set<string>,
                                             names: seq<string>)
    requires Distinct(names) && Ready(a, w, local, names)
    decreases |names|
    ensures UploadedAll(a, w, remote, names, UploadPhase(a, w, local, remote, names))
  {
    if names == [] {
      assert a.requests + [] == a.requests;
    } else {
      var front := names[..|names| - 1];
      var name := names[|names| - 1];
      DistinctFront(names);
      assert names == front + [name];
      assert Ready(a, w, local, front) && Ready(a, w, local, [name]);
      UploadPhaseEffect(a, w, local, remote, front);
      UploadSnoc(a, w, local, remote, front, name);
      UploadNext(a, w, local, remote, front, name, UploadPhase(a, w, local, remote, front));
    }
  }
  /** After the scan and the deletions, the upload loop may start on the globbed names. */
  lemma ReadyAfterDeletions(a: Agent, w: World)
    requires ValidWorld(w)
    ensures var local := ScanResult(a.metadata, w.folder, w.sha);
      var deleted := DeletePhase(a.(metadata := ScanMetadata(a.metadata, w.folder, w.sha)), w, w.deleteOrder);
      && local.Keys == LocalNames(w.folder)
      && Ready(deleted, w, local, w.globOrder)
      && DeletedAll(a.(metadata := ScanMetadata(a.metadata, w.folder, w.sha)), w, w.deleteOrder, deleted)
  {
    ScanRecords(a.metadata, w.folder, w.sha);
    DeletePhaseEffect(a.(metadata := ScanMetadata(a.metadata, w.folder, w.sha)), w, w.deleteOrder);
  }

  /** The last two steps of `sync_all`, for any agent the upload loop may leave. */
  lemma PurgeLeavesLocal(w: World, local: map<string, Meta>, uploaded: Agent)
    requires forall k :: k in w.globOrder <==> k in local
    requires forall k | k in w.globOrder :: k in w.folder && Current(uploaded, w, k)
    ensures var r := SetStatus(Purge(uploaded, local.Keys), Synced);
      && r.status == Synced
      && r.metadata.Keys == local.Keys
      && (forall n | n in r.metadata :: r.metadata[n].mtime == w.folder[n].mtime && r.metadata[n].size == w.folder[n].size)
      && r.requests == uploaded.requests && r.manual == uploaded.manual && r.paused == uploaded.paused
  {
  }

  /**
   * A whole pass of `sync_all`: the printer is asked to remove each name of
   * the deletion set once, then to store the globbed names it does not hold
   * (as far as `upload_file` gets), never a name it holds; afterwards
   * `metadata` has an entry, current in mtime and size, for exactly the
   * globbed files, and the state is `synced`.
   */
  lemma SyncPass(a: Agent, w: World)
    requires ValidWorld(w)
    ensures var r := SyncRun(a, w);
      && r.status == Synced
      && r.metadata.Keys == LocalNames(w.folder)
      && (forall n | n in r.metadata :: r.metadata[n].mtime == w.folder[n].mtime && r.metadata[n].size == w.folder[n].size)
      && r.requests == a.requests + Removals(w.deleteOrder) + Stores(w, Remote(w.device), w.globOrder)
      && r.manual == a.manual
      && (w.device.printing != Ok("Printing") && !a.paused ==> !r.paused)
  {
    var started := SetStatus(a, Syncing);
    var local := ScanResult(started.metadata, w.folder, w.sha);
    var scanned := started.(metadata := ScanMetadata(started.metadata, w.folder, w.sha));
    ReadyAfterDeletions(started, w);
    var deleted := DeletePhase(scanned, w, w.deleteOrder);
    UploadPhaseEffect(deleted, w, local, Remote(w.device), w.globOrder);
    var uploaded := UploadPhase(deleted, w, local, Remote(w.device), w.globOrder);
    PurgeLeavesLocal(w, local, uploaded);
    AppendAssoc(a.requests, Removals(w.deleteOrder), Stores(w, Remote(w.device), w.globOrder));
  }

  lemma RemovalsMembers(names: seq<string>)
    ensures forall r | r in Removals(names) :: r.Remove? && r.name in names
    ensures forall n | n in names :: Remove(n) in Removals(names)
  {
    if names != [] {
      RemovalsMembers(names[..|names| - 1]);
      assert names == names[..|names| - 1] + [names[|names| - 1]];
    }
  }

  lemma StoresMembers(w: World, remote: set<string>, names: seq<string>)
    ensures forall r | r in Stores(w, remote, names) :: r.Store? && r.name in names && r.name !in remote && Sends(w, r.name)
    ensures forall n | n in names && n !in remote && Sends(w, n) :: Store(n) in Stores(w, remote, names)
  {
    if names != [] {
      StoresMembers(w, remote, names[..|names| - 1]);
      assert names == names[..|names| - 1] + [names[|names| - 1]];
    }
  }

  /**
   * The plan of a pass as sets: a name is removed from the printer exactly
   * when the printer lists it and the folder does not hold it; a name is
   * sent exactly when the folder holds it, the printer does not list it and
   * `upload_file` gets that far. A file the printer already holds is never
   * sent again, whatever changed in it.
   */
  lemma SyncPlan(a: Agent, w: World)
    requires ValidWorld(w)
    ensures var sent := SyncRun(a, w).requests;
      && (forall n :: Remove(n) in sent <==> Remove(n) in a.requests || (n in Remote(w.device) && n !in LocalNames(w.folder)))
      && (forall n :: Store(n) in sent <==> Store(n) in a.requests || (n in LocalNames(w.folder) && n !in Remote(w.device) && Sends(w, n)))
  {
    SyncPass(a, w);
    RemovalsMembers(w.deleteOrder);
    StoresMembers(w, Remote(w.device), w.globOrder);
  }

  /** A sequence is empty or holds its first element. */
  lemma EmptyOrFirst<T>(names: seq<T>)
    ensures names == [] || names[0] in names
  {
  }

  /**
   * A quiet pass: when the printer already lists exactly the globbed names,
   * a pass neither removes nor sends anything. Only one pass is stated: a
   * pass does not change the printer's listing in this model.
   */
  lemma QuietPass(a: Agent, w: World)
    requires ValidWorld(w) && Remote(w.device) == LocalNames(w.folder)
    ensures SyncRun(a, w).requests == a.requests
  {
    SyncPass(a, w);
    var remote := Remote(w.device);
    assert forall n :: n !in w.deleteOrder;
    EmptyOrFirst(w.deleteOrder);
    StoresMembers(w, remote, w.globOrder);
    var stores := Stores(w, remote, w.globOrder);
    assert forall r :: r !in stores;
    EmptyOrFirst(stores);
  }

  // ================================================================ ping_and_sync and run

  /** A failed ping sets `offline` and reconciles nothing. */
  lemma FailedPingIsOffline(a: Agent, w: World)
    requires ValidWorld(w) && !Online(w.device)
    ensures var r := PingRun(a, w);
      && r.status == Offline && r.requests == a.requests && r.metadata == a.metadata
      && r.errors == a.errors && r.paused == a.paused
  {
  }

  /**
   * With the printer reachable and its status read by `printingStatus`, the
   * pause never engages: every ping runs a full pass and clears the pause flag.
   */
  lemma PingAlwaysSyncs(a: Agent, w: World, inbox: seq<string>)
    requires ValidWorld(w) && Online(w.device) && w.device.printing == StatusRun(inbox)
    ensures var r := PingRun(a, w);
      && r.status == Synced && !r.paused
      && r.requests == a.requests + Removals(w.deleteOrder) + Stores(w, Remote(w.device), w.globOrder)
      && r.metadata.Keys == LocalNames(w.folder)
  {
    PauseUnreachable(inbox);
    SyncPass(SetStatus(a, Synced).(paused := false), w);
  }

  /** A ping and the pass it runs leave a pending manual request alone. */
  lemma PingKeepsManual(a: Agent, w: World)
    requires ValidWorld(w)
    ensures PingRun(a, w).manual == a.manual
  {
    if Online(w.device) {
      SyncPass(SetStatus(a, Synced).(paused := false), w);
    }
  }

  /**
   * One iteration of `run`: a pending manual request is always cleared; an
   * offline agent whose ping fails skips the rest; otherwise the ping runs
   * exactly when it is due, and then the next one is `ping_interval` later.
   */
  lemma TickSchedule(a: Agent, w: World, nextPing: int, now: int, interval: int)
    requires ValidWorld(w)
    ensures var (r, next) := TickRun(a, w, nextPing, now, interval);
      && !r.manual
      && (a.manual && a.status == Offline && !Online(w.device) ==> r == a.(manual := false) && next == nextPing)
      && (!(a.manual && a.status == Offline && !Online(w.device)) ==>
            next == (if now >= nextPing then now + interval else nextPing))
      && (!a.manual && now < nextPing ==> r == a)
  {
    if a.manual {
      var cleared := a.(manual := false);
      if !(cleared.status == Offline && !Online(w.device)) {
        SyncPass(cleared, w);
        PingKeepsManual(SyncRun(cleared, w), w);
      }
    } else {
      PingKeepsManual(a, w);
    }
  }

  /** The watcher requests a sync for a `.ctb` file event and only for one. */
  lemma WatcherRequests(isDirectory: bool, path: string)
    ensures Watched(isDirectory, path) ==> !isDirectory && |path| >= 4 && Lower(path[|path| - 4..]) == CtbExt
    ensures !isDirectory && |path| >= 4 && Lower(path[|path| - 4..]) == CtbExt ==> Watched(isDirectory, path)
  {
    if |path| >= 4 {
      assert Lower(path)[|path| - 4..] == Lower(path[|path| - 4..]);
    }
  }

  /** After any pass of the `run` loop no manual request is pending. */
  lemma RunClearsManual(a: Agent, moments: seq<Moment>, interval: int)
    requires forall m | m in moments :: ValidWorld(m.world)
    requires moments != []
    ensures !RunTicks(a, moments, interval).0.manual
  {
    var last := moments[|moments| - 1];
    var (b, nextPing) := RunTicks(a, moments[..|moments| - 1], interval);
    TickSchedule(b, last.world, nextPing, last.now, interval);
  }

  /** With a non-negative interval the next ping time never moves back. */
  lemma {:induction false} RunPingNeverMovesBack(a: Agent, moments: seq<Moment>, interval: int, k: nat)
    requires forall m | m in moments :: ValidWorld(m.world)
    requires interval >= 0 && k <= |moments|
    ensures RunTicks(a, moments[..k], interval).1 <= RunTicks(a, moments, interval).1
  {
    if k < |moments| {
      var front := moments[..|moments| - 1];
      var last := moments[|moments| - 1];
      assert moments[..k] == front[..k];
      RunPingNeverMovesBack(a, front, interval, k);
      var (b, nextPing) := RunTicks(a, front, interval);
      TickSchedule(b, last.world, nextPing, last.now, interval);
    } else {
      assert moments[..k] == moments;
    }
  }
}
