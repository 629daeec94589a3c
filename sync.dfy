/**
 * The reconciliation engine of saturn_sync_full.py (class `SyncAgent`)
 * without its UI, threads and disk files. The agent's state is a snapshot
 * datatype `Agent`; each operation of the source is a function on it (the
 * specification) and a method of class `SyncAgent` that updates the fields
 * the way the source does and is proved equal to that function.
 *
 * The outside world of one step is a `World`: the sync folder as a map from
 * name to what `stat()` and reading the file give, the order in which the
 * folder glob and the deletion set are enumerated, the hash function, whether
 * a file's size settles before upload, and how the printer answers.
 */
module Sync {
  import opened Wrappers
  import opened Text
  import opened Replies
  import opened CbdApi

  // ================================================================ state

  /** The tray states (`offline`, `syncing`, `synced`, `error`). */
  datatype Status = Offline | Syncing | Synced | Error

  /** A `metadata` entry; an empty checksum stands for a missing or empty one. */
  datatype Meta = Meta(mtime: int, size: int, checksum: string)

  /** What `stat()` and reading a local file give. */
  datatype Stat = Stat(mtime: int, size: nat, content: seq<bv8>)

  /** A request that changes the printer's storage: `removeCardFile` or `uploadFile`. */
  datatype Request = Remove(name: string) | Store(name: string)

  /**
   * How the printer answers during one step: the replies to `getVer`, what
   * `printingStatus` returns (the same each time it is asked; module CbdApi
   * says which values it can take), the replies to `getCardFiles`, the names
   * whose `removeCardFile` raises, and what `uploadFile` returns.
   */
  datatype Device = Device(
    verReplies: seq<string>,
    printing: Result<string>,
    listReplies: seq<string>,
    unremovable: set<string>,
    answer: string -> Result<string>)

  /**
   * The world of one step. `globOrder` is the order `glob("*.ctb")` yields the
   * folder's names in, `deleteOrder` the order the deletion set is iterated in,
   * `sha` stands for `compute_checksum`, `settled` says whether the size wait of
   * `upload_file` ends before its 60 seconds are up.
   */
  datatype World = World(
    folder: map<string, Stat>,
    globOrder: seq<string>,
    deleteOrder: seq<string>,
    sha: seq<bv8> -> string,
    settled: string -> bool,
    device: Device)

  /**
   * The agent's fields: `status`, `metadata`, `error_files`, `syncing_files`,
   * `printing_paused`, `manual_sync_requested`; `shown` lists the states the
   * tray icon was switched to and `requests` what was asked of the printer.
   */
  datatype Agent = Agent(
    status: Status,
    metadata: map<string, Meta>,
    errors: set<string>,
    syncing: set<string>,
    paused: bool,
    manual: bool,
    shown: seq<Status>,
    requests: seq<Request>)

  // ================================================================ the world

  /** The names `glob("*.ctb")` yields (case-sensitive, as on POSIX). */
  function LocalNames(folder: map<string, Stat>): set<string> {
    set n | n in folder && EndsWith(n, CtbExt)
  }

  /** `getVer` returns: a reply arrived and its fourth field has a colon. */
  predicate Online(d: Device) {
    d.verReplies != [] && IdentifyField(d.verReplies[0], 3).Ok?
  }

  /** The keys of `dict(getCardFiles())`, or none when the listing raises. */
  function Remote(d: Device): set<string> {
    var listing := ListingRun(d.listReplies).0;
    if listing.Raised? then {} else set e | e in listing.value :: e.0
  }

  predicate Distinct(s: seq<string>) {
    forall i, j | 0 <= i < j < |s| :: s[i] != s[j]
  }

  /** The two enumerations list each member of their set once. */
  ghost predicate ValidWorld(w: World) {
    && Distinct(w.globOrder)
    && (forall n :: n in w.globOrder <==> n in LocalNames(w.folder))
    && Distinct(w.deleteOrder)
    && (forall n :: n in w.deleteOrder <==> n in Remote(w.device) && n !in LocalNames(w.folder))
  }

  // ================================================================ status

  /** `update_status`: nothing happens when the state is unchanged; otherwise the icon switches. */
  function SetStatus(a: Agent, s: Status): Agent {
    if s == a.status then a else a.(status := s, shown := a.shown + [s])
  }

  /** `handle_error`: the message (not a file name) joins `error_files`; the state becomes `error`. */
  function HandleError(a: Agent, message: string): Agent {
    SetStatus(a.(errors := a.errors + {message}), Error)
  }

  // ================================================================ scan

  /** `need_hash` of `scan_local_files`. */
  predicate NeedHash(metadata: map<string, Meta>, name: string, st: Stat) {
    name !in metadata || metadata[name].checksum == []
    || metadata[name].mtime != st.mtime || metadata[name].size != st.size
  }

  /** A freshly hashed entry. */
  function Fresh(st: Stat, sha: seq<bv8> -> string): Meta {
    Meta(st.mtime, st.size, sha(st.content))
  }

  /** The entry a scan gives `name`: fresh when a hash is needed, the stored one otherwise. */
  function Scanned(metadata: map<string, Meta>, name: string, st: Stat, sha: seq<bv8> -> string): Meta {
    if NeedHash(metadata, name, st) then Fresh(st, sha) else metadata[name]
  }

  /** `files_meta` after the names in `done` were scanned. */
  function ScannedPart(metadata: map<string, Meta>, folder: map<string, Stat>, done: set<string>,
                       sha: seq<bv8> -> string): map<string, Meta>
    requires done <= folder.Keys
  {
    map n | n in done :: Scanned(metadata, n, folder[n], sha)
  }

  /** `self.metadata` after the names in `done` were scanned. */
  function StoredPart(metadata: map<string, Meta>, folder: map<string, Stat>, done: set<string>,
                      sha: seq<bv8> -> string): map<string, Meta>
    requires done <= folder.Keys
  {
    map n | n in metadata.Keys + done :: if n in done then Scanned(metadata, n, folder[n], sha) else metadata[n]
  }

  /**
   * Scanning one more name: the stored entry it sees is the original one, and
   * both maps gain exactly that name's scanned entry.
   */
  lemma ScanStep(stored: map<string, Meta>, folder: map<string, Stat>, done: set<string>,
                 sha: seq<bv8> -> string, key: string)
    requires done <= folder.Keys && key in folder && key !in done
    ensures var current := StoredPart(stored, folder, done, sha);
      && NeedHash(current, key, folder[key]) == NeedHash(stored, key, folder[key])
      && (key in current ==> current[key] == stored[key])
      && StoredPart(stored, folder, done + {key}, sha)
         == (if NeedHash(stored, key, folder[key]) then current[key := Fresh(folder[key], sha)] else current)
      && ScannedPart(stored, folder, done + {key}, sha)
         == ScannedPart(stored, folder, done, sha)[key := Scanned(stored, key, folder[key], sha)]
  {
  }

  /** What `scan_local_files` returns. */
  function ScanResult(metadata: map<string, Meta>, folder: map<string, Stat>, sha: seq<bv8> -> string): map<string, Meta> {
    ScannedPart(metadata, folder, LocalNames(folder), sha)
  }

  /** `self.metadata` after `scan_local_files`. */
  function ScanMetadata(metadata: map<string, Meta>, folder: map<string, Stat>, sha: seq<bv8> -> string): map<string, Meta> {
    StoredPart(metadata, folder, LocalNames(folder), sha)
  }

  /** `is_file_modified`, with the disk mtime of the file read at the time of the call. */
  predicate Modified(metadata: map<string, Meta>, name: string, local: Meta, diskMtime: int) {
    name !in metadata || local.checksum != metadata[name].checksum || diskMtime != metadata[name].mtime
  }

  // ================================================================ upload_file

  /** The result text `upload_file` treats as a failure. */
  predicate UploadFailed(result: string) {
    Contains(result, "Error") || Contains(result, "Failed") || Contains(result, "No Response")
  }

  /** `str(e)` of the exceptions the printer calls raise. */
  function Describe(f: Fault): string {
    match f
    case Timeout => "timed out"
    case IndexError => "list index out of range"
    case ValueError => "invalid literal for int()"
    case OSError => "[Errno 22] Invalid argument"
    case OverflowError => "int too big to convert"
    case FileNotFound => "[Errno 2] No such file or directory"
  }

  function UploadException(f: Fault): string {
    "Upload exception: " + Describe(f)
  }

  /** The `finally` block of `upload_file`. */
  function Finish(a: Agent, name: string): Agent {
    SetStatus(a.(syncing := a.syncing - {name}), Synced)
  }

  /**
   * The part of `upload_file` after the file was marked as syncing: the size
   * wait, the upload, and the handling of its result.
   */
  function Deliver(a: Agent, w: World, name: string): Agent
    requires name in w.folder
  {
    if !w.settled(name) then SetStatus(a, Error)
    else
      var sent := a.(requests := a.requests + [Store(name)]);
      match w.device.answer(name)
      case Raised(f) => HandleError(sent, UploadException(f))
      case Ok(result) =>
        if UploadFailed(result) then HandleError(sent, "Upload error: " + result)
        else sent.(metadata := sent.metadata[name := Fresh(w.folder[name], w.sha)], errors := sent.errors - {name})
  }

  /** The `try` block of `upload_file`. */
  function Attempt(a: Agent, w: World, name: string): Agent
    requires name in w.folder
  {
    match w.device.printing
    case Raised(f) => HandleError(a, UploadException(f))
    case Ok(state) =>
      if state == "Printing" then a.(paused := true)
      else Deliver(SetStatus(a.(paused := false, syncing := a.syncing + {name}), Syncing), w, name)
  }

  /** `upload_file(name)`. */
  function UploadOne(a: Agent, w: World, name: string): Agent
    requires name in w.folder
  {
    Finish(Attempt(a, w, name), name)
  }

  // ================================================================ sync_all

  function DeleteMessage(name: string): string {
    "Failed to delete '" + name + "' on printer"
  }

  /** One pass of the deletion loop (step 3 of `sync_all`). */
  function DeleteOne(a: Agent, w: World, name: string): Agent {
    var asked := a.(requests := a.requests + [Remove(name)]);
    if name in w.device.unremovable then HandleError(asked, DeleteMessage(name))
    else asked.(metadata := asked.metadata - {name})
  }

  /** The deletion loop over `names`, in order. */
  function DeletePhase(a: Agent, w: World, names: seq<string>): Agent
    decreases |names|
  {
    if names == [] then a else DeleteOne(DeletePhase(a, w, names[..|names| - 1]), w, names[|names| - 1])
  }

  /** One pass of the upload loop (step 4 of `sync_all`). */
  function UploadStep(a: Agent, w: World, local: map<string, Meta>, remote: set<string>, name: string): Agent
    requires name in local && name in w.folder
  {
    if !EndsWith(Lower(name), CtbExt) then a
    else if name !in remote then UploadOne(a, w, name)
    else if Modified(a.metadata, name, local[name], w.folder[name].mtime) then UploadOne(a, w, name)
    else a
  }

  /** The upload loop over `names`, in order. */
  function UploadPhase(a: Agent, w: World, local: map<string, Meta>, remote: set<string>, names: seq<string>): Agent
    requires forall n | n in names :: n in local && n in w.folder
    decreases |names|
  {
    if names == [] then a
    else UploadStep(UploadPhase(a, w, local, remote, names[..|names| - 1]), w, local, remote, names[|names| - 1])
  }

  /** Step 5 of `sync_all`: only entries of scanned names stay. */
  function Purge(a: Agent, keep: set<string>): Agent {
    a.(metadata := map n | n in a.metadata && n in keep :: a.metadata[n])
  }

  /** `sync_all`. */
  function SyncRun(a: Agent, w: World): Agent
    requires ValidWorld(w)
  {
    var started := SetStatus(a, Syncing);
    var local := ScanResult(started.metadata, w.folder, w.sha);
    var scanned := started.(metadata := ScanMetadata(started.metadata, w.folder, w.sha));
    var deleted := DeletePhase(scanned, w, w.deleteOrder);
    var uploaded := UploadPhase(deleted, w, local, Remote(w.device), w.globOrder);
    SetStatus(Purge(uploaded, local.Keys), Synced)
  }

  // ================================================================ the main loop

  /** `ping_and_sync`. */
  function PingRun(a: Agent, w: World): Agent
    requires ValidWorld(w)
  {
    if !Online(w.device) then SetStatus(a, Offline)
    else
      var assumed := SetStatus(a, Synced);
      match w.device.printing
      case Raised(_) => SyncRun(assumed.(paused := false), w)
      case Ok(state) =>
        if state == "Printing" then SetStatus(assumed.(paused := true), Synced)
        else
          var checked := assumed.(paused := false);
          if checked.paused then checked else SyncRun(checked, w)
  }

  /** The part of one `run` iteration after the manual-sync check. */
  function PingIfDue(a: Agent, w: World, nextPing: int, now: int, interval: int): (Agent, int)
    requires ValidWorld(w)
  {
    if now >= nextPing then (PingRun(a, w), now + interval) else (a, nextPing)
  }

  /**
   * One iteration of `run` at time `now`: the agent and the new `next_ping`.
   * An offline agent whose ping fails skips the rest of the iteration.
   */
  function TickRun(a: Agent, w: World, nextPing: int, now: int, interval: int): (Agent, int)
    requires ValidWorld(w)
  {
    if a.manual then
      var cleared := a.(manual := false);
      if cleared.status == Offline && !Online(w.device) then (cleared, nextPing)
      else PingIfDue(SyncRun(cleared, w), w, nextPing, now, interval)
    else PingIfDue(a, w, nextPing, now, interval)
  }

  /** One pass of the `run` loop: the clock reading and what the world looks like then. */
  datatype Moment = Moment(now: int, world: World)

  /**
   * The state and the next ping time after the `run` loop has gone through
   * `moments`, starting with the next ping due at 0.
   */
  function RunTicks(a: Agent, moments: seq<Moment>, interval: int): (Agent, int)
    requires forall m | m in moments :: ValidWorld(m.world)
    decreases |moments|
  {
    if moments == [] then (a, 0)
    else
      var last := moments[|moments| - 1];
      var (b, nextPing) := RunTicks(a, moments[..|moments| - 1], interval);
      TickRun(b, last.world, nextPing, last.now, interval)
  }

  /** `on_any_event`: the events that request a sync. */
  predicate Watched(isDirectory: bool, path: string) {
    !isDirectory && EndsWith(Lower(path), CtbExt)
  }

  // ================================================================ the agent

  class SyncAgent {
    var status: Status
    var metadata: map<string, Meta>
    var errorFiles: set<string>
    var syncingFiles: set<string>
    var printingPaused: bool
    var manualSyncRequested: bool
    var shown: seq<Status>
    var requests: seq<Request>
    /** `ping_interval_minutes * 60`. */
    const pingInterval: int

    function State(): Agent
      reads this
    {
      Agent(status, metadata, errorFiles, syncingFiles, printingPaused, manualSyncRequested, shown, requests)
    }

    /** The fields `__init__` sets, with `metadata` as loaded. */
    constructor(stored: map<string, Meta>, pingMinutes: int)
      ensures State() == Agent(Offline, stored, {}, {}, false, false, [], [])
      ensures pingInterval == pingMinutes * 60
    {
      status := Offline;
      metadata := stored;
      errorFiles := {};
      syncingFiles := {};
      printingPaused := false;
      manualSyncRequested := false;
      shown := [];
      requests := [];
      pingInterval := pingMinutes * 60;
    }

    method UpdateStatus(s: Status)
      modifies this`status, this`shown
      ensures State() == SetStatus(old(State()), s)
    {
      if s == status {
        return;
      }
      status := s;
      shown := shown + [s];
    }

    method HandleErrorMessage(message: string)
      modifies this`errorFiles, this`status, this`shown
      ensures State() == HandleError(old(State()), message)
    {
      errorFiles := errorFiles + {message};
      UpdateStatus(Error);
    }

    /** `scan_local_files`: one glob entry at a time. */
    method ScanLocalFiles(w: World) returns (files: map<string, Meta>)
      requires ValidWorld(w)
      modifies this`metadata
      ensures files == ScanResult(old(metadata), w.folder, w.sha)
      ensures metadata == ScanMetadata(old(metadata), w.folder, w.sha)
    {
      ghost var stored := metadata;
      ghost var done: set<string> := {};
      files := map[];
      for i := 0 to |w.globOrder|
        invariant forall n :: n in done <==> n in w.globOrder[..i]
        invariant done <= w.folder.Keys
        invariant files == ScannedPart(stored, w.folder, done, w.sha)
        invariant metadata == StoredPart(stored, w.folder, done, w.sha)
      {
        var key := w.globOrder[i];
        assert key in LocalNames(w.folder);
        assert key !in done by {
          assert forall j | 0 <= j < i :: w.globOrder[j] != key;
        }
        ScanStep(stored, w.folder, done, w.sha, key);
        var st := w.folder[key];
        var checksum := if key in metadata then metadata[key].checksum else [];
        if key !in metadata || checksum == [] || metadata[key].mtime != st.mtime || metadata[key].size != st.size {
          checksum := w.sha(st.content);
          metadata := metadata[key := Meta(st.mtime, st.size, checksum)];
        }
        files := files[key := Meta(st.mtime, st.size, checksum)];
        done := done + {key};
        assert w.globOrder[..i + 1] == w.globOrder[..i] + [key];
      }
      assert w.globOrder[..|w.globOrder|] == w.globOrder;
      assert done == LocalNames(w.folder);
    }

    method DeliverFile(w: World, name: string)
      requires name in w.folder
      modifies this`status, this`shown, this`metadata, this`errorFiles, this`requests
      ensures State() == Deliver(old(State()), w, name)
    {
      if !w.settled(name) {
        UpdateStatus(Error);
        return;
      }
      requests := requests + [Store(name)];
      var result := w.device.answer(name);
      if result.Raised? {
        HandleErrorMessage(UploadException(result.fault));
      } else if UploadFailed(result.value) {
        HandleErrorMessage("Upload error: " + result.value);
      } else {
        metadata := metadata[name := Fresh(w.folder[name], w.sha)];
        if name in errorFiles {
          errorFiles := errorFiles - {name};
        }
      }
    }

    method AttemptUpload(w: World, name: string)
      requires name in w.folder
      modifies this`status, this`shown, this`metadata, this`errorFiles, this`syncingFiles,
               this`printingPaused, this`requests
      ensures State() == Attempt(old(State()), w, name)
    {
      var state := w.device.printing;
      if state.Raised? {
        HandleErrorMessage(UploadException(state.fault));
        return;
      }
      if state.value == "Printing" {
        printingPaused := true;
        return;
      }
      printingPaused := false;
      syncingFiles := syncingFiles + {name};
      UpdateStatus(Syncing);
      DeliverFile(w, name);
    }

    /** `upload_file(name)`: the `try` block, then the `finally` block. */
    method UploadFile(w: World, name: string)
      requires name in w.folder
      modifies this`status, this`shown, this`metadata, this`errorFiles, this`syncingFiles,
               this`printingPaused, this`requests
      ensures State() == UploadOne(old(State()), w, name)
    {
      AttemptUpload(w, name);
      syncingFiles := syncingFiles - {name};
      UpdateStatus(Synced);
    }

    /** Step 3 of `sync_all`. */
    method DeleteRemoved(w: World)
      modifies this`status, this`shown, this`metadata, this`errorFiles, this`requests
      ensures State() == DeletePhase(old(State()), w, w.deleteOrder)
    {
      for i := 0 to |w.deleteOrder|
        invariant State() == DeletePhase(old(State()), w, w.deleteOrder[..i])
      {
        assert w.deleteOrder[..i + 1][..i] == w.deleteOrder[..i];
        DeleteFile(w, w.deleteOrder[i]);
      }
      assert w.deleteOrder[..|w.deleteOrder|] == w.deleteOrder;
    }

    /** One pass of the deletion loop: `removeCardFile`, then the entry goes or the error is recorded. */
    method DeleteFile(w: World, name: string)
      modifies this`status, this`shown, this`metadata, this`errorFiles, this`requests
      ensures State() == DeleteOne(old(State()), w, name)
    {
      requests := requests + [Remove(name)];
      if name in w.device.unremovable {
        HandleErrorMessage(DeleteMessage(name));
      } else {
        metadata := metadata - {name};
      }
    }

    /** Step 4 of `sync_all`. */
    method UploadChanged(w: World, local: map<string, Meta>, remote: set<string>)
      requires forall n | n in w.globOrder :: n in local && n in w.folder
      modifies this`status, this`shown, this`metadata, this`errorFiles, this`syncingFiles,
               this`printingPaused, this`requests
      ensures State() == UploadPhase(old(State()), w, local, remote, w.globOrder)
    {
      for i := 0 to |w.globOrder|
        invariant State() == UploadPhase(old(State()), w, local, remote, w.globOrder[..i])
      {
        var name := w.globOrder[i];
        assert w.globOrder[..i + 1][..i] == w.globOrder[..i];
        if !EndsWith(Lower(name), CtbExt) {
          continue;
        }
        if name !in remote {
          UploadFile(w, name);
        } else if Modified(metadata, name, local[name], w.folder[name].mtime) {
          UploadFile(w, name);
        }
      }
      assert w.globOrder[..|w.globOrder|] == w.globOrder;
    }

    /** Step 5 of `sync_all`: every key of `metadata` is looked at once. */
    method PurgeMetadata(keep: set<string>)
      modifies this`metadata
      ensures State() == Purge(old(State()), keep)
    {
      ghost var stored := metadata;
      var keys := metadata.Keys;
      while keys != {}
        invariant keys <= stored.Keys
        invariant metadata == map n | n in stored && (n in keys || n in keep) :: stored[n]
        decreases keys
      {
        var key :| key in keys;
        if key !in keep {
          metadata := metadata - {key};
        }
        keys := keys - {key};
      }
    }

    /** `sync_all`. */
    method SyncAll(w: World)
      requires ValidWorld(w)
      modifies this`status, this`shown, this`metadata, this`errorFiles, this`syncingFiles,
               this`printingPaused, this`requests
      ensures State() == SyncRun(old(State()), w)
    {
      UpdateStatus(Syncing);
      var local := ScanLocalFiles(w);
      var remote := Remote(w.device);
      DeleteRemoved(w);
      UploadChanged(w, local, remote);
      PurgeMetadata(local.Keys);
      UpdateStatus(Synced);
    }

    /** `ping_and_sync`. */
    method PingAndSync(w: World)
      requires ValidWorld(w)
      modifies this`status, this`shown, this`metadata, this`errorFiles, this`syncingFiles,
               this`printingPaused, this`requests
      ensures State() == PingRun(old(State()), w)
    {
      if !Online(w.device) {
        UpdateStatus(Offline);
        return;
      }
      UpdateStatus(Synced);
      var state := w.device.printing;
      if state.Ok? && state.value == "Printing" {
        printingPaused := true;
        UpdateStatus(Synced);
        return;
      }
      printingPaused := false;
      if printingPaused {
        return;
      }
      SyncAll(w);
    }

    /** `manual_sync`. */
    method ManualSync()
      modifies this`manualSyncRequested
      ensures manualSyncRequested
    {
      manualSyncRequested := true;
    }

    /** `FolderChangeHandler.on_any_event`. */
    method OnAnyEvent(isDirectory: bool, path: string)
      modifies this`manualSyncRequested
      ensures manualSyncRequested == (old(manualSyncRequested) || Watched(isDirectory, path))
    {
      if isDirectory {
        return;
      }
      if !EndsWith(Lower(path), CtbExt) {
        return;
      }
      ManualSync();
    }

    /** One iteration of `run`; `next_ping` goes in and comes out. */
    method Tick(w: World, nextPing: int, now: int) returns (next: int)
      requires ValidWorld(w)
      modifies this`status, this`shown, this`metadata, this`errorFiles, this`syncingFiles,
               this`printingPaused, this`requests, this`manualSyncRequested
      ensures State() == TickRun(old(State()), w, nextPing, now, pingInterval).0
      ensures next == TickRun(old(State()), w, nextPing, now, pingInterval).1
    {
      next := nextPing;
      if manualSyncRequested {
        manualSyncRequested := false;
        if status == Offline {
          if !Online(w.device) {
            return;
          }
        }
        SyncAll(w);
      }
      if now >= next {
        PingAndSync(w);
        next := now + pingInterval;
      }
    }

    /** The `run` loop, one iteration per moment, until the stop event. */
    method Run(moments: seq<Moment>) returns (next: int)
      requires forall m | m in moments :: ValidWorld(m.world)
      modifies this`status, this`shown, this`metadata, this`errorFiles, this`syncingFiles,
               this`printingPaused, this`requests, this`manualSyncRequested
      ensures State() == RunTicks(old(State()), moments, pingInterval).0
      ensures next == RunTicks(old(State()), moments, pingInterval).1
    {
      next := 0;
      var i := 0;
      while i < |moments|
        invariant 0 <= i <= |moments|
        invariant State() == RunTicks(old(State()), moments[..i], pingInterval).0
        invariant next == RunTicks(old(State()), moments[..i], pingInterval).1
      {
        assert moments[..i + 1][..i] == moments[..i];
        next := Tick(moments[i].world, next, moments[i].now);
        i := i + 1;
      }
      assert moments[..i] == moments;
    }
  }
}
