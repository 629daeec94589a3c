# Saturn sync: a verified model of the printer client and the sync agent

This project models two parts of a desktop tool that keeps a folder of
`.ctb` print files in step with the storage card of a resin printer (a
ChiTu-board printer that speaks G-code "M-codes" over UDP port 3000).

* `CBD_Api.py`, class `Printer`: how M-code commands and replies travel
  over the socket, and the reply parsers:
  * `__stripFormatting__` and `__stripSpaceFromBack__`;
  * the `getCardFiles` listing;
  * the `M99999` identity fields (`getVer`, `getID`, `getName`);
  * `printingStatus`, `printingPercent` and `jogSoft`;
  * the `uploadFile` state machine: `M28`, the 1280-byte data packets with
    their little-endian offset, XOR checksum and `0x83` trailer, the
    ok/resend/garbage reply handling, the `M4012` size check and `M29`.
* `saturn_sync_full.py`, class `SyncAgent`: how the agent reacts to the
  folder, the printer and the user:
  * `scan_local_files` with its hash cache, and `is_file_modified`;
  * `sync_all`: delete on the card what is gone locally, upload what the
    card lacks, purge metadata;
  * `upload_file` and its result handling, `update_status`, `handle_error`;
  * `ping_and_sync`, one tick of the `run` loop and the loop itself;
  * `manual_sync` and the file-system watcher `on_any_event`.

The socket is the printer object's state. `inbox` holds the replies the
printer will send and `outbox` the datagrams sent so far, either text
commands or data packets. Each receive takes the next reply, and a receive
on an empty inbox is a timeout. The local file to upload is given by its
content, or by `None` when it is not there. Every reply-handling operation is a method
of `CbdApi.Printer`. Each is proved against a specification function of the
old inbox, such as `UploadRun`, `ListingRun` or `StatusRun`, and the
lemmas in `UploadLemmas` and `ListingLemmas` state what those functions
mean:
* a clean upload sends exactly the packets that rebuild the file;
* a resend rewinds to the offset the printer names;
* the listing is the entries of the lines before the first "End file list";
* and so on.

The sync agent is the class `Sync.SyncAgent`. Its fields are those the
source updates:
* the status;
* the metadata cache;
* the error messages;
* the files being uploaded;
* the pause flag;
* the manual-sync flag.

Two fields are added to record what the agent does:
* `shown` is the sequence of statuses the tray icon was switched to;
* `requests` is the sequence of delete and upload requests sent to the
  printer.

What the agent observes is a `World`: the local folder's files, the file
order seen by the glob and by the deletion loop, the printer's listing, its
printing-status answer and its answers to uploads and deletions, and the
hash function. Each method is proved against a function on an `Agent`
snapshot. `SyncLemmas` proves what one sync pass, one ping and one run-loop
tick do:
* after a pass the metadata keys are exactly the local `.ctb` names;
* a removal is requested exactly for each card file that is not local;
* an upload is requested exactly for each local file the card lacks whose
  stability wait settles;
* an error message survives a later successful upload of the same file;
* and so on.

Where the code and its own documentation disagree, the model follows the code:
* `getCardFiles` keeps entries whose size is `0`, because the guard compares
  a string with the integer `0`.
* `printingStatus` never answers exactly "Printing". So the pause branch of
  `ping_and_sync` cannot be taken (`SyncLemmas.PauseUnreachable`,
  `SyncLemmas.PingAlwaysSyncs`).
* Deletion of card files is always on.
* `is_file_modified` is always false inside `sync_all`, because the scan has
  just stored the same mtime (`SyncLemmas.NotModifiedAfterScan`).

## Model

| member | source | states |
|---|---|---|
| Text.RStripFacts | CBD_Api.py:80-83 | `rstrip` keeps a prefix, which ends in a non-space or is empty, and drops only `str` whitespace (which includes \x1c-\x1f) |
| Text.ByteFirstTokenBlank | CBD_Api.py:252 | `split()[0]` of the raw reply bytes raises exactly when every byte is `bytes` whitespace |
| Text.ByteFirstTokenAgrees | CBD_Api.py:252-262 | on replies without the separators \x1c-\x1f, the first word of the raw bytes equals the first word of the decoded text |
| Text.SeparatorSplitsText | CBD_Api.py:252-262 | a separator ends a word of the decoded text but not of the raw bytes: "ok\x1c" is "ok" to `str.split` and one word to `bytes.split` |
| Text.SplitOn | CBD_Api.py:49-54 | `split(sep)` gives at least one piece, no piece holds the separator, and joining the pieces with it gives the string back |
| Text.FirstToken | CBD_Api.py:185-187 | `split()[0]` raises IndexError exactly when the text is all whitespace |
| Text.DecimalRoundTrip | CBD_Api.py:264-266 | `int()` of the decimal text of a natural number gives that number back |
| Replies.SplitAtRightmostExt | CBD_Api.py:85-90 | on a line holding `.ctb` or `.goo` in any case, the name is a prefix of the line ending at the rightmost such extension, no extension starts later, and the size is the stripped rest |
| Replies.IdentifyFieldMeaning | CBD_Api.py:49-54 | a field that is read is "No Response" exactly when the n-th space-separated token of the reply's text has nothing between its first two colons, and otherwise it is that non-empty text |
| Replies.StatusText | CBD_Api.py:185-187 | raises exactly on blank text; answers "Printing " followed by the reply exactly when the first word is "SD", and "Not Printing" otherwise |
| Replies.StatusNeverBarePrinting | CBD_Api.py:185-187 | the status text is never exactly "Printing" |
| Replies.Percent | CBD_Api.py:196 | raises exactly when the reply has fewer than four words; otherwise the pieces hold no '/' and rejoin to the fourth word |
| Replies.JogAllowed | CBD_Api.py:143 | a jog is allowed exactly when the distance is below 200 |
| Packet.XorAppend | CBD_Api.py:245-247 | the XOR over a concatenation is the XOR of the XORs of the parts |
| Packet.Checksum | CBD_Api.py:245-247 | the two loops compute the XOR of every byte of the chunk and of the offset bytes |
| Packet.LE4RoundTrip | CBD_Api.py:244 | the four little-endian offset bytes read back as the offset |
| Packet.PacketLayout | CBD_Api.py:243-250 | a packet is the chunk, the four offset bytes, a checksum that makes the XOR of everything before the trailer zero, and the trailer 0x83; it is six bytes longer than the chunk |
| Packet.UnframeFrame | CBD_Api.py:243-250 | decoding a packet as the printer does gives back the chunk and the offset |
| Packet.BuildPacket | CBD_Api.py:244-250 | for an offset that fits in 32 unsigned bits the packet is the frame of the chunk; any other offset raises OverflowError |
| CbdApi.Printer.constructor | CBD_Api.py:9-21 | a new client has sent nothing and both upload counters are zero |
| CbdApi.Printer.Recv | CBD_Api.py:23-32 | a receive takes the next reply, or times out on an empty inbox and leaves it empty |
| CbdApi.Printer.UploadFile | CBD_Api.py:214-291 | result, datagrams sent, replies consumed and both counters are those of the upload run, using the local name when no card name is given; a local file that is not there raises only after M28 is accepted |
| CbdApi.Printer.TransmitFile | CBD_Api.py:232-291 | the transfer after an accepted M28 matches its specification, including the fault cases |
| CbdApi.Printer.SendChunks | CBD_Api.py:234-274 | the data loop ends in the state the transfer function gives: retries, fault, remaining bytes, replies left and packets sent |
| CbdApi.Printer.Advance | CBD_Api.py:251-271 | each reply moves the cursor as its class (ok, resend with offset, garbage) prescribes |
| CbdApi.Printer.VerifyAndClose | CBD_Api.py:276-291 | sends the M4012 size check and then M29, or reports the size-verify error, as the closing function gives |
| CbdApi.Printer.GetCardFiles | CBD_Api.py:92-110 | sends M20; the listing and the replies left are those of the listing run |
| CbdApi.Printer.GetUniversal | CBD_Api.py:49-54 | sends M99999; the answer is field n of the reply, or a timeout |
| CbdApi.Printer.GetVer | CBD_Api.py:56-62 | the version is field 3 of the M99999 reply |
| CbdApi.Printer.GetId | CBD_Api.py:64-70 | the id is field 4 of the M99999 reply |
| CbdApi.Printer.GetName | CBD_Api.py:72-78 | the name is field 5 of the M99999 reply cut at its first backslash (the escaped `\r\n`) |
| CbdApi.Printer.PrintingStatus | CBD_Api.py:173-187 | sends M27; the status and the replies consumed are those of the status run |
| CbdApi.Printer.PrintingPercent | CBD_Api.py:189-196 | sends M27; the answer is the '/'-pieces of the fourth word of the stripped reply |
| CbdApi.Printer.JogSoft | CBD_Api.py:134-147 | below 200 it jogs and answers "Complete"; otherwise it sends nothing and refuses |
| UploadLemmas.StepKeepsBalance | CBD_Api.py:252-269 | each reply keeps offset plus remaining equal to the file length |
| UploadLemmas.TransferKeepsBalance | CBD_Api.py:234-274 | the whole loop keeps offset plus remaining equal to the file length |
| UploadLemmas.TransferEndsDone | CBD_Api.py:240 | a loop that ends without a fault has nothing left to send |
| UploadLemmas.OkAdvances | CBD_Api.py:241-258 | an "ok" sends the packet at the offset and moves on by the chunk length |
| UploadLemmas.GarbageThenOkResends | CBD_Api.py:241-271 | after a garbage reply the next ok sends nothing new and the same packet goes out again |
| UploadLemmas.ResendRestarts | CBD_Api.py:259-269 | a "resend <amount> <tag>:<k>" reply restarts the transfer at offset k and counts one retry |
| UploadLemmas.ResendExample | CBD_Api.py:259-269 | on a 6200000-byte file, the example reply in the source comment, "resend 1280,offset error:6165760", restarts at 6165760 with 34240 bytes left |
| UploadLemmas.RefusedSendsNoData | CBD_Api.py:227-230 | when the M28 reply holds "Error" the upload reports it, sends no data and leaves the counters alone |
| UploadLemmas.UploadAccepted | CBD_Api.py:227-232 | an accepted M28 goes on with the transfer |
| UploadLemmas.MissingFileLeavesOpen | CBD_Api.py:226-233 | a missing local file raises after an accepted M28: only M28 was sent, no data and no M29, so the file stays open on the card, and the counters are untouched |
| UploadLemmas.VerifyErrorReport | CBD_Api.py:279-286 | the size-verify error ends with the printer's reply, and starts with the retry advice exactly when there were retries |
| UploadLemmas.CleanTransfer | CBD_Api.py:240-274 | when every reply is "ok", the loop sends the file's packets in order, ends at the file's length and consumes one reply per packet |
| UploadLemmas.ChunksAssemble | CBD_Api.py:241-256 | the packets from an offset, placed at their offsets, rebuild the rest of the file |
| UploadLemmas.ChunksAssembleFromStart | CBD_Api.py:241-256 | the packets of a clean upload rebuild the whole file |
| UploadLemmas.ClosingAccepted | CBD_Api.py:279-291 | an "ok" to M4012 sends M29 and answers with its stripped reply |
| UploadLemmas.TransmitClean | CBD_Api.py:232-291 | a clean transfer sends the packets, M4012 and M29, and leaves both counters zero |
| UploadLemmas.CleanUpload | CBD_Api.py:214-291 | a whole clean upload sends M28, the packets, M4012 and M29, and the packets rebuild the file |
| UploadLemmas.TransmitSendsSizeCheck | CBD_Api.py:279 | after a fault-free loop the next datagram is the size check |
| UploadLemmas.SizeCheckReadsBack | CBD_Api.py:279 | the size-check text carries the given size in decimal |
| UploadLemmas.SizeCheckSaysZero | CBD_Api.py:276-280 | as written, the size check always reports T0, never the file's length |
| UploadLemmas.IntendedSizeCheck | CBD_Api.py:207-212 | with the length kept until the check, M4012 reports the number of bytes in the file |
| ListingLemmas.ListingMeaning | CBD_Api.py:100-110 | with the first "End file list" at k and one more reply after it, the listing is the entries of the lines before k and reading stops after that reply |
| ListingLemmas.SeparatorEndsListing | CBD_Api.py:80-83 | the reply "End file list\x1c\r\n" strips to the end marker, as `str.rstrip()` drops the separator |
| ListingLemmas.ListingTimesOut | CBD_Api.py:100-109 | without an end marker followed by one more reply the listing times out |
| ListingLemmas.ListingNamed | CBD_Api.py:102-106 | every listed name ends in `.ctb` or `.goo` in some letter case |
| ListingLemmas.SizedRecord | CBD_Api.py:103-106 | a line "name size", the name ending in a lower-case extension, is kept as the record (name, size) whatever the size |
| ListingLemmas.SizedListing | CBD_Api.py:98-110 | a listing of two such lines between the markers is exactly their two records, in order |
| ListingLemmas.ListingKeepsZeroSize | CBD_Api.py:104 | the listing "foo.ctb 1200000", "bar.goo 0" gives both records: the size test never drops a file of size 0 |
| Sync.SyncAgent.constructor | saturn_sync_full.py:99-143 | a new agent is offline with the stored metadata and nothing pending; the ping interval is minutes times 60 |
| Sync.SyncAgent.UpdateStatus | saturn_sync_full.py:413-418 | sets the status and switches the icon only when it changes |
| Sync.SyncAgent.HandleErrorMessage | saturn_sync_full.py:403-406 | records the message and sets the error status |
| Sync.SyncAgent.ScanLocalFiles | saturn_sync_full.py:291-321 | the loop returns the scan result and stores the scanned metadata |
| Sync.SyncAgent.DeliverFile | saturn_sync_full.py:355-397 | after the stability wait the upload result is handled as the delivery function gives |
| Sync.SyncAgent.AttemptUpload | saturn_sync_full.py:345-397 | the printing check, the syncing mark and delivery, as specified |
| Sync.SyncAgent.UploadFile | saturn_sync_full.py:341-401 | one `upload_file` call including its final clean-up |
| Sync.SyncAgent.DeleteFile | saturn_sync_full.py:261-267 | one deletion: the request, and the metadata entry dropped or the error recorded |
| Sync.SyncAgent.DeleteRemoved | saturn_sync_full.py:259-267 | the deletion loop over the card names missing locally |
| Sync.SyncAgent.UploadChanged | saturn_sync_full.py:269-279 | the upload loop over the local files |
| Sync.SyncAgent.PurgeMetadata | saturn_sync_full.py:281-286 | drops the metadata of files that are not local |
| Sync.SyncAgent.SyncAll | saturn_sync_full.py:246-289 | one whole `sync_all` |
| Sync.SyncAgent.PingAndSync | saturn_sync_full.py:211-236 | one whole `ping_and_sync` |
| Sync.SyncAgent.ManualSync | saturn_sync_full.py:460-461 | a manual sync is requested |
| Sync.SyncAgent.OnAnyEvent | saturn_sync_full.py:485-493 | the request flag is raised exactly for a `.ctb` file event |
| Sync.SyncAgent.Tick | saturn_sync_full.py:196-209 | one pass of the run loop: the manual sync, then the ping when due |
| Sync.SyncAgent.Run | saturn_sync_full.py:193-209 | the run loop over a sequence of moments is the fold of its ticks |
| SyncLemmas.SetStatusMeaning | saturn_sync_full.py:413-418 | the status is set, the icon changes only on a change, and nothing else moves |
| SyncLemmas.HandleErrorMeaning | saturn_sync_full.py:403-406 | the message is added, the status is error, and metadata, requests and the syncing set are unchanged |
| SyncLemmas.PauseUnreachable | saturn_sync_full.py:218-223 | the printing status the agent compares with "Printing" is never equal to it |
| SyncLemmas.ScanRecords | saturn_sync_full.py:291-321 | the scan covers exactly the local names with their mtime and size, stores them, and keeps other stored entries |
| SyncLemmas.ScanHashesWhenNeeded | saturn_sync_full.py:301-316 | a file is hashed exactly when it is new or its mtime or size changed; otherwise the stored entry is reused |
| SyncLemmas.ScanIdempotent | saturn_sync_full.py:291-321 | scanning again with the stored result changes nothing and returns the same |
| SyncLemmas.SameStatKeepsOldHash | saturn_sync_full.py:301-317 | a content change with the same mtime and size keeps the old hash |
| SyncLemmas.NotModifiedAfterScan | saturn_sync_full.py:330-339 | right after a scan no local file counts as modified |
| SyncLemmas.GlobbedNamesWatched | saturn_sync_full.py:485-493 | every file the scan sees would also trigger the watcher |
| SyncLemmas.WatcherExamples | saturn_sync_full.py:485-493 | the watcher takes "Part.CTB" but not a directory or "part.ctb.tmp", and the case-sensitive glob misses "Part.CTB" |
| SyncLemmas.WatcherRequests | saturn_sync_full.py:485-493 | the watcher fires exactly for a non-directory whose last four characters are ".ctb" in any case |
| SyncLemmas.UploadOneOutcome | saturn_sync_full.py:341-401 | an upload ends synced, leaves the syncing set, sends one store exactly when not printing and settled, and changes at most this file's metadata |
| SyncLemmas.DeliveryFails | saturn_sync_full.py:380-397 | a failed result or an exception records its message and sets the error status |
| SyncLemmas.DeliverySucceeds | saturn_sync_full.py:380-392 | a successful result stores fresh metadata and removes the file name from the errors |
| SyncLemmas.UploadOneResult | saturn_sync_full.py:380-401 | the error message is recorded and then overwritten on screen by "synced"; success stores fresh metadata |
| SyncLemmas.ErrorOutlivesSuccess | saturn_sync_full.py:387-392 | a failed upload's message survives a later successful upload of the same file |
| SyncLemmas.UploadStepAbsentOnly | saturn_sync_full.py:270-279 | only files missing from the card are uploaded |
| SyncLemmas.DeletePhaseEffect | saturn_sync_full.py:259-267 | the deletion loop requests each removal in order and drops each deleted entry |
| SyncLemmas.UploadPhaseEffect | saturn_sync_full.py:269-279 | the upload loop requests the stores in glob order and leaves every local file's metadata current |
| SyncLemmas.SyncPass | saturn_sync_full.py:246-289 | a sync pass ends synced, with metadata exactly the local files at their mtimes and sizes, and with the removals then the stores requested |
| SyncLemmas.SyncPlan | saturn_sync_full.py:254-279 | a removal is requested exactly for card files not local; a store exactly for local files not on the card that are sent |
| SyncLemmas.QuietPass | saturn_sync_full.py:254-279 | idempotence: when the card already lists exactly the local files, a pass asks the printer for nothing, neither a removal nor an upload |
| SyncLemmas.FailedPingIsOffline | saturn_sync_full.py:211-216 | an unreachable printer makes the agent offline and changes nothing else that matters |
| SyncLemmas.PingAlwaysSyncs | saturn_sync_full.py:211-236 | with a reachable printer every ping runs a full sync and never pauses |
| SyncLemmas.PingKeepsManual | saturn_sync_full.py:211-236 | a ping leaves the manual-sync flag alone |
| SyncLemmas.TickSchedule | saturn_sync_full.py:196-207 | a tick clears the manual flag, moves the next ping forward exactly when due, and does nothing before it |
| SyncLemmas.RunClearsManual | saturn_sync_full.py:193-209 | after any tick the manual flag is clear |
| SyncLemmas.RunPingNeverMovesBack | saturn_sync_full.py:205-207 | the next ping time never moves back while the loop runs |

## Findings

| source | as written | input that shows it | evidently intended | confidence | as-written member | corrected member |
|---|---|---|---|---|---|---|
| CBD_Api.py:276-280 | `filelength` is set to 0 just before `M4012 I1 T{filelength}`, so the size check always says T0 | any upload of a non-empty file, for example 1 byte: the printer is sent "M4012 I1 T0" | the comment at CBD_Api.py:207-212 says the check carries the total bytes sent, the file's length | not executed | UploadLemmas.SizeCheckSaysZero | UploadLemmas.IntendedSizeCheck |

## Left out

- The UDP socket, its timeouts and the buffer size: replies are a sequence given in advance, and a lost reply is a timeout. In the source `__sendRecieveSingle__` turns a second failed receive into an unbound-variable error in its `finally` clause. Every caller treats all exceptions alike, so the model calls both a timeout.
- `sleep` and `send_delay`, the progress `print`, and the unused `readamt`/`amt_str` helpers: they have no effect on the results.
- Text.IsSpace: it is the whitespace of `str` within ASCII, so it includes \x1c-\x1f. The whitespace of `bytes.split()` is the smaller `Text.IsByteSpace`. `str` whitespace outside ASCII (\x85, \xa0 and the Unicode spaces) is not modelled, because replies are taken as ASCII.
- Text.Lower: it lowers ASCII letters only and keeps the length. Unicode `lower()`, which can lengthen a name (for example 'İ'), and so move the cut in `__stripSpaceFromBack__`, is not modelled. Card file names and local paths are taken as ASCII.
- UTF-8 decoding of replies: replies are strings already. `str(bytes)` escaping is modelled for printable ASCII and `\r`, `\n`, `\t`, `\\`, `\'` and `\xNN` by `Replies.BytesRepr`.
- The forms of `int()` that accept underscores, surrounding whitespace or non-ASCII digits: `Text.ParseInt` takes an optional sign and ASCII digits.
- `CbdApi.Printer.JogSoft`: the distance is a real, and the text form `str(float)` of the jog command is left abstract (`JogTo`).
- The commands outside the core (`formatCard`, `homeAxis`, `getAxis`, `jogHard`, `startPrinting`, `stopPrinting`): the printer's answers to deletions and uploads are parameters of the world (`unremovable`, `answer`).
- Threads, locks, the Tk window, the tray icon, balloons, `refresh_file_list` and the menu actions: the agent's reactions are sequential steps, and the tray is modelled only as the sequence of statuses shown.
- The metadata JSON file, `save_metadata`, `load_metadata` and `log_unknown`: the metadata map is kept in memory.
- SHA-256: the hash is a function parameter of the world. File mtimes are integers.
- The stability wait in `upload_file`: whether a file settles is a parameter, and a file that never settles is skipped. A file that cannot be read during the scan is not modelled. After an upload, the file's stat is taken to be the one scanned.
- Exception texts are approximated by `Sync.Describe`.
- `Sync.Modified`: the folder does not change during a sync pass, so the stat in `is_file_modified` (saturn_sync_full.py:337) always finds the scanned file. A file removed between the scan and that stat, which makes `sync_all` raise, is not modelled. The `FileNotFound` of `CbdApi.UploadRun` reaches the agent only as a possible printer `answer`.
- The glob `*.ctb` is taken to be case-sensitive, as on Linux.
- The printer's answers do not change during one step.
- `SyncLemmas.QuietPass`: idempotence is stated for one pass whose card listing already equals the local files. A pass does not update the printer's listing in this model, so "a second pass after the first does nothing" is not chained from two passes.
- `UploadLemmas.Assemble`: the printer's side of an upload, which places each chunk at its offset. It compares the 32-bit offset field, and the printer's firmware is not part of this model.
