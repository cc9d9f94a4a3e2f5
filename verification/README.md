# CEDDN replay queue: a Dafny model

This project models the export core of the CEDDN plugin (`plugins/ceedn.py`), which sends journal events to the Canonn ED Data Network. The model covers:

- **The persistent replay queue.** `CEDDN.replaylog` is an in-memory list of serialized `[cmdr, msg]` lines. The file `replay.jsonl` mirrors it: every new line is appended to both, and the file is rewritten from the list from time to time.
- **The delivery step `sendreplay`.** A Tk timer fires it every 400 ms. On each tick it looks at the head line and does one of the following:
  - drops the line if it cannot be decoded;
  - rewrites a deprecated schema host, then sends the entry;
  - after a successful send, pops the line and rewrites the file when the remaining length is a multiple of 20;
  - after a failed send, stops and leaves the queue as it is, with an error status and no timer re-armed.
- **`export_journal_entry`.** It builds the message, loads the file if none is open, stores the line, and decides whether to schedule a tick.
- **`load`, `flush`, `close`.** These open and lock the file, rewrite it, and release it.
- **Smaller pure pieces:**
  - the uploader identity choice and the envelope built by `send`;
  - `canonicalise`;
  - the recursive `filter_localised` of `codex_entry`.

The model is functional. `Replay.State` is an immutable record with these fields:
- whether a file is open;
- the file's lines;
- the list;
- the status label;
- the number of `sendreplay` callbacks currently scheduled with `parent.after`.

Every operation is a pure function from one state to the next. These parts are supplied as parameters:
- decoding a line, as a function `string -> Decoded` (`Undecodable`, `Malformed` or `Parsed(entry)`);
- encoding an entry, as a function `Entry -> string`;
- whether the file lock was acquired, as a boolean;
- the outcome of each HTTP post (`Delivered`, `RequestFailed` or `Raised(text)`);
- the fresh random identity;
- the platform label.

Modules:
- `Options` (`options.dfy`): the `Option` wrapper.
- `Journal` (`journal.dfy`): ordered JSON values, dictionary lookup, `filter_localised` and its properties.
- `Schema` (`schema.dfy`): the stored journal schema reference and the send-time rewrite.
- `Upload` (`upload.dfy`): the stored message and entry, the uploader choice, the envelope, and `canonicalise`.
- `Replay` (`replay.dfy`): the queue/file state machine.
- `Drain` (`drain.dfy`): properties over many ticks and over any sequence of operations.
- `Findings` (`findings.dfy`): the two discrepancies listed under Findings below.

Points where the code does something other than one might expect, modelled as the code does it:
- **When the file is rewritten.** The comment on `REPLAYFLUSH` (line 41) says the log on disk is updated "roughly every 10 seconds". The code does not count sends, though. It rewrites the file after a successful send when the number of entries still queued is a multiple of 20, zero included (line 144).
- **A line that cannot be decoded.** It is dropped ("Discard and continue", line 136), and the timer is re-armed (line 155). The next line waits for the next tick.
- **Appending does not flush.** The line is written to the file without a `flush()` (line 165), so "in the file" here means written through the file handle. After a crash, lines still in the write buffer may be lost.
- **Scheduling a tick.** Storing an entry schedules a tick when the event is `Docked`, or is `Location` with `Docked` true, or when the batch-delay option is off (lines 167-170). Whether the queue was empty does not matter.
- **Several callback chains can run.** Every arming export schedules one more callback, even while a chain is already running. The model therefore counts scheduled callbacks instead of keeping a flag. A failed send ends only the chain it ran in: if another callback is pending, it retries the same head without any new export.

## Model

| member | source | states |
|---|---|---|
| Journal.FilterObjectIsClean | plugins/ceedn.py:233-244 | After filtering, no key ending in `_Localised` is left at any level the filter reaches: the object itself, nested objects, and objects directly inside lists |
| Journal.FilterKeepsKeys | plugins/ceedn.py:233-244 | The keys of the filtered object are exactly the input keys that do not end in `_Localised`, in their original order |
| Journal.FilterLookup | plugins/ceedn.py:233-244 | Looking up a non-localised key in the filtered object gives the filtered value it had, and nothing if it was absent; a localised key is never found |
| Journal.FilterFixpoint | plugins/ceedn.py:233-244 | The filter leaves an object unchanged if and only if the object is already free of localised keys wherever the filter reaches |
| Journal.FilterIdempotent | plugins/ceedn.py:233-244 | Filtering twice gives the same object as filtering once |
| Schema.JournalSchema | plugins/ceedn.py:158-161 | The stored reference is the journal/1 reference under the current host, with `/test` appended exactly for beta |
| Schema.Rewrite | plugins/ceedn.py:139-140 | A deprecated reference moves under `https://ceddn.canonn.tech/schemas/` and keeps everything from index 38 on; any other reference is unchanged; the result never starts with the deprecated prefix |
| Schema.RewriteIdempotent | plugins/ceedn.py:139-140 | Rewriting twice is the same as rewriting once |
| Schema.RewriteInjective | plugins/ceedn.py:139-140 | Two deprecated references, or two non-deprecated ones, with equal rewrites were equal, so the rewrite loses nothing |
| Schema.JournalSchemaIsCurrent | plugins/ceedn.py:139-140 | Any reference stored by `export_journal_entry` passes through the send-time rewrite unchanged |
| Upload.ChooseUploader | plugins/ceedn.py:88-94 | Without the anonymity flag the commander is the uploader. With it, the stored identity is used; if none is stored, the minted one is used and persisted |
| Upload.UploaderStable | plugins/ceedn.py:88-94 | Once an anonymous identity has been chosen, every later choice returns the same identity and does not change the configuration, whatever the commander or the random value |
| Upload.Build | plugins/ceedn.py:96-104 | The envelope copies the schema reference and payload unchanged; the header carries the software name with the platform label, the version, and the chosen uploader |
| Upload.LastMatch | plugins/ceedn.py:44 | The search returns the largest position at or below its bound where the pattern can end its group, and reports no match only when no such position exists |
| Upload.Canonicalise | plugins/ceedn.py:179-181 | A matching item gives the text between `$` and the last `_name;` that has no newline before it; a non-matching item is returned unchanged |
| Upload.CanonicaliseExamples | plugins/ceedn.py:179-181 | `$cobra_name;` becomes `cobra`, and `Sidewinder` stays `Sidewinder` |
| Replay.Start | plugins/ceedn.py:46-50 | A new instance holds no file, an empty list and no scheduled callback, and already satisfies the suffix invariant |
| Replay.Load | plugins/ceedn.py:52-73 | With the lock acquired, the file is open and the list equals its lines. Without it, no file is held and the list is untouched. Either way the suffix invariant is kept |
| Replay.Flush | plugins/ceedn.py:75-80 | After a flush the file's lines equal the list |
| Replay.Close | plugins/ceedn.py:82-85 | Closing releases the file and keeps the list and the file's lines |
| Replay.Append | plugins/ceedn.py:164-165 | The same line goes to the tail of the list and the tail of the file, and the suffix invariant is kept |
| Replay.PopHead | plugins/ceedn.py:143-145 | After a successful send the head is removed, and the file is rewritten exactly when the remaining length is a multiple of 20. Under the invariant, the file equals the list afterwards if and only if that length is a multiple of 20 |
| Replay.SendReplay | plugins/ceedn.py:114-155 | One tick: <br>• with no file, nothing changes; <br>• with an empty queue, only the status blanks and nothing is re-armed; <br>• an undecodable head is dropped alone and the timer is re-armed; <br>• a malformed head leaves the list, the file and the callbacks as they are (only the status shows the sending label); <br>• a decodable head is sent with its reference rewritten; <br>• on success the head is popped (compacting as above) and the timer re-armed; <br>• on either failure the queue is kept, the status shows the error, and nothing is re-armed; <br>• the suffix invariant is kept |
| Replay.Fire | plugins/ceedn.py:155 | A fired callback's chain goes on exactly when its tick re-arms. It ends after a failed send or on an empty queue. A tick removes at most the head |
| Replay.ArmDecision | plugins/ceedn.py:167-170 | The timer rule raises exactly when `event` is missing, or when a `Location` event lacks `Docked`. Otherwise it arms exactly for `Docked`, for `Location` with `Docked` true, or with the delay option off |
| Replay.Enqueue | plugins/ceedn.py:157-170 | The entry is stored exactly when a file is open or can be loaded; otherwise nothing changes. A stored entry's line is appended to both the list and the file. One callback is scheduled exactly when the timer rule arms without raising. The suffix invariant is kept |
| Replay.Rewritten | plugins/ceedn.py:139-140 | The entry given to `send` keeps its commander and payload. Its reference is the send-time rewrite of the stored one, so a deprecated host moves to the current host with the part from index 38 kept, and the result never starts with the deprecated prefix |
| Drain.DrainDelivers | plugins/ceedn.py:114-155 | When no queued line is malformed and every send succeeds, one tick per queued line empties the queue and sends exactly the decodable entries in queue order (FIFO). The callback count is unchanged at the end |
| Drain.DrainedGoesIdle | plugins/ceedn.py:120-122 | A tick on a drained queue blanks the status, sends nothing and ends its chain |
| Drain.PostedEnvelope | plugins/ceedn.py:96-104 | For a tick whose head parses, the envelope `send` posts carries the rewrite of the stored schema reference, the stored payload unchanged and the uploader chosen for the stored commander, whatever the send's outcome |
| Drain.CorruptEntrySkipped | plugins/ceedn.py:129-136 | With a corrupt line between two good ones, both good entries are sent in order and all three lines leave the queue |
| Drain.PauseThenResume | plugins/ceedn.py:141-170 | With exactly one callback scheduled, a failed send keeps the whole queue, shows an error and leaves no callback scheduled. The next arming export re-arms, and its tick retries the same head entry |
| Drain.FailurePausesOneChain | plugins/ceedn.py:146-170 | With two or more callbacks scheduled (one per arming export), a failed send keeps the queue but ends only its own chain. The next pending callback retries the same head without any new export, and pops it when the send succeeds |
| Drain.RestartKeepsPending | plugins/ceedn.py:52-85 | After `close`, a new process that loads the file gets every entry still queued, in order, at the end of its list. Entries already sent but not yet compacted away may come before them (at-least-once). A crash without `close` is not covered, because appended lines may still be buffered |
| Drain.InvAlways | plugins/ceedn.py:52-170 | After any sequence of loads, closes, exports and timer firings, the list is still a suffix of the file's lines |
| Drain.StepKeepsOrder | plugins/ceedn.py:136-165 | Every operation except a load removes at most the head and adds only at the tail, so entries are never reordered. This excludes both `load` and an export made while no file is open, because that export runs `load` first |
| Findings.StaleLinesUnbounded | plugins/ceedn.py:144-145 | As written: with one entry waiting, each export-then-send cycle adds one already-sent line to the file and never compacts, so the number of sent lines left in the file grows without bound |
| Findings.CycleIsExportThenSend | plugins/ceedn.py:142-170 | One export followed by one fired callback whose send succeeds, with a decodable head, leaves exactly the list and file of the export-then-pop cycle used above. So the unbounded growth happens through the real state machine |
| Findings.MirrorPop | plugins/ceedn.py:143-145 | Corrected pop: the file is rewritten every 20 successful sends. The invariant "file = fewer than 20 sent lines followed by the list" is kept |
| Findings.MirrorAppend | plugins/ceedn.py:164-165 | Appending to the corrected mirror keeps the same invariant |
| Findings.StaleLinesBounded | plugins/ceedn.py:144-145 | With the correction, fewer than 20 already-sent lines are ever left in the file |
| Findings.MalformedHeadBlocks | plugins/ceedn.py:129-140 | As written: a head line that decodes but has no usable `$schemaRef` is never sent or dropped, however many ticks run, so nothing behind it is ever sent |
| Findings.Guarded | plugins/ceedn.py:129-140 | Corrected decode: every line that does not parse to a well-formed entry, a message without a usable reference included, counts as undecodable, and well-formed entries decode as before |
| Findings.GuardedDrainEmpties | plugins/ceedn.py:129-140 | With the corrected decode, a drain with every send succeeding always empties the queue and sends the well-formed entries in order |

## Left out

- The HTTP session, `raise_for_status` and the 10-second timeout are not modelled. Each send attempt's result is a parameter.
- Lines that make `send` itself raise are not modelled as a class of their own. Examples are a message without a `message` key (line 103) and a non-string commander with anonymity off (line 94). The `except Exception` at lines 150-153 catches these, so the head stays and nothing is re-armed, on every attempt. The model can express this only as the `Raised` outcome chosen for each attempt on that head. The corrected decode in Findings covers only the missing or unusable `$schemaRef` case.
- `fcntl.lockf`, the open/create logic and `exists` are not modelled (operating-system file locking). `load` takes the lock outcome as a boolean.
- JSON encoding and decoding are not modelled (library calls). They are abstract functions, and nothing relates them unless a lemma states it.
- `line.strip()` in `load` is not modelled. Lines written by `json.dumps` have no surrounding whitespace, so it does not change them.
- `uuid4`, configuration persistence and the `platform`/`system()` label are not modelled. They are parameters: the minted identity, the `Config` record, and the label string.
- Time is not modelled. `REPLAYPERIOD` is only a constant, and a scheduled callback is only a count.
- Status text is abstracted. Localisation (`_()`), the exact wording of the "sending" label and `update_idletasks` are outside the model. Only the kind of status and the queue depth are kept.
- The synchronous fallback send in `export_journal_entry` (lines 171-177) is not modelled. It is only a direct transport call. `Replay.Enqueue` reports that this path was taken and leaves the state unchanged.
- `plugin_app`, `plugin_prefs`, `prefsvarchanged`, `prefs_changed` and `plugin_stop` are not modelled (Tk UI and preference wiring). `plugin_stop` only calls `close`, which is modelled.
- The rest of `codex_entry` is not modelled: location tracking, the export condition, removal of disallowed fields, and injection of location fields. It depends on module-global state and on the excluded sanitizer; only `filter_localised` is modelled.
- Two processes contending for the file lock are not modelled. Single-writer exclusion is left to the operating system.
- Journal.Value: JSON numbers are integers in this model. Floating-point numbers are not represented; the filter passes them through unchanged anyway.
- Journal.FilterObject: for an object with repeated keys, the model keeps every copy in order. Python's `OrderedDict` assignment would overwrite the first copy instead. An object decoded into a dictionary never has repeated keys.

## Findings

| source | as written | input that shows it | evidently intended | confidence | as-written member | corrected member |
|---|---|---|---|---|---|---|
| plugins/ceedn.py:144-145 | The file is compacted only when the remaining queue length is a multiple of 20 | One entry queued, then repeatedly: one export and one successful send. The remaining length is always 1, so there is no compaction, and every sent line stays in the file and is re-sent after a restart | Compact about every 20 sends, as the constant's comment says, so that fewer than 20 sent lines are ever re-sent | medium, not executed | Findings.StaleLinesUnbounded | Findings.MirrorPop |
| plugins/ceedn.py:129-140 | The `$schemaRef` lookup and `startswith` run after the decode handler, so their exception escapes `sendreplay` before the pop and the re-arm | A queue line `["cmdr", {"message": {}}]` (valid JSON, no `$schemaRef`) at the head. Every tick stops at it, and no later entry is ever sent | A line whose message has no usable `$schemaRef` is dropped like an undecodable one (line 136: "Discard and continue") instead of stopping every later tick | medium, not executed | Findings.MalformedHeadBlocks | Findings.Guarded |
