# Voice-cloning demo: the job-dispatch protocol

This project models how the voice-cloning demo hands text-to-speech jobs between its HTTP gateway
and its two worker processes (Coqui and NeuTTS Air). All traffic goes through files under `/tmp`.

The flow of one job:

- The gateway checks a request and writes a JSON descriptor to `/tmp/tts_queue/<engine>/job_<id>.json`.
  A request with an uploaded voice sample also gets `/tmp/tts_in/<id>.wav`.
- The gateway polls `/tmp/tts_done/<id>.ok` and `<id>.err`.
- It then reads `/tmp/tts_out/<id>.wav` and removes the job's files.
- Each worker scans its queue directory. It processes every descriptor it finds, writes the
  artifact and a marker, and deletes the descriptor.
- At start-up each worker publishes a readiness ("info") record. The gateway waits for these
  records and builds its capability table from them.

How the model is built:

- **The filesystem.** `Store.FileSystem` is a class holding a map from path to content, plus a
  ghost journal of every write and delete in order.
- **State changes.** Each state-changing operation is a method. Its contract says that the new
  state is a pure `Run` function of the old state: a list of effects and a result.
- **Where the properties live.** The properties in the table below are proved as lemmas about
  those `Run` functions.
- **Opaque parts.** Synthesis, audio decoding and the language models are parameters of the model:
  datatypes of functions whose `Failure` stands for an exception.
- **Module layout.** Modules follow the program:
  - `Gateway`: `app/gateway/main.py`;
  - `CoquiWorker` and `CoquiService`: the Coqui worker and its service classes;
  - `NeuttsWorker`, `NeuttsService` and `NeuTtsAir`: the NeuTTS worker, its service and the
    NeuTTS Air prompt helpers;
  - `Protocol`: the descriptor, the info record and the paths;
  - `Text`: the Python string operations the code relies on;
  - `Exchanges`: whole round trips that combine the gateway with a worker.

The model keeps these quirks of the code:

- Some bad descriptors get no marker at all, so the gateway waits until it times out:
  - a NeuTTS job without a reference (`app/neutts_worker/worker.py:56-62`);
  - a Coqui job with neither a speaker nor a reference (`app/coqui_worker/worker.py:88-89`).
- An unknown Coqui speaker raises the error that `.keys()` on a list raises
  (`app/coqui_worker/coqui_service.py:88-89`).
- A NeuTTS worker that fails to initialise writes no info file (`app/neutts_worker/worker.py:42-46`).
  With the default `ENABLED_WORKERS` the gateway's readiness wait then never succeeds, and no
  engine at all becomes available.

Some consequences of the code that a reader might not expect:

- **NeuTTS job.** Besides its artifact and marker, a NeuTTS job also writes `<ref>_converted.wav`
  beside the reference (`app/neutts_worker/neuttsair.py:82-95`). The gateway's cleanup does not remove that
  copy (`NeuttsWorker.JobOnlyWrites`, `Exchanges.NeuttsConvertedCopyRemains`).
- **NeuTTS scan.** A scan removes every descriptor it listed only when no listed descriptor names
  a reference whose converted copy would itself be a queue entry (`NeuttsWorker.SafeQueue`).
  Descriptors written by the gateway always satisfy this (`NeuttsWorker.UploadedReferenceIsSafe`).
- **Coqui speakers.** A Coqui speaker outside the list is refused only with the `AttributeError`
  of `.keys()` on a list. The intended "unknown speaker" message never appears.

## Model

| member | source | states |
|---|---|---|
| Text.TrimLeft | app/gateway/main.py:147 | the result is a suffix of the input, everything dropped is white space, and the result does not start with white space |
| Text.TrimRight | app/gateway/main.py:120 | the result is a prefix of the input, everything dropped is white space, and the result does not end with white space |
| Text.StripEmptyIff | app/gateway/main.py:147 | `Strip` models `str.strip`: `not s.strip()` holds exactly when every character is white space |
| Text.StripShape | app/gateway/main.py:120 | `Strip` models `str.strip`: the stripped text is a contiguous piece of the input whose ends are not white space, surrounded only by white space |
| Text.WordsOfJoin | app/neutts_worker/neuttsair.py:138 | `Words` models `str.split()` and `JoinWords` models `" ".join`: splitting a space-joined list of words gives the list back |
| Text.JoinSingleSpaced | app/neutts_worker/neuttsair.py:138 | `JoinWords` models `" ".join`: joining words with single spaces gives a string with no white space at the ends and only single spaces inside |
| Text.Lower | app/neutts_worker/neuttsair.py:47 | on ASCII, lower-casing keeps the length and maps each character on its own |
| Text.ReplaceAbsent | app/neutts_worker/neuttsair.py:82 | `ReplaceAll` models `str.replace`: `replace` leaves a string without the pattern unchanged |
| Text.ReplaceAtEnd | app/neutts_worker/neuttsair.py:82 | `ReplaceAll` models `str.replace`: with the pattern at the end only, `replace` rewrites exactly that occurrence |
| Text.DecimalValue | app/neutts_worker/neuttsair.py:218 | reading back the decimal numeral of a natural number gives the number |
| Text.Decimal | app/neutts_worker/neuttsair.py:165 | `str(n)` is a non-empty string of digits |
| Text.DigitRunOf | app/neutts_worker/neuttsair.py:218 | the digit group of the token regex stops exactly where the ASCII digits end |
| Protocol.QueuePathIsJobFile | app/gateway/main.py:172 | `IsJobFile` models the worker's `job_*.json` glob: the descriptor path the gateway writes is one the engine's worker lists with its glob |
| Protocol.JobFilesAreNotQueued | app/coqui_worker/worker.py:132 | the input, output and marker files of a job are never listed as queue entries |
| Protocol.AreasDisjoint | app/gateway/main.py:129-135 | the four job areas and the queue never share a path, whatever the ids |
| Protocol.NotJobFile | app/neutts_worker/worker.py:105 | a path not ending in `n` never matches `job_*.json` |
| Store.ApplyUntouched | app/gateway/main.py:137-142 | a path no effect names keeps its content |
| Store.ApplyNoWrite | app/gateway/main.py:137-142 | a path no effect writes does not appear |
| Store.NoJobWritesKeep | app/coqui_worker/worker.py:130-153 | after effects that write no queue entry, every remaining queue entry was already there with the same content |
| Store.ScanDrains | app/coqui_worker/worker.py:130-153 | a scan whose per-file handling removes the file, writes no queue entry and keeps an invariant leaves the queue empty |
| Store.FileSystem.constructor | app/gateway/main.py:129 | the store starts with the given files and an empty journal |
| Store.FileSystem.ReadFile | app/gateway/main.py:187-188 | reading a path returns its content, or nothing when it is absent |
| Store.FileSystem.WriteFile | app/gateway/main.py:173-174 | writing creates or replaces exactly one file and records the write |
| Store.FileSystem.Unlink | app/coqui_worker/worker.py:141 | unlinking reports whether the file existed, removes only that file, and records the deletion only when it existed |
| Store.FileSystem.ListJobFiles | app/coqui_worker/worker.py:132 | the glob lists each queue entry of the engine exactly once and nothing else |
| Gateway.Assign | app/gateway/main.py:53 | assigning an engine adds it to the engines, gives it the new models, changes no other engine, and keeps engines unique |
| Gateway.AssignKeepsOrder | app/gateway/main.py:53 | a known engine keeps its position in the table, and a new one is appended after every existing entry |
| Gateway.CapabilityOfKnown | app/gateway/main.py:153 | an engine has an entry exactly when it is one of the table's engines |
| Gateway.Gateway.CheckReady | app/gateway/main.py:39-46 | the poll is ready exactly when every enabled worker that has an info-file entry has its info file |
| Gateway.Gateway.LoadWorkerInfo | app/gateway/main.py:47-60 | the loading loop's table and success flag are those of `LoadPass`: registered in order, stopping at the first missing or unparsable info file |
| Gateway.Gateway.StartupEvent | app/gateway/main.py:25-64 | start-up leaves the table `Startup` gives: the first ready poll is loaded and ends the wait |
| Gateway.LoadPassRegisters | app/gateway/main.py:49-57 | `LoadPass` models one loading pass: with every record readable, the pass succeeds and registers exactly the awaited workers, each with its record's models |
| Gateway.LoadPassKeeps | app/gateway/main.py:49-53 | a worker the pass does not await keeps its entry |
| Gateway.LoadPassOnlyAwaited | app/gateway/main.py:49-53 | a pass only adds awaited workers; a name without an info-file entry never becomes an engine |
| Gateway.StartupLoadsFirstReadyPoll | app/gateway/main.py:38-57 | `Startup` models `startup_event`: the wait ends at the first ready poll, with the table that loading that poll yields |
| Gateway.StartupWithoutRecord | app/gateway/main.py:38-64 | when an awaited record never appears, start-up leaves the table unchanged |
| Gateway.Validate | app/gateway/main.py:147-154 | requests are rejected with 400 for blank text, then for more than 1000 raw characters, then for an unknown engine, and accepted exactly when none applies |
| Gateway.TtsDescriptor | app/gateway/main.py:158-170 | the descriptor has id, text and language; the model follows the coqui and neutts rules; the speaker appears only when given; there is never a reference |
| Gateway.AudioDescriptor | app/gateway/main.py:231-241 | the descriptor names the uploaded file as reference and has no speaker; coqui takes `submodel or model`; neutts takes the NeuTTS Air repository |
| Gateway.SubmitTtsQueuesJob | app/gateway/main.py:147-174 | `SubmitTtsRun` models the submission phase of `/tts`: an accepted request adds exactly its descriptor to the engine's queue, where the worker lists it; a rejected one changes nothing |
| Gateway.SubmitAudioQueuesJob | app/gateway/main.py:215-245 | `SubmitAudioRun` models the submission phase of `/tts_with_audio`: an accepted request stores the upload at the path its descriptor names and then queues the descriptor; a rejected one changes nothing |
| Gateway.Gateway.SubmitTts | app/gateway/main.py:147-174 | the submission phase of `/tts` makes exactly the effects of `SubmitTtsRun` (nothing for a rejected request, the descriptor for an accepted one) and returns its verdict |
| Gateway.Gateway.SubmitWithAudio | app/gateway/main.py:215-245 | the submission phase of `/tts_with_audio` makes exactly the effects of `SubmitAudioRun` (the upload, then the descriptor naming it) and returns its verdict |
| Gateway.WaitDecidedByFirstMarker | app/gateway/main.py:111-123 | `WaitOutcome` and `MarkerOutcome` model `wait_for_job_completion` and one poll: the first poll that finds a marker decides the wait; `.ok` wins over `.err` |
| Gateway.WaitTimesOut | app/gateway/main.py:127 | when no poll finds a marker, the wait reports `(False, "Timeout")` |
| Gateway.WaitSucceedsIff | app/gateway/main.py:111-127 | the wait succeeds exactly when some poll sees `.ok` and no earlier poll saw a marker |
| Gateway.WaitForJobCompletion | app/gateway/main.py:107-127 | the polling loop returns `WaitOutcome` of the polls: the first poll with a marker decides, `.ok` before `.err`, else `Timeout` |
| Gateway.CleanupRemoves | app/gateway/main.py:137-142 | `CleanupEffects` models `cleanup_job_files`: cleanup removes exactly the listed files that exist and leaves every other file as it was |
| Gateway.CleanupJob | app/gateway/main.py:129-142 | after a job's cleanup its four files are gone, nothing else changed, and its queue entry is untouched |
| Gateway.CleanupJobFiles | app/gateway/main.py:129-142 | the cleanup loop makes exactly `CleanupEffects`: it deletes the existing job files, in order, and skips absent ones |
| Gateway.RemoveIfPresent | app/gateway/main.py:138-142 | an existing file is removed and a missing one is skipped |
| Gateway.CollectOutcome | app/gateway/main.py:178-198 | `CollectRun` models the reply phase: every reply removes the job's four files; the bytes are delivered exactly when the job succeeded and its output exists; failures give 500 with the message |
| Gateway.Collect | app/gateway/main.py:178-198 | the reply phase reads, cleans up and answers as `CollectRun` gives: a 500 with the message, the missing-output 500, or the artifact, with cleanup on every path |
| Gateway.ListingComplete | app/gateway/main.py:85-101 | `Listing` models the list `get_models` builds: the listing has one record per published model, covers every model of every engine, and names only known engines |
| Gateway.Gateway.GetModels | app/gateway/main.py:85-101 | the nested loops build exactly `Listing` of the capability table: one record per engine and model, in table order |
| Gateway.Gateway.constructor | app/gateway/main.py:17-19 | the gateway starts with the enabled workers and an empty capability table |
| CoquiService.ServiceState.SupportedLanguages | app/coqui_worker/coqui_service.py:68-71 | the languages are never empty: the fixed YourTTS list, the model's list when non-empty, or `['en']` |
| CoquiService.BuiltinSpeakersReplaceOnlyWhenExposed | app/coqui_worker/coqui_service.py:61-63 | `BuiltinSpeakers` models `_load_builtin_speakers`: the speaker list changes only to a non-empty list that the model exposes, and reloading changes nothing more |
| CoquiService.ReadAndCleanupRemovesTemp | app/coqui_worker/coqui_service.py:73-82 | the temporary output is removed whether re-encoding succeeds or not, and nothing else changes |
| CoquiService.BySpeakerRun | app/coqui_worker/coqui_service.py:84-89 | an empty speaker list or an unknown speaker is refused before any synthesis or file effect |
| CoquiService.BySpeakerRetriesOnce | app/coqui_worker/coqui_service.py:92-107 | `SpeakerAttempts` models the try/retry of `tts_to_file`: the call with the speaker goes first; only when it raises is it repeated once without the speaker, and only the second error surfaces |
| CoquiService.BySpeakerLeavesStore | app/coqui_worker/coqui_service.py:84-107 | synthesis by speaker leaves the store as it found it |
| CoquiService.TempPathsDiffer | app/coqui_worker/coqui_service.py:22-31 | the temporary output and the converted reference never coincide |
| CoquiService.ByAudioLeaksReference | app/coqui_worker/coqui_service.py:109-120 | `ByAudioRun` models `synthesize_by_audio`: synthesis by audio removes its output temp but leaves the converted reference behind, and touches nothing else |
| CoquiService.CoquiTtsService.constructor | app/coqui_worker/coqui_service.py:36-38 | a new service has no model and no speakers |
| CoquiService.CoquiTtsService.LoadModels | app/coqui_worker/coqui_service.py:48-59 | a failed load reports its error and changes nothing; a successful one stores the model and refreshes the speakers |
| CoquiService.CoquiTtsService.LoadBuiltinSpeakers | app/coqui_worker/coqui_service.py:61-63 | the speakers become those the loaded model exposes, as the specification gives |
| CoquiService.CoquiTtsService.ReadAndCleanupAudioFile | app/coqui_worker/coqui_service.py:73-82 | reading and removing the temporary output makes exactly `ReadAndCleanupRun`: re-encode it, and delete it whether or not that raised |
| CoquiService.CoquiTtsService.SynthesizeBySpeaker | app/coqui_worker/coqui_service.py:84-107 | synthesis by speaker makes exactly the effects and result of `BySpeakerRun` |
| CoquiService.CoquiTtsService.SynthesizeByAudio | app/coqui_worker/coqui_service.py:109-120 | synthesis by audio makes exactly the effects and result of `ByAudioRun`: the mono 16 kHz copy, the synthesis, and the read-back |
| CoquiWorker.SelectServiceRoutes | app/coqui_worker/worker.py:72-79 | `SelectService` models the `"your_tts" in model` choice: the default model and both advertised model names route to the service that serves them |
| CoquiWorker.DefaultIsNotYourTts | app/coqui_worker/worker.py:72 | the default model `xtts` does not select YourTTS |
| CoquiWorker.YourTtsIsYourTts | app/coqui_worker/worker.py:76-77 | the YourTTS model name selects YourTTS |
| CoquiWorker.XttsIsNotYourTts | app/coqui_worker/worker.py:78-79 | the XTTS model name selects XTTS |
| CoquiWorker.NoVoiceWritesNothing | app/coqui_worker/worker.py:88-89 | with neither speaker nor reference, the job fails with no file effect at all |
| CoquiWorker.SpeakerBeforeReference | app/coqui_worker/worker.py:81-86 | when both are given, the reference is ignored |
| CoquiWorker.SuccessEndsWithArtifactThenOk | app/coqui_worker/worker.py:91-99 | a success ends by writing the artifact and then the `.ok` marker of the job's id |
| CoquiWorker.FailureEndsWithErr | app/coqui_worker/worker.py:101-109 | a failure that wrote anything ends with the `.err` marker at the id or `unknown`, holding the prefixed message |
| CoquiWorker.MissingKeysGoToErr | app/coqui_worker/worker.py:69-70 | a descriptor without `id` or `text` yields only the `KeyError` marker |
| CoquiWorker.ReferenceRemovedAfterSuccess | app/coqui_worker/worker.py:84-87 | after a successful synthesis from a reference, the reference file is gone |
| CoquiWorker.OutTempIsNotQueued | app/coqui_worker/coqui_service.py:91 | the temporary output is never a queue entry |
| CoquiWorker.RefTempIsNotQueued | app/coqui_worker/coqui_service.py:22-31 | the converted reference is never a queue entry |
| CoquiWorker.SynthesisCreatesNoQueueEntry | app/coqui_worker/coqui_service.py:84-120 | neither synthesis writes a queue entry |
| CoquiWorker.JobCreatesNoQueueEntry | app/coqui_worker/worker.py:67-109 | `CoquiJobRun` models `process_job`: handling a descriptor never creates a queue entry |
| CoquiWorker.FileIsConsumed | app/coqui_worker/worker.py:134-153 | `CoquiFileEffects` models one iteration of the scan loop: a listed file is removed whatever its content, and no queue entry is created |
| CoquiWorker.ScanEmptiesQueue | app/coqui_worker/worker.py:130-153 | one scan empties the queue, whether the descriptors parsed, succeeded or failed |
| CoquiWorker.InfoRecords | app/coqui_worker/worker.py:29-65 | `WorkerInfoRun` models `write_worker_info`: the ready record advertises both models with non-empty languages and no error; the error record carries the error and no models |
| CoquiWorker.WorkerInfoAlwaysPublished | app/coqui_worker/worker.py:15-65 | initialisation always leaves an info record that carries an error exactly when a load failed, and changes no other file |
| CoquiWorker.SynthesizeVoice | app/coqui_worker/worker.py:81-89 | the voice dispatch makes exactly `VoiceRun`: by speaker when there is one, else by reference, else no effects |
| CoquiWorker.ProcessJob | app/coqui_worker/worker.py:67-109 | `process_job` returns the outcome and makes exactly the effects of `CoquiJobRun`: synthesis, then the artifact and `.ok` or `.err` |
| CoquiWorker.WriteWorkerInfo | app/coqui_worker/worker.py:15-65 | the info record written and both services' new states are those of `WorkerInfoRun`: the ready record after both loads, or the error record |
| CoquiWorker.HandleFile | app/coqui_worker/worker.py:134-153 | one loop iteration makes exactly `CoquiFileEffects`: read, parse, process and unlink the listed file |
| CoquiWorker.HandleListed | app/coqui_worker/worker.py:134-153 | the loop over a listing makes exactly `ScanEffects` of the per-file step |
| CoquiWorker.ScanQueue | app/coqui_worker/worker.py:130-153 | one pass lists the queue, makes `ScanEffects` of the per-file step over it, and leaves the queue empty |
| CoquiWorker.RunWorker | app/coqui_worker/worker.py:111-164 | `main` exits with 1 exactly when initialisation failed, else with 0 and an empty queue after a pass |
| NeuTtsAir.MatchToken | app/neutts_worker/neuttsair.py:218 | a token match (ASCII digits) at the front has a positive length within the string |
| NeuTtsAir.DecodeSpeech | app/neutts_worker/neuttsair.py:217-229 | decoding fails with the ValueError exactly when no speech token with ASCII digits is found, and otherwise returns the ids found |
| NeuTtsAir.FindSpeechIdsOfToken | app/neutts_worker/neuttsair.py:218 | `FindSpeechIds` models `re.findall` of the speech-token pattern: a token at the front is read back, and the scan resumes right after it |
| NeuTtsAir.FindSpeechIdsSkipPlain | app/neutts_worker/neuttsair.py:218 | text without `<` holds no token and does not disturb what follows |
| NeuTtsAir.FindSpeechIdsSkipTag | app/neutts_worker/neuttsair.py:218 | a tag that does not open `<\|speech_` is skipped |
| NeuTtsAir.CodesStringRoundTrip | app/neutts_worker/neuttsair.py:201 | `CodesString` models the `<|speech_i|>` join: parsing the codes string gives back the codes, in order |
| NeuTtsAir.DecodeCodesString | app/neutts_worker/neuttsair.py:217-229 | decoding the codes string of a non-empty list succeeds with that list |
| NeuTtsAir.ToPhonesNormalises | app/neutts_worker/neuttsair.py:135-139 | `ToPhones` models `_to_phones`: phonemes come out single-spaced, with the phonemizer's tokens kept, and normalising again changes nothing |
| NeuTtsAir.PromptPiecesPlain | app/neutts_worker/neuttsair.py:202-205 | the fixed text of the GGML prompt holds no `<` |
| NeuTtsAir.PromptTagsAreNotSpeech | app/neutts_worker/neuttsair.py:202-205 | each of the prompt's three tags opens with `<`, holds no further `<`, and does not begin `<\|speech_`, so no speech id is read from it |
| NeuTtsAir.GgmlPromptCodes | app/neutts_worker/neuttsair.py:198-205 | `GgmlPrompt` models the prompt of `_infer_ggml`: the only speech tokens of the GGML prompt are the reference codes, in order |
| NeuTtsAir.IndexOf | app/neutts_worker/neuttsair.py:155 | `index` finds the first position of the value, and fails exactly when the value is absent |
| NeuTtsAir.ReplaceFirst | app/neutts_worker/neuttsair.py:155-162 | replacing the first occurrence succeeds exactly when the value is present, and has the expected length |
| NeuTtsAir.CutAt | app/neutts_worker/neuttsair.py:164-167 | cutting at the first occurrence succeeds exactly when the value is present, and ends with the new tail |
| NeuTtsAir.ReplaceFirstAt | app/neutts_worker/neuttsair.py:155-162 | the first occurrence is replaced, and both sides of it are kept |
| NeuTtsAir.CutAtFirst | app/neutts_worker/neuttsair.py:164-167 | everything before the first occurrence is kept and the rest is dropped |
| NeuTtsAir.ApplyChatTemplate | app/neutts_worker/neuttsair.py:141-173 | a spliced prompt ends with the generation start and the codes and warns exactly when too long; without the text slot the splice raises |
| NeuTtsAir.ChatTemplateSplice | app/neutts_worker/neuttsair.py:155-173 | the prefix is kept, the text slot becomes the delimited input, everything from the speech slot on becomes the generation start and the codes, and long prompts are never cut |
| NeuTtsAir.TruncateReference | app/neutts_worker/neuttsair.py:87-90 | the clip becomes its first 10000 ms when longer, and is unchanged otherwise |
| NeuTtsAir.TruncateReferenceIdempotent | app/neutts_worker/neuttsair.py:87-90 | truncating twice equals truncating once, and short clips are kept |
| NeuTtsAir.ConvertedUploadPath | app/neutts_worker/neuttsair.py:82 | `ConvertedPath` models `input_path.replace('.wav', '_converted.wav')`: the converted copy of an upload is `<id>_converted.wav`, which no job's cleanup removes |
| NeuTtsAir.EncodeReferenceUsesTruncatedClip | app/neutts_worker/neuttsair.py:104-133 | `EncodeReferenceRun` and `ConvertRun` model `encode_reference` and `_convert_audio_to_wav`: the encoder gets the exported first 10 s when the clip decodes, and the original file otherwise; only the copy is written |
| NeuTtsAir.EncodeReferenceKeepsFiles | app/neutts_worker/neuttsair.py:80-133 | encoding never removes a file and changes at most the converted copy |
| NeuTtsAir.GgufIsLowerEndsWith | app/neutts_worker/neuttsair.py:47 | the GGUF test used by the model is exactly `backbone_repo.lower().endswith("gguf")` |
| NeuTtsAir.BackboneChoices | app/neutts_worker/neuttsair.py:47 | the service's backbone counts as GGUF and the default one does not |
| NeuTtsAir.GgufSuffix | app/neutts_worker/neuttsair.py:47 | `IsGgufRepo` models the backbone test: a repository ending in `gguf` selects the quantized backend |
| NeuTtsAir.NotGguf | app/neutts_worker/neuttsair.py:47 | a repository whose last letter is not `f` in any case does not |
| NeuTtsAir.GgufIgnoresCase | app/neutts_worker/neuttsair.py:47 | the suffix test ignores case |
| NeuTtsAir.Inference | app/neutts_worker/neuttsair.py:231-253 | `Generate` models the raw output of `_infer_ggml` or `_infer_torch`: inference succeeds exactly when the backbone answers with at least one speech token, and otherwise carries the exception |
| NeuTtsAir.GgmlPromptCarriesReference | app/neutts_worker/neuttsair.py:239-243 | a GGUF backbone is prompted with exactly the reference codes as speech tokens |
| NeuTtsAir.NeuTtsAirModel.constructor | app/neutts_worker/neuttsair.py:22-58 | the model records its repository and is quantized exactly when that repository is GGUF |
| NeuTtsAir.NeuTtsAirModel.ConvertAudioToWav | app/neutts_worker/neuttsair.py:80-102 | the conversion makes exactly the effects of `ConvertRun` (the exported first 10 s as the converted copy) and returns the copy's path |
| NeuTtsAir.NeuTtsAirModel.EncodeReference | app/neutts_worker/neuttsair.py:104-133 | encoding makes exactly the effects of `EncodeReferenceRun` (convert, or fall back to the original file) and returns the codes |
| NeuttsService.SynthesisRendersInference | app/neutts_worker/neutts_service.py:53-64 | a decodable reference is exported as its first 10 s to the converted copy, the only file written, and the backbone gets that copy's codes; otherwise nothing is written and the original is encoded; success renders exactly the ids inference produced |
| NeuttsService.NeuTtsService.constructor | app/neutts_worker/neutts_service.py:15-17 | a new service has no model and no speakers |
| NeuttsService.NeuTtsService.LoadModels | app/neutts_worker/neutts_service.py:27-42 | a failed load reports its error; a successful one loads the GGUF backbone |
| NeuttsService.NeuTtsService.SynthesizeByAudio | app/neutts_worker/neutts_service.py:53-64 | synthesis makes exactly the effects and result of `SynthesisRun`, including the error of a service with no model |
| NeuttsWorker.MissingReferenceLeavesNoMarker | app/neutts_worker/worker.py:56-62 | with no reference, or a missing one, the job fails with the matching message and writes nothing |
| NeuttsWorker.SynthesisEffects | app/neutts_worker/neutts_service.py:53-64 | synthesis writes nothing, or only the converted copy of the reference |
| NeuttsWorker.JobOnlyWrites | app/neutts_worker/worker.py:48-84 | `NeuttsJobRun` models `process_job`: a job never deletes a file, in particular not the reference, and writes only the artifact, the markers and the converted copy |
| NeuttsWorker.MarkersComeLast | app/neutts_worker/worker.py:64-84 | a success ends with the artifact and then `.ok`; a failure that wrote anything ends with `.err` holding the message |
| NeuttsWorker.FailureCarriesMessage | app/neutts_worker/worker.py:76-84 | the failure message carries the exception's message after the NeuTTS prefix |
| NeuttsWorker.UploadedReferenceIsSafe | app/gateway/main.py:226-235 | a descriptor naming an upload as its reference cannot plant a queue entry |
| NeuttsWorker.WritableNotQueued | app/neutts_worker/worker.py:48-84 | no file a job may write is a queue entry, given a safe reference |
| NeuttsWorker.JobCreatesNoQueueEntry | app/neutts_worker/worker.py:48-84 | a job with a safe reference creates no queue entry |
| NeuttsWorker.FileIsConsumed | app/neutts_worker/worker.py:105-126 | `NeuttsFileEffects` models one iteration of the scan loop: handling a listed entry of a safe queue removes it, creates none, and keeps the queue safe |
| NeuttsWorker.ScanEmptiesQueue | app/neutts_worker/worker.py:103-126 | one scan of a safe queue empties it, whether the descriptors parsed, succeeded or failed |
| NeuttsWorker.InfoOnlyWhenLoaded | app/neutts_worker/worker.py:14-46 | a failed initialisation writes no info file; a successful one writes one English-only model and changes nothing else |
| NeuttsWorker.InfoKeepsQueueSafe | app/neutts_worker/worker.py:23-37 | writing the info file keeps the queue safe |
| NeuttsWorker.ProcessJob | app/neutts_worker/worker.py:48-84 | `process_job` returns the outcome and makes exactly the effects of `NeuttsJobRun`: the reference checks, synthesis, then the artifact and `.ok` or `.err` |
| NeuttsWorker.SynthesizeAndConclude | app/neutts_worker/worker.py:64-84 | synthesis followed by the markers makes exactly `Conclude` of `SynthesisRun` |
| NeuttsWorker.WriteMarks | app/neutts_worker/worker.py:66-84 | the markers written are `Marks` (artifact then `.ok`, or `.err`) and the outcome returned is the one the synthesis result calls for |
| NeuttsWorker.HandleFile | app/neutts_worker/worker.py:105-126 | one loop iteration makes exactly `NeuttsFileEffects`: read, parse, process and unlink the listed file |
| NeuttsWorker.HandleListed | app/neutts_worker/worker.py:105-126 | the loop over a listing makes exactly `ScanEffects` of the per-file step |
| NeuttsWorker.ScanQueue | app/neutts_worker/worker.py:103-126 | one pass lists the queue, makes `ScanEffects` of the per-file step over it, and leaves a safe queue empty |
| NeuttsWorker.WriteWorkerInfo | app/neutts_worker/worker.py:14-46 | the info file written is `WorkerInfoRun`'s (the ready record, or none when loading raised), and a successful load leaves the GGUF backbone loaded |
| NeuttsWorker.RunWorker | app/neutts_worker/worker.py:86-137 | `main` exits with 1 exactly when loading failed, leaving the store unchanged, and otherwise with 0; a queue that was safe (`SafeQueue`) is empty after a pass |
| Exchanges.UnansweredJobTimesOut | app/gateway/main.py:176-180 | a job nobody answers times out, and the reply is a 500 carrying `Timeout` |
| Exchanges.NeuttsPlainRequestTimesOut | app/neutts_worker/worker.py:56-57 | a plain `/tts` job for neutts is consumed without any marker, so the gateway can only time out |
| Exchanges.CoquiRequestWithoutSpeakerTimesOut | app/coqui_worker/worker.py:88-89 | a plain `/tts` job for coqui without a speaker is consumed without any marker, so the gateway can only time out |
| Exchanges.SuccessIsDelivered | app/gateway/main.py:176-198 | a worker pass ending with the artifact and `.ok` makes the next poll succeed and the reply deliver that artifact |
| Exchanges.FailureIsReported | app/gateway/main.py:176-180 | a worker pass ending with `.err` makes the next poll fail with the stripped message, which the reply carries |
| Exchanges.ReplyCleansUp | app/gateway/main.py:178-190 | the reply removes the job's four files and keeps every other file |
| Exchanges.NeuttsPassConsumes | app/neutts_worker/worker.py:108-114 | the worker runs the job and then removes its descriptor |
| Exchanges.NeuttsPassDelivers | app/neutts_worker/worker.py:64-71 | an uploaded reference that synthesizes is answered with `.ok` and the rendered audio |
| Exchanges.NeuttsPassReportsFailure | app/neutts_worker/worker.py:76-84 | an uploaded reference whose synthesis raises is answered with `.err` carrying the worker's message |
| Exchanges.NeuttsUploadExchange | app/gateway/main.py:215-261 | an accepted `/tts_with_audio` request for neutts consumes its descriptor, and the reply delivers the audio or a 500 with the worker's message |
| Exchanges.NeuttsConvertedCopyRemains | app/gateway/main.py:129-142 | after the reply the descriptor and the job's files are gone, but the converted copy is left as the worker wrote it |
| Exchanges.NeuttsInitFailureDisablesAll | app/neutts_worker/worker.py:42-46 | without a NeuTTS info file, start-up leaves the table empty and every request is refused |
| Exchanges.CoquiInitFailureStillAvailable | app/coqui_worker/worker.py:56-65 | a failed Coqui start still makes coqui an available engine, with no models |

## Left out

- **Clocks and timeouts.** The ten-minute start-up timeout, the 600-second job timeout and the
  sleeps have no clock in the model. A wait is a finite sequence of polls, each a snapshot of the
  store, and running out of polls is the timeout.
- **Concurrency.** Gateway and workers are modelled as sequential operations on the shared store.
  Interleavings of a worker pass with a gateway poll are not modelled.
- **Job ids.** `uuid.uuid4()` is a parameter: the job id of each request, and the uuids of the
  Coqui temporary files.
- **Enabled workers.** `ENABLED_WORKERS` is a parameter; reading the environment variable and
  splitting it on commas are not modelled.
- **JSON, HTTP and the web framework.** JSON encoding, FastAPI routing, request parsing, base64,
  `StreamingResponse`, static files and `app/gateway/run_gateway.py` are not modelled. A file's
  content is a tagged value:
  - a descriptor;
  - an info record;
  - plain text;
  - bytes, which stand for anything that is not valid JSON.
- **Unreadable `.err` markers.** An `.err` marker whose content is not plain text counts as
  unreadable and gives "Unknown error". Real read failures, such as permissions or decoding, are
  not modelled.
- **Other exceptions.** `Gateway.Collect`: the 500 "Error synthesizing speech" answer for other
  exceptions, such as a missing queue directory, is not modelled; writes into the store always
  succeed.
- Store.FileSystem.Unlink: a delete always succeeds. In the code an unlink can raise, for
  example on a permission error, and the error is swallowed:
  - `cleanup_job_files` ignores it in its bare `except` (`app/gateway/main.py:137-141`), so the
    job file stays and cleanup goes on with the next one;
  - both workers retry `job_file.unlink()` after an error and ignore a failure there too
    (`app/coqui_worker/worker.py:148-153`, `app/neutts_worker/worker.py:121-126`), so the
    descriptor stays queued and is processed again on the next pass.

  `Gateway.CleanupRemoves`, `CoquiWorker.ScanEmptiesQueue` and `NeuttsWorker.ScanEmptiesQueue`
  rest on this assumption.
- **ML and audio code.** All ML and audio numerics are opaque parameters:
  - the Coqui `TTS` calls;
  - the phonemizer, the tokenizer, the torch and llama.cpp backbones and NeuCodec;
  - pydub, torchaudio and soundfile;
  - `_load_to_mono16k_any`.
- **Coqui re-encoding.** `CoquiService.ReadAndCleanupRemovesTemp`: re-encoding the temporary
  output is an opaque function. A failure there is modelled as the exception it raises.
- **NeuTTS speaker mode.** `synthesize_by_speaker` of the NeuTTS service only raises
  `NotImplementedError`, and the worker never calls it.
- **Logging.** Printing and logging are not modelled.
- **The NeuTTS model loader.** `NeuTtsAir.NeuTtsAirModel.constructor` models `_load_models` only
  when it succeeds. A load that raises is part of `NeuttsService.NeuTtsService.LoadModels`'s
  failure case.
- **Directory creation.** `mkdir` of the queue and job directories is not modelled; the
  directories are taken to exist.
- **Endless loops.** The workers' `while True` loop is bounded by a `rounds` parameter
  (`CoquiWorker.RunWorker`, `NeuttsWorker.RunWorker`). Its sleeps are not modelled, and neither is
  the handler for unexpected errors around the glob.
- Text.Lower: only ASCII letters are lowered, one character for one. Python's `str.lower` also
  lowers other Unicode letters and can lengthen a string (`'İ'.lower()` has two characters). The
  GGUF test is unaffected: no other character lowers to `g`, `u` or `f`
  (`NeuTtsAir.GgufIsLowerEndsWith`).
- Text.DigitRunOf: `\d` is read as the ASCII digits only, while in a Python `str` pattern it
  matches every Unicode decimal digit. The same holds for `NeuTtsAir.MatchToken`,
  `NeuTtsAir.FindSpeechIds` and `NeuTtsAir.DecodeSpeech`.
- NeuTtsAir.DecodeSpeech: backbone output whose only speech tokens use non-ASCII decimal digits
  (such as `<|speech_٣|>`) is decoded as having no speech token, where the code would read `3`.
- NeuTtsAir.MatchToken: a token whose digits are not ASCII does not match.
- **Coqui audio conversion.** `CoquiService.AudioCodec.toMono16k` is opaque and may return a
  result even for a reference file that does not exist. The code's `_load_to_mono16k_any` always
  raises then, but the Coqui worker never checks that `ref_wav` exists. So the model also allows
  a Coqui job on a missing reference to succeed.
- **Scan order.** A NeuTTS or Coqui scan takes the glob's listing in the order the directory
  gives. The model proves that the listing holds every entry exactly once, not which order it
  takes.
