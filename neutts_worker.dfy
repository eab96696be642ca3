/**
 * The NeuTTS worker: it handles one descriptor (`process_job`), scans its queue directory and
 * removes every descriptor it found (`main`), and publishes its readiness record
 * (`write_worker_info`).
 */
module NeuttsWorker {
  import opened Wrappers
  import opened Text
  import opened Protocol
  import opened Store
  import opened NeuTtsAir
  import opened NeuttsService

  const FailurePrefix := "NeuTTS synthesis failed: "
  const NeedsReference := "NeuTTS requires reference audio (ref_wav)"
  const ReferenceMissingPrefix := "Reference audio file not found: "
  const NeuttsQueue := "neutts"
  const NeuttsModelKey := "neutts-air"
  const NeuttsNotes := "Best with single sentences. Example: 'Hello and tell me your name' works better than 'Hello! What is your name?'. Context window: 2048 tokens (~30s audio including prompt). Reference audio automatically limited to first 10s."

  /** `process_job` on a parsed descriptor, with the service's loaded backbone. */
  function NeuttsJobRun(backbone: Option<Backbone>, tools: AudioTools, s: Files, job: Descriptor)
    : Run<(bool, string)>
  {
    match job.id
    case None =>
      var msg := FailurePrefix + KeyErrorMessage("id");
      Run([Write(ErrPath(UnknownId), Plain(msg))], (false, msg))
    case Some(id) =>
      match job.text
      case None =>
        var msg := FailurePrefix + KeyErrorMessage("text");
        Run([Write(ErrPath(id), Plain(msg))], (false, msg))
      case Some(text) =>
        match job.refWav
        case None => Run([], (false, NeedsReference))
        case Some(ref) =>
          if ref !in s then Run([], (false, ReferenceMissingPrefix + ref))
          else Conclude(id, SynthesisRun(backbone, tools, s, text, ref))
  }

  /** What `process_job` returns once synthesis returned `audio`. */
  function Outcome(audio: Result<seq<Byte>, string>): (bool, string) {
    match audio
    case Failure(e) => (false, FailurePrefix + e)
    case Success(_) => (true, SuccessText)
  }

  /** The markers `process_job` writes once synthesis returned `audio`: the artifact, then the
      success marker; or the error marker. */
  function Marks(id: string, audio: Result<seq<Byte>, string>): seq<Effect> {
    match audio
    case Failure(e) => [Write(ErrPath(id), Plain(FailurePrefix + e))]
    case Success(bytes) => [Write(OutPath(id), Binary(bytes)), Write(OkPath(id), Plain(SuccessText))]
  }

  /** The tail of `process_job` once synthesis returned. */
  function Conclude(id: string, synth: Run<Result<seq<Byte>, string>>): Run<(bool, string)> {
    Run(synth.effects + Marks(id, synth.result), Outcome(synth.result))
  }

  // ---------------------------------------------------------------- properties of one job

  /** Without a reference, or with one that does not exist, the job fails without writing
      anything: no marker appears for the gateway to find. */
  lemma MissingReferenceLeavesNoMarker(backbone: Option<Backbone>, tools: AudioTools, s: Files, job: Descriptor)
    requires job.id.Some? && job.text.Some?
    requires job.refWav.None? || job.refWav.value !in s
    ensures var r := NeuttsJobRun(backbone, tools, s, job);
      r.effects == [] && !r.result.0
      && r.result.1 == if job.refWav.None? then NeedsReference else ReferenceMissingPrefix + job.refWav.value
  {
  }

  lemma SynthesisEffects(backbone: Option<Backbone>, tools: AudioTools, s: Files, text: string, ref: string)
    ensures var e := SynthesisRun(backbone, tools, s, text, ref).effects;
      e == [] || (|e| == 1 && e[0].Write? && e[0].path == ConvertedPath(ref))
  {
    EncodeReferenceUsesTruncatedClip(tools, s, ref);
  }

  /** Every effect in `es` is a write to one of `paths`. */
  predicate WritesOnly(es: seq<Effect>, paths: set<string>) {
    forall i :: 0 <= i < |es| ==> es[i].Write? && es[i].path in paths
  }

  /** The paths a job may write: its artifact and markers (under its id, or `unknown`) and
      the converted copy of its reference. */
  function JobWritable(job: Descriptor): set<string> {
    var id := job.id.GetOr(UnknownId);
    {OutPath(id), OkPath(id), ErrPath(id)} + (if job.refWav.Some? then {ConvertedPath(job.refWav.value)} else {})
  }

  /** A job only ever writes, and only the paths `JobWritable` names. Nothing is deleted, in
      particular not the reference. */
  lemma JobOnlyWrites(backbone: Option<Backbone>, tools: AudioTools, s: Files, job: Descriptor)
    ensures WritesOnly(NeuttsJobRun(backbone, tools, s, job).effects, JobWritable(job))
  {
    if job.id.Some? && job.text.Some? && job.refWav.Some? && job.refWav.value in s {
      var id, ref := job.id.value, job.refWav.value;
      var synth := SynthesisRun(backbone, tools, s, job.text.value, ref);
      var allowed := JobWritable(job);
      SynthesisEffects(backbone, tools, s, job.text.value, ref);
      assert WritesOnly(synth.effects, allowed);
      assert WritesOnly(Marks(id, synth.result), allowed);
      WritesOnlyAppend(synth.effects, Marks(id, synth.result), allowed);
    }
  }

  lemma WritesOnlyAppend(a: seq<Effect>, b: seq<Effect>, paths: set<string>)
    requires WritesOnly(a, paths) && WritesOnly(b, paths)
    ensures WritesOnly(a + b, paths)
  {
    forall i | 0 <= i < |a + b| ensures (a + b)[i].Write? && (a + b)[i].path in paths {
      if i >= |a| { assert (a + b)[i] == b[i - |a|]; }
    }
  }

  /** On success the last two effects write the artifact and then the success marker; on a
      failure that wrote anything, the last effect writes the failure marker with the message. */
  lemma MarkersComeLast(backbone: Option<Backbone>, tools: AudioTools, s: Files, job: Descriptor)
    ensures var r := NeuttsJobRun(backbone, tools, s, job);
      && (r.result.0 ==>
            && job.id.Some? && |r.effects| >= 2 && r.result.1 == SuccessText
            && r.effects[|r.effects| - 2].Write? && r.effects[|r.effects| - 2].path == OutPath(job.id.value)
            && r.effects[|r.effects| - 1] == Write(OkPath(job.id.value), Plain(SuccessText)))
      && (!r.result.0 && r.effects != [] ==>
            r.effects[|r.effects| - 1] == Write(ErrPath(job.id.GetOr(UnknownId)), Plain(r.result.1)))
  {
    if job.id.Some? && job.text.Some? && job.refWav.Some? && job.refWav.value in s {
      var synth := SynthesisRun(backbone, tools, s, job.text.value, job.refWav.value);
      SynthesisTail(backbone, tools, s, job, synth);
    }
  }

  /** How a job that reached synthesis ends. */
  lemma SynthesisTail(backbone: Option<Backbone>, tools: AudioTools, s: Files, job: Descriptor,
                      synth: Run<Result<seq<Byte>, string>>)
    requires job.id.Some? && job.text.Some? && job.refWav.Some? && job.refWav.value in s
    requires synth == SynthesisRun(backbone, tools, s, job.text.value, job.refWav.value)
    ensures var r := NeuttsJobRun(backbone, tools, s, job);
      match synth.result
      case Failure(e) =>
        r == Run(synth.effects + [Write(ErrPath(job.id.value), Plain(FailurePrefix + e))], (false, FailurePrefix + e))
      case Success(audio) =>
        r == Run(synth.effects + [Write(OutPath(job.id.value), Binary(audio)),
                                  Write(OkPath(job.id.value), Plain(SuccessText))], (true, SuccessText))
  {
  }

  /** The failure message of a synthesis that raised carries the exception's message. */
  lemma FailureCarriesMessage(b: Backbone, tools: AudioTools, s: Files, job: Descriptor)
    requires job.id.Some? && job.text.Some? && job.refWav.Some? && job.refWav.value in s
    ensures var synth := SynthesisRun(Some(b), tools, s, job.text.value, job.refWav.value);
      var r := NeuttsJobRun(Some(b), tools, s, job);
      synth.result.Failure? ==> r.result == (false, FailurePrefix + synth.result.error)
  {
  }

  /** Whether the queue entry `f` names a reference whose converted copy could itself be a
      queue entry (it never does for a descriptor written by the gateway). */
  predicate SafeEntry(f: File) {
    match ParseDescriptor(f)
    case None => true
    case Some(d) => d.refWav.Some? ==> !IsJobFile(NeuttsQueue, ConvertedPath(d.refWav.value))
  }

  /** Every entry of the queue is safe. */
  predicate SafeQueue(t: Files) {
    forall q :: q in t && IsJobFile(NeuttsQueue, q) ==> SafeEntry(t[q])
  }

  /** The reference the gateway names, `/tmp/tts_in/<id>.wav`, is safe. */
  lemma UploadedReferenceIsSafe(d: Descriptor, id: string)
    requires IsJobId(id) && d.refWav == Some(InPath(id))
    ensures SafeEntry(JobJson(d))
  {
    ConvertedUploadPath(id, id);
    var c := ConvertedPath(InPath(id));
    assert c[|c| - 1] == 'v';
    NotJobFile(NeuttsQueue, c);
  }

  lemma WritableNotQueued(job: Descriptor)
    requires job.refWav.Some? ==> !IsJobFile(NeuttsQueue, ConvertedPath(job.refWav.value))
    ensures forall p :: p in JobWritable(job) ==> !IsJobFile(NeuttsQueue, p)
  {
    JobFilesAreNotQueued(NeuttsQueue, job.id.GetOr(UnknownId));
  }

  lemma JobCreatesNoQueueEntry(backbone: Option<Backbone>, tools: AudioTools, s: Files, job: Descriptor)
    requires job.refWav.Some? ==> !IsJobFile(NeuttsQueue, ConvertedPath(job.refWav.value))
    ensures NoJobWrites(NeuttsQueue, NeuttsJobRun(backbone, tools, s, job).effects)
  {
    var e := NeuttsJobRun(backbone, tools, s, job).effects;
    JobOnlyWrites(backbone, tools, s, job);
    WritableNotQueued(job);
    forall i | 0 <= i < |e| && e[i].Write? ensures !IsJobFile(NeuttsQueue, e[i].path) {
      assert e[i].path in JobWritable(job);
    }
  }

  // ---------------------------------------------------------------- the scan loop

  /** One pass of the `for job_file in job_files` body: read and parse the file, process it,
      and unlink it whatever happened. A file already gone is skipped. */
  function NeuttsFileEffects(backbone: Option<Backbone>, tools: AudioTools, s: Files, path: string): seq<Effect> {
    match Lookup(s, path)
    case None => []
    case Some(f) =>
      match ParseDescriptor(f)
      case None => [Delete(path)]
      case Some(job) =>
        var r := NeuttsJobRun(backbone, tools, s, job);
        r.effects + DeleteIfPresent(Apply(s, r.effects), path)
  }

  function NeuttsStep(backbone: Option<Backbone>, tools: AudioTools): (Files, string, nat) -> seq<Effect> {
    (t: Files, p: string, k: nat) => NeuttsFileEffects(backbone, tools, t, p)
  }

  lemma NeuttsStepApplies(backbone: Option<Backbone>, tools: AudioTools, t: Files, p: string, k: nat)
    ensures NeuttsStep(backbone, tools)(t, p, k) == NeuttsFileEffects(backbone, tools, t, p)
  {
  }

  /** Handling a safe listed entry removes it, creates no queue entry and keeps the queue safe. */
  lemma FileIsConsumed(backbone: Option<Backbone>, tools: AudioTools, s: Files, path: string)
    requires SafeQueue(s) && IsJobFile(NeuttsQueue, path)
    ensures var e := NeuttsFileEffects(backbone, tools, s, path);
      path !in Apply(s, e) && NoJobWrites(NeuttsQueue, e) && SafeQueue(Apply(s, e))
  {
    var e := NeuttsFileEffects(backbone, tools, s, path);
    match Lookup(s, path)
    case None =>
    case Some(f) =>
      match ParseDescriptor(f)
      case None =>
      case Some(job) =>
        assert SafeEntry(s[path]);
        var r := NeuttsJobRun(backbone, tools, s, job);
        var del := DeleteIfPresent(Apply(s, r.effects), path);
        ApplyAppend(s, r.effects, del);
        JobCreatesNoQueueEntry(backbone, tools, s, job);
        NoJobWritesAppend(NeuttsQueue, r.effects, del);
    var t := Apply(s, e);
    forall q | q in t && IsJobFile(NeuttsQueue, q) ensures SafeEntry(t[q]) {
      NoJobWritesKeep(NeuttsQueue, s, e, q);
    }
  }

  /** One scan of a safe queue consumes every descriptor it found: afterwards the queue is
      empty, whether the descriptors parsed, succeeded or failed. */
  lemma ScanEmptiesQueue(backbone: Option<Backbone>, tools: AudioTools, s: Files, listing: seq<string>, start: nat)
    requires SafeQueue(s)
    requires forall p :: p in listing <==> p in s && IsJobFile(NeuttsQueue, p)
    ensures forall p :: IsJobFile(NeuttsQueue, p) ==>
      p !in Apply(s, ScanEffects(NeuttsStep(backbone, tools), s, listing, start))
  {
    var step := NeuttsStep(backbone, tools);
    var inv := (t: Files) => SafeQueue(t);
    forall t, p, j | inv(t) && IsJobFile(NeuttsQueue, p)
      ensures var e := step(t, p, j); NoJobWrites(NeuttsQueue, e) && p !in Apply(t, e) && inv(Apply(t, e))
    {
      FileIsConsumed(backbone, tools, t, p);
    }
    ScanDrains(NeuttsQueue, step, inv, s, listing, start);
  }

  // ---------------------------------------------------------------- readiness record

  /** The record `write_worker_info` writes once the model loaded. */
  function ReadyInfo(speakers: seq<string>): Info {
    Info("neutts", None, Some([
      ModelEntry(NeuttsModelKey, ModelInfo(NeuttsModelName, NeuttsLanguages, speakers, true, Some(NeuttsNotes)))]))
  }

  /** `write_worker_info`: the ready record when loading succeeded; when it raised, no record at
      all, and the error. */
  function WorkerInfoRun(speakers: seq<string>, load: Result<Models, string>): Run<Option<string>> {
    match load
    case Failure(e) => Run([], Some(e))
    case Success(_) => Run([Write(NeuttsInfoPath, InfoJson(ReadyInfo(speakers)))], None)
  }

  /** Unlike the Coqui worker, a NeuTTS worker that failed to load leaves no info file behind;
      a loaded one advertises one English-only model and no error. */
  lemma InfoOnlyWhenLoaded(speakers: seq<string>, load: Result<Models, string>, s: Files)
    ensures var r := WorkerInfoRun(speakers, load);
      var t := Apply(s, r.effects);
      && (load.Failure? ==> t == s && r.result == Some(load.error))
      && (load.Success? ==>
            && r.result.None? && NeuttsInfoPath in t && t[NeuttsInfoPath].InfoJson?
            && t[NeuttsInfoPath].info.error.None? && t[NeuttsInfoPath].info.models.Some?
            && |t[NeuttsInfoPath].info.models.value| == 1
            && t[NeuttsInfoPath].info.models.value[0].info.languages == ["en"]
            && t - {NeuttsInfoPath} == s - {NeuttsInfoPath})
  {
    var r := WorkerInfoRun(speakers, load);
    if load.Success? {
      assert Apply(s, r.effects) == s[NeuttsInfoPath := r.effects[0].file];
    }
  }

  lemma InfoKeepsQueueSafe(s: Files, f: File)
    requires SafeQueue(s)
    ensures SafeQueue(s[NeuttsInfoPath := f])
  {
    var c := NeuttsInfoPath;
    assert c[|c| - 1] == 'o';
    NotJobFile(NeuttsQueue, c);
  }

  // ---------------------------------------------------------------- the worker process

  /** `process_job`. */
  method ProcessJob(fs: FileSystem, service: NeuTtsService, tools: AudioTools, job: Descriptor)
    returns (success: bool, message: string)
    modifies fs
    ensures var run := NeuttsJobRun(service.Current(), tools, old(fs.files), job);
      (success, message) == run.result && fs.files == Apply(old(fs.files), run.effects)
      && fs.journal == old(fs.journal) + run.effects
  {
    if job.id.None? {
      message := FailurePrefix + KeyErrorMessage("id");
      fs.WriteFile(ErrPath(UnknownId), Plain(message));
      return false, message;
    }
    var id := job.id.value;
    if job.text.None? {
      message := FailurePrefix + KeyErrorMessage("text");
      fs.WriteFile(ErrPath(id), Plain(message));
      return false, message;
    }
    if job.refWav.None? {
      return false, NeedsReference;
    }
    var ref := job.refWav.value;
    if !fs.Exists(ref) {
      return false, ReferenceMissingPrefix + ref;
    }
    success, message := SynthesizeAndConclude(fs, service, tools, id, job.text.value, ref);
  }

  /** The synthesis and the markers of `process_job`. */
  method SynthesizeAndConclude(fs: FileSystem, service: NeuTtsService, tools: AudioTools,
                               id: string, text: string, ref: string)
    returns (success: bool, message: string)
    modifies fs
    ensures var run := Conclude(id, SynthesisRun(service.Current(), tools, old(fs.files), text, ref));
      (success, message) == run.result && fs.files == Apply(old(fs.files), run.effects)
      && fs.journal == old(fs.journal) + run.effects
  {
    ghost var s0 := fs.files;
    var audio := service.SynthesizeByAudio(fs, tools, text, ref);
    ghost var s1 := fs.files;
    success, message := WriteMarks(fs, id, audio);
    ApplyAppend(s0, SynthesisRun(service.Current(), tools, s0, text, ref).effects, Marks(id, audio));
  }

  method WriteMarks(fs: FileSystem, id: string, audio: Result<seq<Byte>, string>)
    returns (success: bool, message: string)
    modifies fs
    ensures (success, message) == Outcome(audio)
    ensures fs.files == Apply(old(fs.files), Marks(id, audio)) && fs.journal == old(fs.journal) + Marks(id, audio)
  {
    match audio
    case Failure(e) =>
      message := FailurePrefix + e;
      fs.WriteFile(ErrPath(id), Plain(message));
      return false, message;
    case Success(bytes) =>
      ghost var s0 := fs.files;
      fs.WriteFile(OutPath(id), Binary(bytes));
      ghost var s1 := fs.files;
      fs.WriteFile(OkPath(id), Plain(SuccessText));
      ghost var marks := Marks(id, audio);
      ApplyAppend(s0, [marks[0]], [marks[1]]);
      assert marks == [marks[0]] + [marks[1]];
      return true, SuccessText;
  }

  /** One iteration of the `for job_file in job_files` loop. */
  method HandleFile(fs: FileSystem, service: NeuTtsService, tools: AudioTools, path: string, k: nat)
    modifies fs
    ensures var effects := NeuttsStep(service.Current(), tools)(old(fs.files), path, k);
      fs.files == Apply(old(fs.files), effects) && fs.journal == old(fs.journal) + effects
  {
    NeuttsStepApplies(service.Current(), tools, fs.files, path, k);
    var f := fs.ReadFile(path);
    if f.None? {
      return;
    }
    var job := ParseDescriptor(f.value);
    if job.None? {
      var _ := fs.Unlink(path);
      return;
    }
    ghost var s0 := fs.files;
    var _, _ := ProcessJob(fs, service, tools, job.value);
    ghost var r := NeuttsJobRun(service.Current(), tools, s0, job.value);
    ghost var s1 := fs.files;
    var _ := fs.Unlink(path);
    ApplyAppend(s0, r.effects, DeleteIfPresent(s1, path));
  }

  /** The `for job_file in job_files` loop over a listing taken before. */
  method HandleListed(fs: FileSystem, service: NeuTtsService, tools: AudioTools, listing: seq<string>, start: nat)
    modifies fs
    ensures var effects := ScanEffects(NeuttsStep(service.Current(), tools), old(fs.files), listing, start);
      fs.files == Apply(old(fs.files), effects) && fs.journal == old(fs.journal) + effects
  {
    ghost var s0 := fs.files;
    ghost var step := NeuttsStep(service.Current(), tools);
    var i := 0;
    ScanAtStart(step, s0, old(fs.journal), listing, start);
    while i < |listing|
      invariant ScanAt(step, s0, old(fs.journal), listing, start, i, fs.files, fs.journal)
    {
      ghost var cur, seen := fs.files, fs.journal;
      HandleFile(fs, service, tools, listing[i], start + i);
      ScanAdvance(step, s0, old(fs.journal), listing, start, i, cur, seen, step(cur, listing[i], start + i));
      i := i + 1;
    }
    ScanAtEnd(step, s0, old(fs.journal), listing, start, fs.files, fs.journal);
  }

  /** One pass of the `while True` body: list the queue, then handle each listed file in turn.
      When the queue was safe, it is empty afterwards. */
  method ScanQueue(fs: FileSystem, service: NeuTtsService, tools: AudioTools)
    returns (listing: seq<string>)
    modifies fs
    ensures forall p :: p in listing <==> p in old(fs.files) && IsJobFile(NeuttsQueue, p)
    ensures var effects := ScanEffects(NeuttsStep(service.Current(), tools), old(fs.files), listing, 0);
      fs.files == Apply(old(fs.files), effects) && fs.journal == old(fs.journal) + effects
    ensures SafeQueue(old(fs.files)) ==> forall p :: IsJobFile(NeuttsQueue, p) ==> p !in fs.files
  {
    listing := fs.ListJobFiles(NeuttsQueue);
    if SafeQueue(fs.files) {
      ScanEmptiesQueue(service.Current(), tools, fs.files, listing, 0);
    }
    HandleListed(fs, service, tools, listing, 0);
  }

  /** `write_worker_info` on the service singleton; `load` is what loading its model gave. */
  method WriteWorkerInfo(fs: FileSystem, service: NeuTtsService, load: Result<Models, string>)
    returns (err: Option<string>)
    modifies fs, service
    ensures var run := WorkerInfoRun(old(service.speakers), load);
      err == run.result && fs.files == Apply(old(fs.files), run.effects)
      && fs.journal == old(fs.journal) + run.effects
    ensures load.Success? ==> service.Current() == Some(NeuTtsAir.Backbone(true, load.value))
  {
    err := service.LoadModels(load);
    if err.None? {
      fs.WriteFile(NeuttsInfoPath, InfoJson(ReadyInfo(service.speakers)));
    }
  }

  /** `main`: initialise, exit with 1 if that raised, else run `rounds` passes of the scan loop
      (the source loops until interrupted) and exit with 0. */
  method RunWorker(fs: FileSystem, service: NeuTtsService, tools: AudioTools, load: Result<Models, string>,
                   rounds: nat)
    returns (code: int)
    modifies fs, service
    ensures code == 1 <==> load.Failure?
    ensures code == 1 ==> fs.files == old(fs.files)
    ensures code != 1 ==> code == 0
    ensures code == 0 && rounds > 0 && SafeQueue(old(fs.files)) ==>
      forall p :: IsJobFile(NeuttsQueue, p) ==> p !in fs.files
  {
    ghost var safe := SafeQueue(fs.files);
    var err := WriteWorkerInfo(fs, service, load);
    if err.Some? {
      return 1;
    }
    if safe {
      InfoKeepsQueueSafe(old(fs.files), InfoJson(ReadyInfo(old(service.speakers))));
    }
    var round := 0;
    while round < rounds
      invariant 0 <= round <= rounds
      invariant safe ==> SafeQueue(fs.files)
      invariant safe && round > 0 ==> forall p :: IsJobFile(NeuttsQueue, p) ==> p !in fs.files
    {
      var _ := ScanQueue(fs, service, tools);
      round := round + 1;
    }
    return 0;
  }
}
