/**
 * The Coqui worker: it handles one descriptor (`process_job`), scans its queue directory and
 * removes every descriptor it found (`main`), and publishes its readiness record
 * (`write_worker_info`).
 */
module CoquiWorker {
  import opened Wrappers
  import opened Text
  import opened Protocol
  import opened Store
  import opened CoquiService

  const FailurePrefix := "Coqui synthesis failed: "
  const NoVoice := "No speaker or reference audio provided"
  const DefaultModel := "xtts"
  const DefaultLanguage := "en"

  /** `yourtts_service` when `"your_tts" in model`, else `xtts_service`. */
  function SelectService(model: string): ServiceKind {
    if Contains(model, "your_tts") then YourTts else Xtts
  }

  /** The default model and every model name advertised in the readiness record route to the
      service that serves it. */
  lemma SelectServiceRoutes()
    ensures SelectService(DefaultModel) == Xtts
    ensures SelectService(Xtts.ModelName()) == Xtts
    ensures SelectService(YourTts.ModelName()) == YourTts
  {
    DefaultIsNotYourTts();
    XttsIsNotYourTts();
    YourTtsIsYourTts();
  }

  lemma DefaultIsNotYourTts()
    ensures !Contains(DefaultModel, "your_tts")
  {
    NotContainsFirst(DefaultModel, "your_tts");
  }

  lemma YourTtsIsYourTts()
    ensures Contains(YourTts.ModelName(), "your_tts")
  {
    var dir := "tts_models/multilingual/multi-dataset/";
    assert YourTts.ModelName() == dir + "your_tts";
    ContainsSuffix(dir, "your_tts");
  }

  lemma XttsIsNotYourTts()
    ensures !Contains(Xtts.ModelName(), "your_tts")
  {
    var dir, name := "tts_models/multilingual/multi-dataset/", "xtts_v2";
    assert Xtts.ModelName() == dir + name;
    assert 'y' !in dir && 'y' !in name;
    assert 'y' !in dir + name;
    NotContainsFirst(dir + name, "your_tts");
  }

  /** `synthesize_by_audio` followed, when it returned, by `Path(ref_wav).unlink(missing_ok=True)`. */
  function ByAudioAndReleaseRun(st: ServiceState, codec: AudioCodec, s: Files, text: string, refWav: string,
                                language: string, outUuid: string, refUuid: string)
    : Run<Result<seq<Byte>, string>>
  {
    var synth := ByAudioRun(st, codec, s, text, refWav, language, outUuid, refUuid);
    if synth.result.Success? then Run(synth.effects + DeleteIfPresent(Apply(s, synth.effects), refWav), synth.result)
    else synth
  }

  /** The synthesis `process_job` asks for: by speaker when the descriptor has one, else by
      reference audio, else none. */
  function VoiceRun(st: ServiceState, codec: AudioCodec, s: Files, job: Descriptor, text: string,
                    language: string, outUuid: string, refUuid: string)
    : Option<Run<Result<seq<Byte>, string>>>
  {
    if job.speaker.Some? then Some(BySpeakerRun(st, codec, s, text, job.speaker.value, language, outUuid))
    else if job.refWav.Some? then Some(ByAudioAndReleaseRun(st, codec, s, text, job.refWav.value, language, outUuid, refUuid))
    else None
  }

  /** The tail of `process_job` once synthesis returned: on success the artifact, then the
      success marker; on failure the error marker. */
  function Conclude(id: string, synth: Run<Result<seq<Byte>, string>>): Run<(bool, string)> {
    match synth.result
    case Failure(e) =>
      Run(synth.effects + [Write(ErrPath(id), Plain(FailurePrefix + e))], (false, FailurePrefix + e))
    case Success(audio) =>
      Run(synth.effects + [Write(OutPath(id), Binary(audio)), Write(OkPath(id), Plain(SuccessText))],
          (true, SuccessText))
  }

  /** `process_job` on a parsed descriptor; `xtts` and `yourtts` are the two services' fields and
      the uuids name the temporary files. */
  function CoquiJobRun(xtts: ServiceState, yourtts: ServiceState, codec: AudioCodec, s: Files,
                       job: Descriptor, outUuid: string, refUuid: string): Run<(bool, string)>
  {
    match job.id
    case None =>
      var msg := FailurePrefix + KeyErrorMessage("id");
      Run([Write(ErrPath(UnknownId), Plain(msg))], (false, msg))
    case Some(id) =>
      match job.text
      case None =>
        var msg := FailurePrefix + KeyErrorMessage("text");
        Run([Write(ErrPath(id), Plain(msg))], (false, msg))
      case Some(text) =>
        var st := if SelectService(job.model.GetOr(DefaultModel)) == YourTts then yourtts else xtts;
        match VoiceRun(st, codec, s, job, text, job.language.GetOr(DefaultLanguage), outUuid, refUuid)
        case None => Run([], (false, NoVoice))
        case Some(synth) => Conclude(id, synth)
  }

  // ---------------------------------------------------------------- properties of one job

  /** A descriptor with neither a speaker nor a reference is refused without any marker. */
  lemma NoVoiceWritesNothing(xtts: ServiceState, yourtts: ServiceState, codec: AudioCodec, s: Files,
                             job: Descriptor, outUuid: string, refUuid: string)
    requires job.id.Some? && job.text.Some? && job.speaker.None? && job.refWav.None?
    ensures CoquiJobRun(xtts, yourtts, codec, s, job, outUuid, refUuid) == Run([], (false, NoVoice))
  {
  }

  /** When both are present the speaker wins: the reference is ignored. */
  lemma SpeakerBeforeReference(xtts: ServiceState, yourtts: ServiceState, codec: AudioCodec, s: Files,
                               job: Descriptor, outUuid: string, refUuid: string)
    requires job.speaker.Some?
    ensures CoquiJobRun(xtts, yourtts, codec, s, job, outUuid, refUuid)
         == CoquiJobRun(xtts, yourtts, codec, s, job.(refWav := None), outUuid, refUuid)
  {
  }

  /** A success ends with the artifact followed by the success marker of the job's id. */
  lemma SuccessEndsWithArtifactThenOk(xtts: ServiceState, yourtts: ServiceState, codec: AudioCodec, s: Files,
                                      job: Descriptor, outUuid: string, refUuid: string)
    ensures var r := CoquiJobRun(xtts, yourtts, codec, s, job, outUuid, refUuid);
      r.result.0 ==>
        && r.result.1 == SuccessText && job.id.Some? && |r.effects| >= 2
        && r.effects[|r.effects| - 2].Write? && r.effects[|r.effects| - 2].path == OutPath(job.id.value)
        && r.effects[|r.effects| - 2].file.Binary?
        && r.effects[|r.effects| - 1] == Write(OkPath(job.id.value), Plain(SuccessText))
  {
  }

  /** A failure that left any trace ends with the error marker, at the job's id or at
      `unknown`, holding the returned message, which carries the Coqui prefix. */
  lemma FailureEndsWithErr(xtts: ServiceState, yourtts: ServiceState, codec: AudioCodec, s: Files,
                           job: Descriptor, outUuid: string, refUuid: string)
    ensures var r := CoquiJobRun(xtts, yourtts, codec, s, job, outUuid, refUuid);
      !r.result.0 && r.effects != [] ==>
        && r.effects[|r.effects| - 1] == Write(ErrPath(job.id.GetOr(UnknownId)), Plain(r.result.1))
        && StartsWith(r.result.1, FailurePrefix)
  {
    var r := CoquiJobRun(xtts, yourtts, codec, s, job, outUuid, refUuid);
    if !r.result.0 && r.effects != [] {
      assert StartsWith(r.result.1, FailurePrefix);
    }
  }

  /** The error marker of a descriptor without an id, and of one without a text. */
  lemma MissingKeysGoToErr(xtts: ServiceState, yourtts: ServiceState, codec: AudioCodec, s: Files,
                           job: Descriptor, outUuid: string, refUuid: string)
    ensures job.id.None? ==> CoquiJobRun(xtts, yourtts, codec, s, job, outUuid, refUuid).effects
                             == [Write(ErrPath(UnknownId), Plain("Coqui synthesis failed: 'id'"))]
    ensures job.id.Some? && job.text.None? ==>
      CoquiJobRun(xtts, yourtts, codec, s, job, outUuid, refUuid).effects
        == [Write(ErrPath(job.id.value), Plain("Coqui synthesis failed: 'text'"))]
  {
    assert FailurePrefix + KeyErrorMessage("id") == "Coqui synthesis failed: 'id'";
    assert FailurePrefix + KeyErrorMessage("text") == "Coqui synthesis failed: 'text'";
  }

  /** After a successful synthesis from a reference, the reference file is gone (unless the
      descriptor named the job's own artifact or marker as its reference). */
  lemma ReferenceRemovedAfterSuccess(xtts: ServiceState, yourtts: ServiceState, codec: AudioCodec, s: Files,
                                     job: Descriptor, outUuid: string, refUuid: string)
    requires job.id.Some? && job.text.Some? && job.speaker.None? && job.refWav.Some?
    requires job.refWav.value != OutPath(job.id.value) && job.refWav.value != OkPath(job.id.value)
    ensures var r := CoquiJobRun(xtts, yourtts, codec, s, job, outUuid, refUuid);
      r.result.0 ==> job.refWav.value !in Apply(s, r.effects)
  {
    var r := CoquiJobRun(xtts, yourtts, codec, s, job, outUuid, refUuid);
    if r.result.0 {
      var id, ref := job.id.value, job.refWav.value;
      var st := if SelectService(job.model.GetOr(DefaultModel)) == YourTts then yourtts else xtts;
      var synth := ByAudioRun(st, codec, s, job.text.value, ref, job.language.GetOr(DefaultLanguage), outUuid, refUuid);
      var released := synth.effects + DeleteIfPresent(Apply(s, synth.effects), ref);
      var marks := [Write(OutPath(id), Binary(synth.result.value)), Write(OkPath(id), Plain(SuccessText))];
      assert r.effects == released + marks;
      ApplyAppend(s, synth.effects, DeleteIfPresent(Apply(s, synth.effects), ref));
      ApplyAppend(s, released, marks);
      ApplyAppend(Apply(s, released), [marks[0]], [marks[1]]);
      assert marks == [marks[0]] + [marks[1]];
    }
  }

  lemma OutTempIsNotQueued(kind: ServiceKind, uuid: string, engine: string)
    ensures !IsJobFile(engine, kind.OutTempPath(uuid))
  {
    var p := kind.OutTempPath(uuid);
    assert p[|p| - 1] == 'v';
    NotJobFile(engine, p);
  }

  lemma RefTempIsNotQueued(uuid: string, engine: string)
    ensures !IsJobFile(engine, RefTempPath(uuid))
  {
    var p := RefTempPath(uuid);
    assert p[|p| - 1] == 'v';
    NotJobFile(engine, p);
  }

  lemma SynthesisCreatesNoQueueEntry(st: ServiceState, codec: AudioCodec, s: Files, text: string,
                                     speaker: string, refWav: string, language: string,
                                     outUuid: string, refUuid: string, engine: string)
    ensures NoJobWrites(engine, BySpeakerRun(st, codec, s, text, speaker, language, outUuid).effects)
    ensures NoJobWrites(engine, ByAudioRun(st, codec, s, text, refWav, language, outUuid, refUuid).effects)
  {
    OutTempIsNotQueued(st.kind, outUuid, engine);
    RefTempIsNotQueued(refUuid, engine);
  }

  lemma ConcludeCreatesNoQueueEntry(engine: string, id: string, synth: Run<Result<seq<Byte>, string>>)
    requires NoJobWrites(engine, synth.effects)
    ensures NoJobWrites(engine, Conclude(id, synth).effects)
  {
    JobFilesAreNotQueued(engine, id);
    var marks := if synth.result.Failure? then [Write(ErrPath(id), Plain(FailurePrefix + synth.result.error))]
                 else [Write(OutPath(id), Binary(synth.result.value)), Write(OkPath(id), Plain(SuccessText))];
    NoJobWritesAppend(engine, synth.effects, marks);
  }

  /** Handling a descriptor never creates an entry of any queue. */
  lemma JobCreatesNoQueueEntry(xtts: ServiceState, yourtts: ServiceState, codec: AudioCodec, s: Files,
                               job: Descriptor, outUuid: string, refUuid: string, engine: string)
    ensures NoJobWrites(engine, CoquiJobRun(xtts, yourtts, codec, s, job, outUuid, refUuid).effects)
  {
    JobFilesAreNotQueued(engine, job.id.GetOr(UnknownId));
    if job.id.Some? && job.text.Some? {
      var st := if SelectService(job.model.GetOr(DefaultModel)) == YourTts then yourtts else xtts;
      var text, language := job.text.value, job.language.GetOr(DefaultLanguage);
      SynthesisCreatesNoQueueEntry(st, codec, s, text, job.speaker.GetOr(""), job.refWav.GetOr(""),
                                   language, outUuid, refUuid, engine);
      if job.speaker.None? && job.refWav.Some? {
        var synth := ByAudioRun(st, codec, s, text, job.refWav.value, language, outUuid, refUuid);
        NoJobWritesAppend(engine, synth.effects, DeleteIfPresent(Apply(s, synth.effects), job.refWav.value));
      }
      match VoiceRun(st, codec, s, job, text, language, outUuid, refUuid)
      case None =>
      case Some(synth) => ConcludeCreatesNoQueueEntry(engine, job.id.value, synth);
    }
  }

  // ---------------------------------------------------------------- the scan loop

  /** The uuids `uuid.uuid4()` hands out, in the order they are drawn. */
  datatype Environment = Environment(codec: AudioCodec, uuid: nat -> string)

  /** One pass of the `for job_file in job_files` body: read and parse the file, process it,
      and unlink it whatever happened. A file already gone is skipped. */
  function CoquiFileEffects(xtts: ServiceState, yourtts: ServiceState, env: Environment, s: Files,
                            path: string, k: nat): seq<Effect>
  {
    match Lookup(s, path)
    case None => []
    case Some(f) =>
      match ParseDescriptor(f)
      case None => [Delete(path)]
      case Some(job) =>
        var r := CoquiJobRun(xtts, yourtts, env.codec, s, job, env.uuid(2 * k), env.uuid(2 * k + 1));
        r.effects + DeleteIfPresent(Apply(s, r.effects), path)
  }

  function CoquiStep(xtts: ServiceState, yourtts: ServiceState, env: Environment): (Files, string, nat) -> seq<Effect> {
    (t: Files, p: string, k: nat) => CoquiFileEffects(xtts, yourtts, env, t, p, k)
  }

  lemma CoquiStepApplies(xtts: ServiceState, yourtts: ServiceState, env: Environment, t: Files, p: string, k: nat)
    ensures CoquiStep(xtts, yourtts, env)(t, p, k) == CoquiFileEffects(xtts, yourtts, env, t, p, k)
  {
  }

  /** Handling a listed file removes it, whatever its content, and creates no queue entry. */
  lemma FileIsConsumed(xtts: ServiceState, yourtts: ServiceState, env: Environment, s: Files,
                       path: string, k: nat)
    ensures path !in Apply(s, CoquiFileEffects(xtts, yourtts, env, s, path, k))
    ensures NoJobWrites(CoquiQueue, CoquiFileEffects(xtts, yourtts, env, s, path, k))
  {
    match Lookup(s, path)
    case None =>
    case Some(f) =>
      match ParseDescriptor(f)
      case None =>
      case Some(job) =>
        var r := CoquiJobRun(xtts, yourtts, env.codec, s, job, env.uuid(2 * k), env.uuid(2 * k + 1));
        var del := DeleteIfPresent(Apply(s, r.effects), path);
        ApplyAppend(s, r.effects, del);
        JobCreatesNoQueueEntry(xtts, yourtts, env.codec, s, job, env.uuid(2 * k), env.uuid(2 * k + 1), CoquiQueue);
        NoJobWritesAppend(CoquiQueue, r.effects, del);
  }

  const CoquiQueue := "coqui"

  /** One scan consumes every descriptor it found: afterwards the queue is empty, whether the
      descriptors parsed, succeeded or failed. */
  lemma ScanEmptiesQueue(xtts: ServiceState, yourtts: ServiceState, env: Environment, s: Files,
                         listing: seq<string>, start: nat)
    requires forall p :: p in listing <==> p in s && IsJobFile(CoquiQueue, p)
    ensures forall p :: IsJobFile(CoquiQueue, p) ==>
      p !in Apply(s, ScanEffects(CoquiStep(xtts, yourtts, env), s, listing, start))
  {
    var step := CoquiStep(xtts, yourtts, env);
    var inv := (t: Files) => true;
    forall t, p, j ensures NoJobWrites(CoquiQueue, step(t, p, j)) && p !in Apply(t, step(t, p, j)) {
      FileIsConsumed(xtts, yourtts, env, t, p, j);
    }
    ScanDrains(CoquiQueue, step, inv, s, listing, start);
  }

  // ---------------------------------------------------------------- readiness record

  const XttsNotes := "Works great with Russian language even if you record your voice sample in English. No sentence limitations."
  const YourTtsNotes := "Really bad at voice cloning, but works nice and fast with existing samples."

  /** The record `write_worker_info` writes once both models loaded. */
  function ReadyInfo(xtts: ServiceState, yourtts: ServiceState): Info {
    Info("coqui", None, Some([
      ModelEntry("xtts", ModelInfo(Xtts.ModelName(), xtts.SupportedLanguages(), xtts.speakers, true, Some(XttsNotes))),
      ModelEntry("yourtts", ModelInfo(YourTts.ModelName(), yourtts.SupportedLanguages(), yourtts.speakers, true,
                                      Some(YourTtsNotes)))]))
  }

  /** The record written when loading a model raised. */
  function ErrorInfo(error: string): Info {
    Info("coqui", Some(error), Some([]))
  }

  /** The ready record advertises both models, each with at least one language, and no error;
      the error record advertises none. */
  lemma InfoRecords(xtts: ServiceState, yourtts: ServiceState, error: string)
    requires yourtts.kind == YourTts
    ensures var i := ReadyInfo(xtts, yourtts);
      i.error.None? && i.models.Some? && |i.models.value| == 2
      && i.models.value[0].key == "xtts" && i.models.value[1].key == "yourtts"
      && (forall k :: 0 <= k < 2 ==> i.models.value[k].info.languages != [])
      && i.models.value[1].info.languages == ["en", "fr-fr", "pt-br"]
    ensures ErrorInfo(error).error == Some(error) && ErrorInfo(error).models == Some([])
  {
  }

  /** A service's state after `load_models` gave `load`. */
  function AfterLoad(st: ServiceState, load: Result<LoadedModel, string>): ServiceState {
    match load
    case Failure(_) => st
    case Success(m) => st.(tts := Some(m), speakers := BuiltinSpeakers(st.speakers, m))
  }

  /** `write_worker_info`: load XTTS, then YourTTS, then write the ready record; if a load raised,
      write the error record instead and report the error. */
  function WorkerInfoRun(xtts: ServiceState, yourtts: ServiceState, loadX: Result<LoadedModel, string>,
                         loadY: Result<LoadedModel, string>): Run<Option<string>>
  {
    if loadX.Failure? then Run([Write(CoquiInfoPath, InfoJson(ErrorInfo(loadX.error)))], Some(loadX.error))
    else if loadY.Failure? then Run([Write(CoquiInfoPath, InfoJson(ErrorInfo(loadY.error)))], Some(loadY.error))
    else Run([Write(CoquiInfoPath, InfoJson(ReadyInfo(AfterLoad(xtts, loadX), AfterLoad(yourtts, loadY))))], None)
  }

  /** Initialisation always leaves an info record, and it carries the error exactly when
      initialisation failed; the ready record is written only when both loads succeeded. */
  lemma WorkerInfoAlwaysPublished(xtts: ServiceState, yourtts: ServiceState, loadX: Result<LoadedModel, string>,
                                  loadY: Result<LoadedModel, string>, s: Files)
    ensures var r := WorkerInfoRun(xtts, yourtts, loadX, loadY);
      var t := Apply(s, r.effects);
      && CoquiInfoPath in t && t[CoquiInfoPath].InfoJson?
      && t[CoquiInfoPath].info.error == r.result
      && (r.result.None? <==> loadX.Success? && loadY.Success?)
      && t - {CoquiInfoPath} == s - {CoquiInfoPath}
  {
    var r := WorkerInfoRun(xtts, yourtts, loadX, loadY);
    assert Apply(s, r.effects) == s[CoquiInfoPath := r.effects[0].file];
  }

  // ---------------------------------------------------------------- the worker process

  /** The synthesis part of `process_job`; `None` when the descriptor names no voice. */
  method SynthesizeVoice(fs: FileSystem, service: CoquiTtsService, codec: AudioCodec, job: Descriptor,
                         text: string, language: string, outUuid: string, refUuid: string)
    returns (audio: Option<Result<seq<Byte>, string>>)
    modifies fs
    ensures var run := VoiceRun(service.State(), codec, old(fs.files), job, text, language, outUuid, refUuid);
      && (audio.None? <==> run.None?)
      && (run.None? ==> fs.files == old(fs.files) && fs.journal == old(fs.journal))
      && (run.Some? ==> audio == Some(run.value.result) && fs.files == Apply(old(fs.files), run.value.effects)
                        && fs.journal == old(fs.journal) + run.value.effects)
  {
    if job.speaker.Some? {
      var r := service.SynthesizeBySpeaker(fs, codec, text, job.speaker.value, language, outUuid);
      return Some(r);
    }
    if job.refWav.None? {
      return None;
    }
    ghost var s0 := fs.files;
    var r := service.SynthesizeByAudio(fs, codec, text, job.refWav.value, language, outUuid, refUuid);
    ghost var synth := ByAudioRun(service.State(), codec, s0, text, job.refWav.value, language, outUuid, refUuid);
    if r.Success? {
      ghost var release := DeleteIfPresent(fs.files, job.refWav.value);
      if fs.Exists(job.refWav.value) {
        var _ := fs.Unlink(job.refWav.value);
      }
      ApplyAppend(s0, synth.effects, release);
    }
    return Some(r);
  }

  /** `process_job`. */
  method ProcessJob(fs: FileSystem, xtts: CoquiTtsService, yourtts: CoquiTtsService, codec: AudioCodec,
                    job: Descriptor, outUuid: string, refUuid: string)
    returns (success: bool, message: string)
    modifies fs
    ensures var run := CoquiJobRun(xtts.State(), yourtts.State(), codec, old(fs.files), job, outUuid, refUuid);
      (success, message) == run.result && fs.files == Apply(old(fs.files), run.effects)
      && fs.journal == old(fs.journal) + run.effects
  {
    if job.id.None? {
      message := FailurePrefix + KeyErrorMessage("id");
      fs.WriteFile(ErrPath(UnknownId), Plain(message));
      return false, message;
    }
    var id := job.id.value;
    if job.text.None? {
      message := FailurePrefix + KeyErrorMessage("text");
      fs.WriteFile(ErrPath(id), Plain(message));
      return false, message;
    }
    ghost var s0 := fs.files;
    var text := job.text.value;
    var language := job.language.GetOr(DefaultLanguage);
    var service := if Contains(job.model.GetOr(DefaultModel), "your_tts") then yourtts else xtts;
    ghost var run := VoiceRun(service.State(), codec, s0, job, text, language, outUuid, refUuid);
    var audio := SynthesizeVoice(fs, service, codec, job, text, language, outUuid, refUuid);
    if audio.None? {
      return false, NoVoice;
    }
    ghost var s2 := fs.files;
    match audio.value
    case Failure(e) =>
      message := FailurePrefix + e;
      fs.WriteFile(ErrPath(id), Plain(message));
      ApplyAppend(s0, run.value.effects, [Write(ErrPath(id), Plain(message))]);
      return false, message;
    case Success(bytes) =>
      fs.WriteFile(OutPath(id), Binary(bytes));
      fs.WriteFile(OkPath(id), Plain(SuccessText));
      ghost var marks := [Write(OutPath(id), Binary(bytes)), Write(OkPath(id), Plain(SuccessText))];
      ApplyAppend(s2, [marks[0]], [marks[1]]);
      assert marks == [marks[0]] + [marks[1]];
      ApplyAppend(s0, run.value.effects, marks);
      return true, SuccessText;
  }

  /** `write_worker_info` on the two service singletons; `loadX` and `loadY` are what
      constructing their `TTS` objects gave. */
  method WriteWorkerInfo(fs: FileSystem, xtts: CoquiTtsService, yourtts: CoquiTtsService,
                         loadX: Result<LoadedModel, string>, loadY: Result<LoadedModel, string>)
    returns (err: Option<string>)
    requires xtts != yourtts
    modifies fs, xtts, yourtts
    ensures var run := WorkerInfoRun(old(xtts.State()), old(yourtts.State()), loadX, loadY);
      err == run.result && fs.files == Apply(old(fs.files), run.effects)
      && fs.journal == old(fs.journal) + run.effects
    ensures xtts.State() == AfterLoad(old(xtts.State()), loadX)
    ensures yourtts.State() == if loadX.Success? then AfterLoad(old(yourtts.State()), loadY) else old(yourtts.State())
  {
    err := xtts.LoadModels(loadX);
    if err.None? {
      err := yourtts.LoadModels(loadY);
    }
    var info;
    if err.Some? {
      info := ErrorInfo(err.value);
    } else {
      info := ReadyInfo(xtts.State(), yourtts.State());
    }
    fs.WriteFile(CoquiInfoPath, InfoJson(info));
  }

  /** One iteration of the `for job_file in job_files` loop, the `k`-th file of the run. */
  method HandleFile(fs: FileSystem, xtts: CoquiTtsService, yourtts: CoquiTtsService, env: Environment,
                    path: string, k: nat)
    modifies fs
    ensures var effects := CoquiStep(xtts.State(), yourtts.State(), env)(old(fs.files), path, k);
      fs.files == Apply(old(fs.files), effects) && fs.journal == old(fs.journal) + effects
  {
    CoquiStepApplies(xtts.State(), yourtts.State(), env, fs.files, path, k);
    var f := fs.ReadFile(path);
    if f.None? {
      return;
    }
    var job := ParseDescriptor(f.value);
    if job.None? {
      var _ := fs.Unlink(path);
      return;
    }
    ghost var s0 := fs.files;
    var _, _ := ProcessJob(fs, xtts, yourtts, env.codec, job.value, env.uuid(2 * k), env.uuid(2 * k + 1));
    ghost var r := CoquiJobRun(xtts.State(), yourtts.State(), env.codec, s0, job.value, env.uuid(2 * k), env.uuid(2 * k + 1));
    ghost var s1 := fs.files;
    var _ := fs.Unlink(path);
    ApplyAppend(s0, r.effects, DeleteIfPresent(s1, path));
  }

  /** The `for job_file in job_files` loop over a listing taken before. */
  method HandleListed(fs: FileSystem, xtts: CoquiTtsService, yourtts: CoquiTtsService, env: Environment,
                      listing: seq<string>, start: nat)
    modifies fs
    ensures var effects := ScanEffects(CoquiStep(xtts.State(), yourtts.State(), env), old(fs.files), listing, start);
      fs.files == Apply(old(fs.files), effects) && fs.journal == old(fs.journal) + effects
  {
    ghost var s0 := fs.files;
    ghost var step := CoquiStep(xtts.State(), yourtts.State(), env);
    var i := 0;
    ScanAtStart(step, s0, old(fs.journal), listing, start);
    while i < |listing|
      invariant ScanAt(step, s0, old(fs.journal), listing, start, i, fs.files, fs.journal)
    {
      ghost var cur, seen := fs.files, fs.journal;
      HandleFile(fs, xtts, yourtts, env, listing[i], start + i);
      ScanAdvance(step, s0, old(fs.journal), listing, start, i, cur, seen, step(cur, listing[i], start + i));
      i := i + 1;
    }
    ScanAtEnd(step, s0, old(fs.journal), listing, start, fs.files, fs.journal);
  }

  /** One pass of the `while True` body: list the queue, then handle each listed file in turn.
      `start` numbers the files handled before, so that each draws fresh uuids. */
  method ScanQueue(fs: FileSystem, xtts: CoquiTtsService, yourtts: CoquiTtsService, env: Environment, start: nat)
    returns (listing: seq<string>)
    modifies fs
    ensures forall p :: p in listing <==> p in old(fs.files) && IsJobFile(CoquiQueue, p)
    ensures var effects := ScanEffects(CoquiStep(xtts.State(), yourtts.State(), env), old(fs.files), listing, start);
      fs.files == Apply(old(fs.files), effects) && fs.journal == old(fs.journal) + effects
    ensures forall p :: IsJobFile(CoquiQueue, p) ==> p !in fs.files
  {
    listing := fs.ListJobFiles(CoquiQueue);
    ScanEmptiesQueue(xtts.State(), yourtts.State(), env, fs.files, listing, start);
    HandleListed(fs, xtts, yourtts, env, listing, start);
  }

  /** `main`: initialise, exit with 1 if that raised, else run `rounds` passes of the scan loop
      (the source loops until interrupted) and exit with 0. */
  method RunWorker(fs: FileSystem, xtts: CoquiTtsService, yourtts: CoquiTtsService, env: Environment,
                   loadX: Result<LoadedModel, string>, loadY: Result<LoadedModel, string>, rounds: nat)
    returns (code: int)
    requires xtts != yourtts
    modifies fs, xtts, yourtts
    ensures var init := WorkerInfoRun(old(xtts.State()), old(yourtts.State()), loadX, loadY);
      && (code == 1 <==> init.result.Some?)
      && (code == 1 ==> fs.files == Apply(old(fs.files), init.effects))
      && (code != 1 ==> code == 0)
    ensures code == 0 && rounds > 0 ==> forall p :: IsJobFile(CoquiQueue, p) ==> p !in fs.files
  {
    var err := WriteWorkerInfo(fs, xtts, yourtts, loadX, loadY);
    if err.Some? {
      return 1;
    }
    var round := 0;
    var handled: nat := 0;
    while round < rounds
      invariant 0 <= round <= rounds
      invariant round > 0 ==> forall p :: IsJobFile(CoquiQueue, p) ==> p !in fs.files
    {
      var listing := ScanQueue(fs, xtts, yourtts, env, handled);
      handled := handled + |listing|;
      round := round + 1;
    }
    return 0;
  }
}
