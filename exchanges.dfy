/**
 * Whole exchanges: the gateway's submission, one worker pass over the queued descriptor, the
 * gateway's wait and its reply, composed over the shared store. Between the gateway's steps
 * the worker runs to completion, so each poll of the wait sees the store the worker left.
 */
module Exchanges {
  import opened Wrappers
  import opened Text
  import opened Protocol
  import opened Store
  import opened NeuTtsAir
  import opened NeuttsService
  import NW = NeuttsWorker
  import CW = CoquiWorker
  import CS = CoquiService
  import opened Gateway

  /** `ENABLED_WORKERS` when the variable is unset. */
  const DefaultEnabled := ["coqui", "neutts"]

  /** A wait whose every poll sees a store without a marker for the job reports a timeout,
      and the reply is a 500 carrying it. */
  lemma UnansweredJobTimesOut(id: string, u: Files, polls: seq<Files>)
    requires OkPath(id) !in u && ErrPath(id) !in u
    requires forall j :: 0 <= j < |polls| ==> polls[j] == u
    ensures WaitOutcome(id, polls) == (false, TimedOut)
    ensures CollectRun(u, id, false, TimedOut).result == Refused(HttpError(500, SynthesisFailedPrefix + TimedOut))
  {
    WaitTimesOut(id, polls);
  }

  /** A plain `/tts` request to neutts carries no reference, so the NeuTTS worker consumes the
      descriptor without writing any marker: the gateway can only time out. */
  lemma NeuttsPlainRequestTimesOut(caps: Capabilities, req: TtsRequest, id: string, s: Files,
                                   backbone: Option<Backbone>, tools: AudioTools, polls: seq<Files>)
    requires IsJobId(id) && req.engine == NW.NeuttsQueue && Validate(caps, req.text, req.engine).None?
    requires OkPath(id) !in s && ErrPath(id) !in s
    requires forall j :: 0 <= j < |polls| ==>
      var t := Apply(s, SubmitTtsRun(caps, req, id).effects);
      polls[j] == Apply(t, NW.NeuttsFileEffects(backbone, tools, t, QueuePath(NW.NeuttsQueue, id)))
    ensures var t := Apply(s, SubmitTtsRun(caps, req, id).effects);
      var u := Apply(t, NW.NeuttsFileEffects(backbone, tools, t, QueuePath(NW.NeuttsQueue, id)));
      && QueuePath(NW.NeuttsQueue, id) !in u
      && WaitOutcome(id, polls) == (false, TimedOut)
  {
    var q := QueuePath(NW.NeuttsQueue, id);
    var d := TtsDescriptor(req, id);
    SubmitTtsQueuesJob(caps, req, id, s);
    var t := Apply(s, SubmitTtsRun(caps, req, id).effects);
    assert t[q] == JobJson(d);
    NW.MissingReferenceLeavesNoMarker(backbone, tools, t, d);
    var e := NW.NeuttsFileEffects(backbone, tools, t, q);
    assert e == [Delete(q)];
    var u := Apply(t, e);
    ApplySingle(t, Delete(q));
    AreasDisjoint(id, id);
    UnansweredJobTimesOut(id, u, polls);
  }

  /** A plain `/tts` request to coqui that names no speaker (or an empty one) reaches the Coqui
      worker with neither a speaker nor a reference, which answers with no marker either. */
  lemma CoquiRequestWithoutSpeakerTimesOut(caps: Capabilities, req: TtsRequest, id: string, s: Files,
                                           xtts: CS.ServiceState, yourtts: CS.ServiceState,
                                           env: CW.Environment, k: nat, polls: seq<Files>)
    requires IsJobId(id) && req.engine == CW.CoquiQueue && !Given(req.speaker)
    requires Validate(caps, req.text, req.engine).None?
    requires OkPath(id) !in s && ErrPath(id) !in s
    requires forall j :: 0 <= j < |polls| ==>
      var t := Apply(s, SubmitTtsRun(caps, req, id).effects);
      polls[j] == Apply(t, CW.CoquiFileEffects(xtts, yourtts, env, t, QueuePath(CW.CoquiQueue, id), k))
    ensures var t := Apply(s, SubmitTtsRun(caps, req, id).effects);
      var u := Apply(t, CW.CoquiFileEffects(xtts, yourtts, env, t, QueuePath(CW.CoquiQueue, id), k));
      && QueuePath(CW.CoquiQueue, id) !in u
      && WaitOutcome(id, polls) == (false, TimedOut)
  {
    var q := QueuePath(CW.CoquiQueue, id);
    var d := TtsDescriptor(req, id);
    SubmitTtsQueuesJob(caps, req, id, s);
    var t := Apply(s, SubmitTtsRun(caps, req, id).effects);
    assert t[q] == JobJson(d);
    CW.NoVoiceWritesNothing(xtts, yourtts, env.codec, t, d, env.uuid(2 * k), env.uuid(2 * k + 1));
    var e := CW.CoquiFileEffects(xtts, yourtts, env, t, q, k);
    assert e == [Delete(q)];
    var u := Apply(t, e);
    ApplySingle(t, Delete(q));
    AreasDisjoint(id, id);
    UnansweredJobTimesOut(id, u, polls);
  }

  /** A worker pass whose job ends with the artifact and the success marker, followed by any
      deletion of a queue entry, lets the next poll succeed and the reply deliver the artifact. */
  lemma SuccessIsDelivered(t: Files, id: string, es: seq<Effect>, audio: seq<Byte>, q: string, engine: string)
    requires |es| >= 2 && es[|es| - 2] == Write(OutPath(id), Binary(audio))
    requires es[|es| - 1] == Write(OkPath(id), Plain(SuccessText))
    requires IsJobFile(engine, q)
    ensures var u := Apply(t, es + DeleteIfPresent(Apply(t, es), q));
      && MarkerOutcome(u, id) == Some((true, SuccessText))
      && CollectRun(u, id, true, SuccessText).result == Delivered(Binary(audio))
  {
    var n := |es|;
    AreasDisjoint(id, id);
    assert es[n - 1..] == [es[n - 1]];
    LastWriteWins(t, es, n - 2);
    FinalWrite(t, es, OkPath(id), Plain(SuccessText));
    QueueEntryIsNotJobScoped(engine, q, id);
    DeleteIfPresentRemoves(t, es, q);
  }

  /** A worker pass whose job ends with the failure marker, and which wrote no success marker,
      lets the next poll fail with the marker's stripped text, which the reply carries. */
  lemma FailureIsReported(t: Files, id: string, es: seq<Effect>, msg: string, q: string, engine: string)
    requires |es| >= 1 && es[|es| - 1] == Write(ErrPath(id), Plain(msg))
    requires NoWriteTo(es, OkPath(id)) && OkPath(id) !in t
    requires IsJobFile(engine, q)
    ensures var u := Apply(t, es + DeleteIfPresent(Apply(t, es), q));
      && MarkerOutcome(u, id) == Some((false, Strip(msg)))
      && CollectRun(u, id, false, Strip(msg)).result == Refused(HttpError(500, SynthesisFailedPrefix + Strip(msg)))
  {
    FinalWrite(t, es, ErrPath(id), Plain(msg));
    ApplyNoWrite(t, es, OkPath(id));
    QueueEntryIsNotJobScoped(engine, q, id);
    DeleteIfPresentRemoves(t, es, q);
  }

  /** The reply's cleanup removes the job's four files and keeps every file outside them. */
  lemma ReplyCleansUp(u: Files, id: string, success: bool, message: string, keep: string)
    requires keep !in JobScoped(id)
    ensures var after := Apply(u, CollectRun(u, id, success, message).effects);
      && (forall p :: p in JobScoped(id) ==> p !in after)
      && Lookup(after, keep) == Lookup(u, keep)
  {
    CollectOutcome(u, id, success, message);
  }

  /** The NeuTTS worker's pass over a queued descriptor: the job's own effects, then the
      removal of the descriptor, which is gone afterwards. */
  lemma NeuttsPassConsumes(t: Files, q: string, d: Descriptor, b: Option<Backbone>, tools: AudioTools)
    requires q in t && t[q] == JobJson(d)
    ensures var r := NW.NeuttsJobRun(b, tools, t, d);
      var e := NW.NeuttsFileEffects(b, tools, t, q);
      && e == r.effects + DeleteIfPresent(Apply(t, r.effects), q)
      && q !in Apply(t, e)
  {
    var r := NW.NeuttsJobRun(b, tools, t, d);
    var del := DeleteIfPresent(Apply(t, r.effects), q);
    ApplyAppend(t, r.effects, del);
    if q in Apply(t, r.effects) { ApplySingle(Apply(t, r.effects), Delete(q)); }
  }

  /** A descriptor whose reference is an uploaded file, and whose synthesis succeeds, is
      answered with the success marker and the rendered audio. */
  lemma NeuttsPassDelivers(t: Files, id: string, d: Descriptor, b: Backbone, tools: AudioTools)
    requires IsJobId(id) && d.id == Some(id) && d.text.Some? && d.refWav == Some(InPath(id))
    requires QueuePath(NW.NeuttsQueue, id) in t && t[QueuePath(NW.NeuttsQueue, id)] == JobJson(d)
    requires InPath(id) in t
    requires SynthesisRun(Some(b), tools, t, d.text.value, InPath(id)).result.Success?
    ensures var audio := SynthesisRun(Some(b), tools, t, d.text.value, InPath(id)).result.value;
      var u := Apply(t, NW.NeuttsFileEffects(Some(b), tools, t, QueuePath(NW.NeuttsQueue, id)));
      && MarkerOutcome(u, id) == Some((true, SuccessText))
      && CollectRun(u, id, true, SuccessText).result == Delivered(Binary(audio))
  {
    var q := QueuePath(NW.NeuttsQueue, id);
    var synth := SynthesisRun(Some(b), tools, t, d.text.value, InPath(id));
    NW.SynthesisTail(Some(b), tools, t, d, synth);
    NeuttsPassConsumes(t, q, d, Some(b), tools);
    QueuePathIsJobFile(NW.NeuttsQueue, id);
    SuccessIsDelivered(t, id, NW.NeuttsJobRun(Some(b), tools, t, d).effects, synth.result.value, q, NW.NeuttsQueue);
  }

  /** A descriptor whose reference is an uploaded file, and whose synthesis raises, is
      answered with the failure marker carrying the worker's message. */
  lemma NeuttsPassReportsFailure(t: Files, id: string, d: Descriptor, b: Backbone, tools: AudioTools)
    requires IsJobId(id) && d.id == Some(id) && d.text.Some? && d.refWav == Some(InPath(id))
    requires QueuePath(NW.NeuttsQueue, id) in t && t[QueuePath(NW.NeuttsQueue, id)] == JobJson(d)
    requires InPath(id) in t && OkPath(id) !in t
    requires SynthesisRun(Some(b), tools, t, d.text.value, InPath(id)).result.Failure?
    ensures var e := SynthesisRun(Some(b), tools, t, d.text.value, InPath(id)).result.error;
      var m := Strip(NW.FailurePrefix + e);
      var u := Apply(t, NW.NeuttsFileEffects(Some(b), tools, t, QueuePath(NW.NeuttsQueue, id)));
      && MarkerOutcome(u, id) == Some((false, m))
      && CollectRun(u, id, false, m).result == Refused(HttpError(500, SynthesisFailedPrefix + m))
  {
    var q := QueuePath(NW.NeuttsQueue, id);
    var synth := SynthesisRun(Some(b), tools, t, d.text.value, InPath(id));
    NW.SynthesisTail(Some(b), tools, t, d, synth);
    NeuttsPassConsumes(t, q, d, Some(b), tools);
    QueuePathIsJobFile(NW.NeuttsQueue, id);
    var r := NW.NeuttsJobRun(Some(b), tools, t, d);
    ConvertedUploadPath(id, id);
    NW.SynthesisEffects(Some(b), tools, t, d.text.value, InPath(id));
    AreasDisjoint(id, id);
    forall i | 0 <= i < |r.effects| && r.effects[i].Write? ensures r.effects[i].path != OkPath(id) {
      if i < |synth.effects| {
        assert r.effects[i] == synth.effects[i];
      }
    }
    FailureIsReported(t, id, r.effects, NW.FailurePrefix + synth.result.error, q, NW.NeuttsQueue);
  }

  /** A `/tts_with_audio` request to neutts, end to end: the NeuTTS worker synthesizes from the
      uploaded reference and consumes the descriptor; on success the reply delivers exactly the
      rendered audio, and on a failure it is a 500 carrying the worker's message. */
  lemma NeuttsUploadExchange(caps: Capabilities, req: AudioRequest, id: string, s: Files,
                             b: Backbone, tools: AudioTools)
    requires IsJobId(id) && req.engine == NW.NeuttsQueue && Validate(caps, req.text, req.engine).None?
    requires OkPath(id) !in s
    ensures var t := Apply(s, SubmitAudioRun(caps, req, id).effects);
      var synth := SynthesisRun(Some(b), tools, t, req.text, InPath(id));
      var q := QueuePath(NW.NeuttsQueue, id);
      var u := Apply(t, NW.NeuttsFileEffects(Some(b), tools, t, q));
      var w := WaitOutcome(id, [u]);
      var reply := CollectRun(u, id, w.0, w.1).result;
      && q !in u
      && (synth.result.Success? ==> reply == Delivered(Binary(synth.result.value)))
      && (synth.result.Failure? ==>
            reply == Refused(HttpError(500, SynthesisFailedPrefix + Strip(NW.FailurePrefix + synth.result.error))))
  {
    var q := QueuePath(NW.NeuttsQueue, id);
    var t := Apply(s, SubmitAudioRun(caps, req, id).effects);
    var u := Apply(t, NW.NeuttsFileEffects(Some(b), tools, t, q));
    SubmitAudioQueuesJob(caps, req, id, s);
    AreasDisjoint(id, id);
    var d := AudioDescriptor(req, id);
    NeuttsPassConsumes(t, q, d, Some(b), tools);
    assert [u][1..] == [];
    if SynthesisRun(Some(b), tools, t, req.text, InPath(id)).result.Success? {
      NeuttsPassDelivers(t, id, d, b, tools);
    } else {
      NeuttsPassReportsFailure(t, id, d, b, tools);
    }
  }

  /** After the reply to a neutts job on an uploaded reference, the descriptor and the job's
      four files are gone, while the converted copy of the reference, which the gateway does
      not know about, is left as the worker wrote it. */
  lemma NeuttsConvertedCopyRemains(u: Files, id: string, success: bool, message: string)
    requires IsJobId(id) && QueuePath(NW.NeuttsQueue, id) !in u
    ensures var after := Apply(u, CollectRun(u, id, success, message).effects);
      && QueuePath(NW.NeuttsQueue, id) !in after
      && (forall p :: p in JobScoped(id) ==> p !in after)
      && Lookup(after, ConvertedPath(InPath(id))) == Lookup(u, ConvertedPath(InPath(id)))
  {
    JobFilesAreNotQueued(NW.NeuttsQueue, id);
    AreasDisjoint(id, id);
    ConvertedUploadPath(id, id);
    ReplyCleansUp(u, id, success, message, QueuePath(NW.NeuttsQueue, id));
    ReplyCleansUp(u, id, success, message, ConvertedPath(InPath(id)));
  }

  /** With the default workers enabled, a NeuTTS worker whose initialization failed never
      publishes its record, so the gateway's wait times out with no engine at all: every
      request is then refused with a 400, also those for coqui. */
  lemma NeuttsInitFailureDisablesAll(polls: seq<Files>, text: string, engine: string)
    requires forall j :: 0 <= j < |polls| ==> NeuttsInfoPath !in polls[j]
    ensures Startup([], DefaultEnabled, polls) == []
    ensures Validate(Startup([], DefaultEnabled, polls), text, engine).Some?
  {
    assert InfoFile(DefaultEnabled[1]) == Some(NeuttsInfoPath);
    StartupWithoutRecord([], DefaultEnabled, polls, 1);
  }

  /** A Coqui worker whose initialization failed publishes its error record, so coqui becomes
      an available engine that advertises no model, while the worker itself has stopped. */
  lemma CoquiInitFailureStillAvailable(s: Files, error: string, text: string)
    requires CoquiInfoPath in s && s[CoquiInfoPath] == InfoJson(CW.ErrorInfo(error))
    requires NeuttsInfoPath in s && LoadedModels(s[NeuttsInfoPath]).Some?
    requires !AllSpace(text) && |text| <= MaxTextLength
    ensures var caps := Startup([], DefaultEnabled, [s]);
      && Engines(caps) == {"coqui", "neutts"}
      && CapabilityOf(caps, "coqui") == Some(Some([]))
      && Validate(caps, text, "coqui").None?
  {
    assert InfoFile(DefaultEnabled[0]) == Some(CoquiInfoPath);
    assert InfoFile(DefaultEnabled[1]) == Some(NeuttsInfoPath);
    assert AllReady(DefaultEnabled, s);
    assert InfoReadable(DefaultEnabled, s);
    assert Awaited(DefaultEnabled) == {"coqui", "neutts"} by {
      assert "coqui" in DefaultEnabled && "neutts" in DefaultEnabled;
    }
    LoadPassRegisters([], DefaultEnabled, s);
    assert [s][0] == s;
  }
}
