/**
 * The gateway. At startup it waits for the enabled workers' info records and keeps each
 * record's `models` as that engine's capabilities. For a request it validates the input,
 * queues a job descriptor for the chosen engine, polls the done area for the job's marker,
 * returns the artifact and removes the job's files.
 */
module Gateway {
  import opened Wrappers
  import opened Text
  import opened Protocol
  import opened Store

  const MaxTextLength := 1000
  const EmptyText := "Text cannot be empty"
  const TextTooLong := "Text too long (max 1000 characters)"
  const NeuttsDescriptorModel := "neuphonic/neutts-air"
  const SynthesisFailedPrefix := "TTS synthesis failed: "
  const OutputMissing := "Output file not found"
  const UnreadableMarker := "Unknown error"
  const TimedOut := "Timeout"

  function EngineUnavailable(engine: string): string {
    "Engine '" + engine + "' not available"
  }

  /** An `HTTPException`. */
  datatype HttpError = HttpError(status: int, detail: string)

  // ---------------------------------------------------------------- capabilities

  /** One entry of `worker_capabilities`: an engine and the `models` of the record its worker
      published (`None` when the record has no `models` key). */
  datatype Capability = Capability(engine: string, models: Option<seq<ModelEntry>>)

  /** `worker_capabilities`, in insertion order. */
  type Capabilities = seq<Capability>

  /** The keys of `worker_capabilities`. */
  function Engines(caps: Capabilities): set<string>
    decreases |caps|
  {
    if caps == [] then {} else {caps[0].engine} + Engines(caps[1..])
  }

  /** `worker_capabilities.get(engine)`. */
  function CapabilityOf(caps: Capabilities, engine: string): Option<Option<seq<ModelEntry>>>
    decreases |caps|
  {
    if caps == [] then None
    else if caps[0].engine == engine then Some(caps[0].models)
    else CapabilityOf(caps[1..], engine)
  }

  /** Every engine is a key at most once, as in a dict. */
  predicate UniqueEngines(caps: Capabilities) {
    forall i, j :: 0 <= i < j < |caps| ==> caps[i].engine != caps[j].engine
  }

  lemma {:induction false} CapabilityOfKnown(caps: Capabilities, engine: string)
    ensures CapabilityOf(caps, engine).Some? <==> engine in Engines(caps)
    decreases |caps|
  {
    if caps != [] {
      CapabilityOfKnown(caps[1..], engine);
    }
  }

  lemma EnginesCons(c: Capability, rest: Capabilities)
    ensures Engines([c] + rest) == {c.engine} + Engines(rest)
    ensures CapabilityOf([c] + rest, c.engine) == Some(c.models)
    ensures forall e :: e != c.engine ==> CapabilityOf([c] + rest, e) == CapabilityOf(rest, e)
  {
    assert ([c] + rest)[1..] == rest;
  }

  /** `worker_capabilities[engine] = models`: a known engine keeps its position, a new one
      goes last, and no other engine's entry changes. */
  function Assign(caps: Capabilities, engine: string, models: Option<seq<ModelEntry>>): (r: Capabilities)
    ensures Engines(r) == Engines(caps) + {engine}
    ensures CapabilityOf(r, engine) == Some(models)
    ensures forall e :: e != engine ==> CapabilityOf(r, e) == CapabilityOf(caps, e)
    ensures UniqueEngines(caps) ==> UniqueEngines(r)
    ensures |r| == if engine in Engines(caps) then |caps| else |caps| + 1
    decreases |caps|
  {
    if caps == [] then
      var r := [Capability(engine, models)];
      EnginesCons(r[0], []);
      r
    else if caps[0].engine == engine then
      var r := [Capability(engine, models)] + caps[1..];
      EnginesCons(caps[0], caps[1..]);
      EnginesCons(r[0], caps[1..]);
      assert caps == [caps[0]] + caps[1..];
      r
    else
      var rest := Assign(caps[1..], engine, models);
      var r := [caps[0]] + rest;
      EnginesCons(caps[0], caps[1..]);
      EnginesCons(caps[0], rest);
      assert caps == [caps[0]] + caps[1..];
      assert UniqueEngines(caps) ==> UniqueEngines(r) by {
        if UniqueEngines(caps) {
          assert UniqueEngines(caps[1..]) by {
            forall i, j | 0 <= i < j < |caps| - 1 ensures caps[1..][i].engine != caps[1..][j].engine {
              assert caps[1..][i] == caps[i + 1] && caps[1..][j] == caps[j + 1];
            }
          }
          assert caps[0].engine !in Engines(caps[1..]) by {
            forall k | 0 <= k < |caps| - 1 ensures caps[1..][k].engine != caps[0].engine {
              assert caps[1..][k] == caps[k + 1];
            }
            EngineAbsent(caps[1..], caps[0].engine);
          }
          forall j | 0 < j < |r| ensures r[0].engine != r[j].engine {
            assert r[j] == rest[j - 1];
            EngineAt(rest, j - 1);
          }
        }
      }
      r
  }

  /** Assignment keeps the table's order: a known engine stays where it was, and a new one
      is appended after every existing entry. */
  lemma {:induction false} AssignKeepsOrder(caps: Capabilities, engine: string, models: Option<seq<ModelEntry>>)
    ensures var r := Assign(caps, engine, models);
      && (engine in Engines(caps) ==> |r| == |caps| && forall i :: 0 <= i < |caps| ==> r[i].engine == caps[i].engine)
      && (engine !in Engines(caps) ==> r == caps + [Capability(engine, models)])
    decreases |caps|
  {
    var r := Assign(caps, engine, models);
    if caps == [] {
    } else if caps[0].engine == engine {
      forall i | 0 < i < |caps| ensures r[i].engine == caps[i].engine {
        assert r[i] == caps[1..][i - 1];
      }
    } else {
      var rest := Assign(caps[1..], engine, models);
      AssignKeepsOrder(caps[1..], engine, models);
      EnginesCons(caps[0], caps[1..]);
      assert caps == [caps[0]] + caps[1..];
      assert r == [caps[0]] + rest;
      if engine in Engines(caps) {
        forall i | 0 < i < |caps| ensures r[i].engine == caps[i].engine {
          assert r[i] == rest[i - 1] && caps[i] == caps[1..][i - 1];
        }
      } else {
        ConcatAssoc([caps[0]], caps[1..], [Capability(engine, models)]);
      }
    }
  }

  lemma {:induction false} EngineAbsent(caps: Capabilities, e: string)
    requires forall k :: 0 <= k < |caps| ==> caps[k].engine != e
    ensures e !in Engines(caps)
    decreases |caps|
  {
    if caps != [] {
      forall k | 0 <= k < |caps| - 1 ensures caps[1..][k].engine != e {
        assert caps[1..][k] == caps[k + 1];
      }
      EngineAbsent(caps[1..], e);
    }
  }

  lemma {:induction false} EngineAt(caps: Capabilities, k: nat)
    requires k < |caps|
    ensures caps[k].engine in Engines(caps)
    decreases k
  {
    if k > 0 {
      EngineAt(caps[1..], k - 1);
      assert caps[1..][k - 1] == caps[k];
    }
  }

  // ---------------------------------------------------------------- startup

  /** `WORKER_INFO_FILES`. */
  function InfoFile(worker: string): Option<string> {
    if worker == "coqui" then Some(CoquiInfoPath)
    else if worker == "neutts" then Some(NeuttsInfoPath)
    else None
  }

  /** The workers of `enabled` the gateway waits for: those named in `WORKER_INFO_FILES`. */
  function Awaited(enabled: seq<string>): set<string> {
    set w | w in enabled && InfoFile(w).Some?
  }

  /** The readiness test of one startup poll: every awaited worker has published its record. */
  predicate AllReady(enabled: seq<string>, s: Files) {
    forall i :: 0 <= i < |enabled| && InfoFile(enabled[i]).Some? ==> InfoFile(enabled[i]).value in s
  }

  /** `json.load` of an info file, as far as the gateway uses it: the record's `models` (`None`
      for a dict without that key), or `None` when the file does not parse. */
  function LoadedModels(f: File): Option<Option<seq<ModelEntry>>> {
    match f
    case InfoJson(info) => Some(info.models)
    case JobJson(_) => Some(None)
    case _ => None
  }

  /** The loading pass of a ready poll over `enabled`: the capabilities afterwards, and whether
      every awaited file was read. A file that vanished or does not parse ends the pass, and
      what was stored before it stays. */
  function LoadPass(caps: Capabilities, enabled: seq<string>, s: Files): (Capabilities, bool)
    decreases |enabled|
  {
    if enabled == [] then (caps, true)
    else
      match InfoFile(enabled[0])
      case None => LoadPass(caps, enabled[1..], s)
      case Some(p) =>
        if p !in s then (caps, false)
        else
          match LoadedModels(s[p])
          case None => (caps, false)
          case Some(m) => LoadPass(Assign(caps, enabled[0], m), enabled[1..], s)
  }

  /** `startup_event`, where `polls` are the stores the once-a-second readiness checks see
      before the timeout: the first ready poll is loaded and ends the wait, whether the load
      succeeds or not. */
  function Startup(caps: Capabilities, enabled: seq<string>, polls: seq<Files>): Capabilities
    decreases |polls|
  {
    if polls == [] then caps
    else if AllReady(enabled, polls[0]) then LoadPass(caps, enabled, polls[0]).0
    else Startup(caps, enabled, polls[1..])
  }

  /** Every awaited worker's file is present and parses. */
  predicate InfoReadable(enabled: seq<string>, s: Files) {
    forall i :: 0 <= i < |enabled| && InfoFile(enabled[i]).Some? ==>
      InfoFile(enabled[i]).value in s && LoadedModels(s[InfoFile(enabled[i]).value]).Some?
  }

  /** A pass over readable records succeeds, makes exactly the awaited workers available on
      top of what was there, and keeps for each the `models` of its record. */
  lemma {:induction false} LoadPassRegisters(caps: Capabilities, enabled: seq<string>, s: Files)
    requires InfoReadable(enabled, s)
    ensures var r := LoadPass(caps, enabled, s);
      && r.1
      && Engines(r.0) == Engines(caps) + Awaited(enabled)
      && forall w :: w in Awaited(enabled) ==> CapabilityOf(r.0, w) == LoadedModels(s[InfoFile(w).value])
    decreases |enabled|
  {
    if enabled != [] {
      var w := enabled[0];
      var rest := enabled[1..];
      assert InfoReadable(rest, s) by {
        forall i | 0 <= i < |rest| && InfoFile(rest[i]).Some?
          ensures InfoFile(rest[i]).value in s && LoadedModels(s[InfoFile(rest[i]).value]).Some?
        {
          assert rest[i] == enabled[i + 1];
        }
      }
      assert Awaited(enabled) == (if InfoFile(w).Some? then {w} else {}) + Awaited(rest) by {
        forall x ensures x in Awaited(enabled) <==> x in (if InfoFile(w).Some? then {w} else {}) + Awaited(rest) {
          if x in enabled && x != w {
            var i :| 0 <= i < |enabled| && enabled[i] == x;
            assert rest[i - 1] == x;
          }
        }
      }
      if InfoFile(w).Some? {
        var m := LoadedModels(s[InfoFile(w).value]).value;
        var next := Assign(caps, w, m);
        LoadPassRegisters(next, rest, s);
        if w !in Awaited(rest) {
          LoadPassKeeps(next, rest, s, w);
        }
      } else {
        LoadPassRegisters(caps, rest, s);
      }
    }
  }

  lemma AwaitedTail(enabled: seq<string>)
    requires enabled != []
    ensures Awaited(enabled[1..]) <= Awaited(enabled)
  {
    forall x | x in Awaited(enabled[1..]) ensures x in Awaited(enabled) {
      var i :| 0 <= i < |enabled[1..]| && enabled[1..][i] == x;
      assert enabled[i + 1] == x;
    }
  }

  /** A pass leaves a worker it does not await as it was. */
  lemma {:induction false} LoadPassKeeps(caps: Capabilities, enabled: seq<string>, s: Files, w: string)
    requires w !in Awaited(enabled)
    ensures CapabilityOf(LoadPass(caps, enabled, s).0, w) == CapabilityOf(caps, w)
    decreases |enabled|
  {
    if enabled != [] {
      var rest := enabled[1..];
      AwaitedTail(enabled);
      match InfoFile(enabled[0])
      case None => LoadPassKeeps(caps, rest, s, w);
      case Some(p) =>
        if p in s && LoadedModels(s[p]).Some? {
          assert enabled[0] != w;
          LoadPassKeeps(Assign(caps, enabled[0], LoadedModels(s[p]).value), rest, s, w);
        }
    }
  }

  /** Whatever the files hold, a pass only adds awaited workers: a name missing from
      `WORKER_INFO_FILES` never becomes an engine. */
  lemma {:induction false} LoadPassOnlyAwaited(caps: Capabilities, enabled: seq<string>, s: Files)
    ensures Engines(caps) <= Engines(LoadPass(caps, enabled, s).0) <= Engines(caps) + Awaited(enabled)
    decreases |enabled|
  {
    if enabled != [] {
      var rest := enabled[1..];
      AwaitedTail(enabled);
      match InfoFile(enabled[0])
      case None => LoadPassOnlyAwaited(caps, rest, s);
      case Some(p) =>
        if p in s && LoadedModels(s[p]).Some? {
          assert enabled[0] in Awaited(enabled);
          LoadPassOnlyAwaited(Assign(caps, enabled[0], LoadedModels(s[p]).value), rest, s);
        }
    }
  }

  /** The wait ends at the first ready poll: the capabilities are what loading that poll made
      of them. */
  lemma {:induction false} StartupLoadsFirstReadyPoll(caps: Capabilities, enabled: seq<string>, polls: seq<Files>, k: nat)
    requires k < |polls| && AllReady(enabled, polls[k])
    requires forall j :: 0 <= j < k ==> !AllReady(enabled, polls[j])
    ensures Startup(caps, enabled, polls) == LoadPass(caps, enabled, polls[k]).0
    decreases k
  {
    if k > 0 {
      assert !AllReady(enabled, polls[0]);
      forall j | 0 <= j < k - 1 ensures !AllReady(enabled, polls[1..][j]) {
        assert polls[1..][j] == polls[j + 1];
      }
      StartupLoadsFirstReadyPoll(caps, enabled, polls[1..], k - 1);
    }
  }

  /** If an awaited worker never publishes its record (a worker whose initialization failed
      before writing one), the wait times out and nothing is loaded, not even the records of
      the workers that did start. */
  lemma {:induction false} StartupWithoutRecord(caps: Capabilities, enabled: seq<string>, polls: seq<Files>, w: nat)
    requires w < |enabled| && InfoFile(enabled[w]).Some?
    requires forall j :: 0 <= j < |polls| ==> InfoFile(enabled[w]).value !in polls[j]
    ensures Startup(caps, enabled, polls) == caps
    decreases |polls|
  {
    if polls != [] {
      assert polls[0] == polls[0];
      assert !AllReady(enabled, polls[0]);
      forall j | 0 <= j < |polls| - 1 ensures InfoFile(enabled[w]).value !in polls[1..][j] {
        assert polls[1..][j] == polls[j + 1];
      }
      StartupWithoutRecord(caps, enabled, polls[1..], w);
    }
  }

  // ---------------------------------------------------------------- requests

  /** Python truthiness of an optional string: present and not empty. */
  predicate Given(o: Option<string>) {
    o.Some? && o.value != ""
  }

  /** The body of `POST /tts`; `engine` defaults to "coqui" and `language` to "en". */
  datatype TtsRequest = TtsRequest(
    text: string,
    engine: string,
    model: Option<string>,
    submodel: Option<string>,
    language: string,
    speaker: Option<string>)

  /** A body that gives only the text. */
  function PlainRequest(text: string): TtsRequest {
    TtsRequest(text, "coqui", None, None, "en", None)
  }

  /** The form of `POST /tts_with_audio`; `language` defaults to "en", `submodel` may be absent,
      and `upload` is the content of the uploaded file. */
  datatype AudioRequest = AudioRequest(
    text: string,
    language: string,
    engine: string,
    model: string,
    submodel: Option<string>,
    upload: seq<Byte>)

  /** The three checks both endpoints make, in order: blank text, length, known engine. */
  function Validate(caps: Capabilities, text: string, engine: string): (r: Option<HttpError>)
    ensures r.None? <==> !AllSpace(text) && |text| <= MaxTextLength && engine in Engines(caps)
    ensures r.Some? ==> r.value.status == 400
    ensures AllSpace(text) ==> r == Some(HttpError(400, EmptyText))
    ensures !AllSpace(text) && |text| > MaxTextLength ==> r == Some(HttpError(400, TextTooLong))
    ensures !AllSpace(text) && |text| <= MaxTextLength && engine !in Engines(caps) ==>
      r == Some(HttpError(400, EngineUnavailable(engine)))
  {
    StripEmptyIff(text);
    if Strip(text) == [] then Some(HttpError(400, EmptyText))
    else if |text| > MaxTextLength then Some(HttpError(400, TextTooLong))
    else if engine !in Engines(caps) then Some(HttpError(400, EngineUnavailable(engine)))
    else None
  }

  /** The descriptor `POST /tts` queues. A coqui job names a model only when the request gives
      a model or a submodel, preferring the submodel; a neutts job always names the NeuTTS Air
      repository; an empty speaker is dropped; there is never a reference. */
  function TtsDescriptor(req: TtsRequest, id: string): (d: Descriptor)
    ensures d.id == Some(id) && d.text == Some(req.text) && d.language == Some(req.language)
    ensures d.refWav.None?
    ensures d.speaker == if Given(req.speaker) then req.speaker else None
    ensures req.engine == "coqui" ==> (d.model.Some? <==> Given(req.model) || Given(req.submodel))
    ensures req.engine == "coqui" && Given(req.submodel) ==> d.model == req.submodel
    ensures req.engine == "coqui" && !Given(req.submodel) && Given(req.model) ==> d.model == req.model
    ensures req.engine == "neutts" ==> d.model == Some(NeuttsDescriptorModel)
    ensures req.engine != "coqui" && req.engine != "neutts" ==> d.model.None?
    ensures d.model.Some? ==> d.model.value != ""
  {
    var model :=
      if req.engine == "coqui" && (Given(req.model) || Given(req.submodel)) then
        (if Given(req.submodel) then req.submodel else req.model)
      else if req.engine == "neutts" then Some(NeuttsDescriptorModel)
      else None;
    Descriptor(Some(id), Some(req.text), Some(req.language), model,
               if Given(req.speaker) then req.speaker else None, None)
  }

  /** The descriptor `POST /tts_with_audio` queues: it always names the uploaded reference and
      never a speaker; a coqui job names the submodel when one is given and the form's model
      otherwise (even an empty one); a neutts job names the NeuTTS Air repository. */
  function AudioDescriptor(req: AudioRequest, id: string): (d: Descriptor)
    ensures d.id == Some(id) && d.text == Some(req.text) && d.language == Some(req.language)
    ensures d.refWav == Some(InPath(id)) && d.speaker.None?
    ensures req.engine == "coqui" ==> d.model == Some(if Given(req.submodel) then req.submodel.value else req.model)
    ensures req.engine == "neutts" ==> d.model == Some(NeuttsDescriptorModel)
    ensures req.engine != "coqui" && req.engine != "neutts" ==> d.model.None?
  {
    var model :=
      if req.engine == "coqui" then Some(if Given(req.submodel) then req.submodel.value else req.model)
      else if req.engine == "neutts" then Some(NeuttsDescriptorModel)
      else None;
    Descriptor(Some(id), Some(req.text), Some(req.language), model, None, Some(InPath(id)))
  }

  /** The submission phase of `POST /tts` for job id `id`: a rejected request writes nothing,
      an accepted one writes its descriptor into the engine's queue. */
  function SubmitTtsRun(caps: Capabilities, req: TtsRequest, id: string): Run<Option<HttpError>> {
    match Validate(caps, req.text, req.engine)
    case Some(e) => Run([], Some(e))
    case None => Run([Write(QueuePath(req.engine, id), JobJson(TtsDescriptor(req, id)))], None)
  }

  /** The submission phase of `POST /tts_with_audio`: the upload is stored before the
      descriptor that names it is queued. */
  function SubmitAudioRun(caps: Capabilities, req: AudioRequest, id: string): Run<Option<HttpError>> {
    match Validate(caps, req.text, req.engine)
    case Some(e) => Run([], Some(e))
    case None =>
      Run([Write(InPath(id), Binary(req.upload)), Write(QueuePath(req.engine, id), JobJson(AudioDescriptor(req, id)))], None)
  }

  /** An accepted `/tts` request adds exactly one entry to the engine's queue, which that
      engine's worker lists; a rejected one leaves the store as it was. */
  lemma SubmitTtsQueuesJob(caps: Capabilities, req: TtsRequest, id: string, s: Files)
    requires IsJobId(id)
    ensures var r := SubmitTtsRun(caps, req, id);
      && (r.result.Some? ==> Apply(s, r.effects) == s)
      && (r.result.None? ==>
            && Apply(s, r.effects) == s[QueuePath(req.engine, id) := JobJson(TtsDescriptor(req, id))]
            && IsJobFile(req.engine, QueuePath(req.engine, id)))
  {
    QueuePathIsJobFile(req.engine, id);
  }

  /** An accepted `/tts_with_audio` request stores the upload under the path its descriptor
      names, then queues the descriptor; a rejected one leaves the store as it was. */
  lemma SubmitAudioQueuesJob(caps: Capabilities, req: AudioRequest, id: string, s: Files)
    requires IsJobId(id)
    ensures var r := SubmitAudioRun(caps, req, id);
      var t := Apply(s, r.effects);
      var d := AudioDescriptor(req, id);
      && (r.result.Some? ==> t == s)
      && (r.result.None? ==>
            && t == s[InPath(id) := Binary(req.upload)][QueuePath(req.engine, id) := JobJson(d)]
            && IsJobFile(req.engine, QueuePath(req.engine, id))
            && t[QueuePath(req.engine, id)] == JobJson(d)
            && t[d.refWav.value] == Binary(req.upload))
  {
    QueuePathIsJobFile(req.engine, id);
    AreasDisjoint(id, id);
    var r := SubmitAudioRun(caps, req, id);
    if r.result.None? {
      var s1 := Step(s, r.effects[0]);
      assert r.effects[1..] == [r.effects[1]];
      assert [r.effects[1]][1..] == [];
      assert Apply(s, r.effects) == Apply(s1, r.effects[1..]);
      assert Apply(s1, [r.effects[1]]) == Apply(Step(s1, r.effects[1]), []);
    }
  }

  // ---------------------------------------------------------------- waiting

  /** What one poll of `wait_for_job_completion` decides: the success marker wins over the
      failure marker; a failure marker's text is returned stripped, and one that cannot be read
      as text gives `Unknown error`. `None` means the poll found no marker. */
  function MarkerOutcome(s: Files, id: string): Option<(bool, string)> {
    if OkPath(id) in s then Some((true, SuccessText))
    else if ErrPath(id) in s then
      match s[ErrPath(id)]
      case Plain(t) => Some((false, Strip(t)))
      case _ => Some((false, UnreadableMarker))
    else None
  }

  /** `wait_for_job_completion`, where `polls` are the stores the polls see before the timeout. */
  function WaitOutcome(id: string, polls: seq<Files>): (bool, string)
    decreases |polls|
  {
    if polls == [] then (false, TimedOut)
    else
      match MarkerOutcome(polls[0], id)
      case Some(o) => o
      case None => WaitOutcome(id, polls[1..])
  }

  /** The first poll that finds a marker decides the wait. */
  lemma {:induction false} WaitDecidedByFirstMarker(id: string, polls: seq<Files>, k: nat)
    requires k < |polls| && MarkerOutcome(polls[k], id).Some?
    requires forall j :: 0 <= j < k ==> MarkerOutcome(polls[j], id).None?
    ensures WaitOutcome(id, polls) == MarkerOutcome(polls[k], id).value
    decreases k
  {
    if k > 0 {
      assert MarkerOutcome(polls[0], id).None?;
      forall j | 0 <= j < k - 1 ensures MarkerOutcome(polls[1..][j], id).None? {
        assert polls[1..][j] == polls[j + 1];
      }
      WaitDecidedByFirstMarker(id, polls[1..], k - 1);
    }
  }

  /** No poll finds a marker: the wait reports a timeout. */
  lemma {:induction false} WaitTimesOut(id: string, polls: seq<Files>)
    requires forall j :: 0 <= j < |polls| ==> MarkerOutcome(polls[j], id).None?
    ensures WaitOutcome(id, polls) == (false, TimedOut)
    decreases |polls|
  {
    if polls != [] {
      assert MarkerOutcome(polls[0], id).None?;
      forall j | 0 <= j < |polls| - 1 ensures MarkerOutcome(polls[1..][j], id).None? {
        assert polls[1..][j] == polls[j + 1];
      }
      WaitTimesOut(id, polls[1..]);
    }
  }

  /** The wait succeeds exactly when some poll sees the success marker and no earlier poll saw
      any marker. */
  lemma {:induction false} WaitSucceedsIff(id: string, polls: seq<Files>)
    ensures WaitOutcome(id, polls).0 <==>
      exists k :: 0 <= k < |polls| && OkPath(id) in polls[k] && forall j :: 0 <= j < k ==> MarkerOutcome(polls[j], id).None?
    decreases |polls|
  {
    var P := (k: int) => 0 <= k < |polls| && OkPath(id) in polls[k] && forall j :: 0 <= j < k ==> MarkerOutcome(polls[j], id).None?;
    if polls == [] {
    } else if MarkerOutcome(polls[0], id).Some? {
      if OkPath(id) in polls[0] {
        assert P(0);
      } else {
        forall k | 0 <= k < |polls| && OkPath(id) in polls[k] ensures exists j :: 0 <= j < k && MarkerOutcome(polls[j], id).Some? {
          assert k != 0;
          assert MarkerOutcome(polls[0], id).Some?;
        }
      }
    } else {
      var rest := polls[1..];
      WaitSucceedsIff(id, rest);
      if WaitOutcome(id, rest).0 {
        var k :| 0 <= k < |rest| && OkPath(id) in rest[k] && forall j :: 0 <= j < k ==> MarkerOutcome(rest[j], id).None?;
        assert rest[k] == polls[k + 1];
        forall j | 0 <= j < k + 1 ensures MarkerOutcome(polls[j], id).None? {
          if j > 0 { assert polls[j] == rest[j - 1]; }
        }
        assert P(k + 1);
      } else {
        forall k | 0 <= k < |polls| && OkPath(id) in polls[k] ensures exists j :: 0 <= j < k && MarkerOutcome(polls[j], id).Some? {
          assert k > 0 by { assert MarkerOutcome(polls[0], id).None?; }
          assert rest[k - 1] == polls[k];
          var j :| 0 <= j < k - 1 && MarkerOutcome(rest[j], id).Some?;
          assert rest[j] == polls[j + 1];
        }
      }
    }
  }

  /** `wait_for_job_completion`: poll until a marker appears or the polls run out. */
  method WaitForJobCompletion(id: string, polls: seq<Files>) returns (success: bool, message: string)
    ensures (success, message) == WaitOutcome(id, polls)
  {
    var i := 0;
    while i < |polls|
      invariant 0 <= i <= |polls|
      invariant WaitOutcome(id, polls) == WaitOutcome(id, polls[i..])
    {
      var s := polls[i];
      assert polls[i..][0] == s && polls[i..][1..] == polls[i + 1..];
      if OkPath(id) in s {
        return true, SuccessText;
      } else if ErrPath(id) in s {
        match s[ErrPath(id)]
        case Plain(t) => return false, Strip(t);
        case _ => return false, UnreadableMarker;
      }
      i := i + 1;
    }
    return false, TimedOut;
  }

  // ---------------------------------------------------------------- cleanup and reply

  /** `cleanup_job_files` over `paths`: each present file is removed, an absent one skipped. */
  function CleanupEffects(s: Files, paths: seq<string>): seq<Effect>
    decreases |paths|
  {
    if paths == [] then []
    else
      var e := DeleteIfPresent(s, paths[0]);
      e + CleanupEffects(Apply(s, e), paths[1..])
  }

  /** Cleanup removes exactly the listed files and leaves every other file as it was. */
  lemma {:induction false} CleanupRemoves(s: Files, paths: seq<string>)
    ensures Apply(s, CleanupEffects(s, paths)) == s - (set p | p in paths)
    decreases |paths|
  {
    if paths != [] {
      var e := DeleteIfPresent(s, paths[0]);
      var s1 := Apply(s, e);
      DeleteIfPresentApply(s, paths[0]);
      CleanupRemoves(s1, paths[1..]);
      ApplyAppend(s, e, CleanupEffects(s1, paths[1..]));
      ElementsOfCons(paths);
      MinusTwice(s, paths[0], set p | p in paths[1..]);
    } else {
      assert (set p | p in paths) == {};
      assert s - {} == s;
    }
  }

  lemma ElementsOfCons(paths: seq<string>)
    requires paths != []
    ensures (set p | p in paths) == {paths[0]} + (set p | p in paths[1..])
  {
    forall p | p in paths ensures p == paths[0] || p in paths[1..] {
      var i :| 0 <= i < |paths| && paths[i] == p;
      if i > 0 { assert paths[1..][i - 1] == p; }
    }
  }

  /** After a job's cleanup its four files are gone and nothing else changed; in particular a
      queue entry under the same id stays. */
  lemma CleanupJob(s: Files, id: string)
    ensures var t := Apply(s, CleanupEffects(s, JobScoped(id)));
      && t == s - {InPath(id), OutPath(id), OkPath(id), ErrPath(id)}
      && forall engine :: Lookup(t, QueuePath(engine, id)) == Lookup(s, QueuePath(engine, id))
  {
    CleanupRemoves(s, JobScoped(id));
    assert (set p | p in JobScoped(id)) == {InPath(id), OutPath(id), OkPath(id), ErrPath(id)};
    AreasDisjoint(id, id);
  }

  /** What remains of a cleanup once the first `i` paths were handled and the store became
      `cur`, and what has been done so far. */
  ghost predicate CleanupAt(s0: Files, j0: seq<Effect>, paths: seq<string>, i: nat, cur: Files, journal: seq<Effect>) {
    && i <= |paths|
    && Apply(s0, CleanupEffects(s0, paths)) == Apply(cur, CleanupEffects(cur, paths[i..]))
    && j0 + CleanupEffects(s0, paths) == journal + CleanupEffects(cur, paths[i..])
  }

  lemma CleanupAdvance(s0: Files, j0: seq<Effect>, paths: seq<string>, i: nat, cur: Files, journal: seq<Effect>)
    requires CleanupAt(s0, j0, paths, i, cur, journal) && i < |paths|
    ensures var e := DeleteIfPresent(cur, paths[i]);
      CleanupAt(s0, j0, paths, i + 1, Apply(cur, e), journal + e)
  {
    var e := DeleteIfPresent(cur, paths[i]);
    var rest := CleanupEffects(Apply(cur, e), paths[i + 1..]);
    assert paths[i..][0] == paths[i] && paths[i..][1..] == paths[i + 1..];
    assert CleanupEffects(cur, paths[i..]) == e + rest;
    ApplyAppend(cur, e, rest);
    ConcatAssoc(journal, e, rest);
  }

  /** Removing one file if it exists. */
  method RemoveIfPresent(fs: FileSystem, p: string)
    modifies fs
    ensures fs.files == Apply(old(fs.files), DeleteIfPresent(old(fs.files), p))
    ensures fs.journal == old(fs.journal) + DeleteIfPresent(old(fs.files), p)
  {
    if fs.Exists(p) {
      var _ := fs.Unlink(p);
    } else {
      assert DeleteIfPresent(fs.files, p) == [];
    }
  }

  /** `cleanup_job_files`. */
  method CleanupJobFiles(fs: FileSystem, id: string)
    modifies fs
    ensures fs.files == Apply(old(fs.files), CleanupEffects(old(fs.files), JobScoped(id)))
    ensures fs.journal == old(fs.journal) + CleanupEffects(old(fs.files), JobScoped(id))
  {
    var paths := JobScoped(id);
    ghost var s0 := fs.files;
    ghost var j0 := fs.journal;
    assert paths[0..] == paths;
    assert CleanupAt(s0, j0, paths, 0, fs.files, fs.journal);
    var i := 0;
    while i < |paths|
      invariant 0 <= i <= |paths|
      invariant CleanupAt(s0, j0, paths, i, fs.files, fs.journal)
    {
      CleanupAdvance(s0, j0, paths, i, fs.files, fs.journal);
      RemoveIfPresent(fs, paths[i]);
      i := i + 1;
    }
    assert paths[|paths|..] == [];
  }

  /** What a request returns: the artifact's content, or an error response. */
  datatype Reply = Delivered(audio: File) | Refused(error: HttpError)

  /** The reply phase of both endpoints once the wait returned (`success`, `message`). The
      job's files are removed on every path. */
  function CollectRun(s: Files, id: string, success: bool, message: string): Run<Reply> {
    var cleanup := CleanupEffects(s, JobScoped(id));
    if !success then Run(cleanup, Refused(HttpError(500, SynthesisFailedPrefix + message)))
    else if OutPath(id) !in s then Run(cleanup, Refused(HttpError(500, OutputMissing)))
    else Run(cleanup, Delivered(s[OutPath(id)]))
  }

  /** The artifact is delivered exactly when the wait succeeded and the output exists, and then
      it is the output's content; every other reply is a 500; the job's files are gone after
      every reply. */
  lemma CollectOutcome(s: Files, id: string, success: bool, message: string)
    ensures var r := CollectRun(s, id, success, message);
      && Apply(s, r.effects) == s - {InPath(id), OutPath(id), OkPath(id), ErrPath(id)}
      && (r.result.Delivered? <==> success && OutPath(id) in s)
      && (r.result.Delivered? ==> r.result.audio == s[OutPath(id)])
      && (r.result.Refused? ==> r.result.error.status == 500)
      && (!success ==> r.result.error.detail == SynthesisFailedPrefix + message)
  {
    CleanupJob(s, id);
  }

  /** The reply phase: read the output, remove the job's files, reply. */
  method Collect(fs: FileSystem, id: string, success: bool, message: string) returns (reply: Reply)
    modifies fs
    ensures var run := CollectRun(old(fs.files), id, success, message);
      reply == run.result && fs.files == Apply(old(fs.files), run.effects)
      && fs.journal == old(fs.journal) + run.effects
  {
    if !success {
      CleanupJobFiles(fs, id);
      return Refused(HttpError(500, SynthesisFailedPrefix + message));
    }
    var out := fs.ReadFile(OutPath(id));
    if out.None? {
      CleanupJobFiles(fs, id);
      return Refused(HttpError(500, OutputMissing));
    }
    CleanupJobFiles(fs, id);
    return Delivered(out.value);
  }

  // ---------------------------------------------------------------- the model listing

  /** One element of `GET /api/models`. */
  datatype ModelRecord = ModelRecord(
    engine: string,
    model: string,
    languages: seq<string>,
    speakers: seq<string>,
    supportsCustomVoice: bool,
    notes: string)

  function RecordOf(engine: string, e: ModelEntry): ModelRecord {
    ModelRecord(engine, e.info.name, e.info.languages, e.info.speakers, e.info.supportsCustomVoice, e.info.notes.GetOr(""))
  }

  /** `capabilities.get("models", {})`. */
  function ModelsOf(c: Capability): seq<ModelEntry> {
    c.models.GetOr([])
  }

  function EngineRecords(engine: string, ms: seq<ModelEntry>): seq<ModelRecord> {
    seq(|ms|, j requires 0 <= j < |ms| => RecordOf(engine, ms[j]))
  }

  /** The listing `get_models` builds: engines in insertion order, each engine's models in
      its record's order. */
  function Listing(caps: Capabilities): seq<ModelRecord>
    decreases |caps|
  {
    if caps == [] then [] else EngineRecords(caps[0].engine, ModelsOf(caps[0])) + Listing(caps[1..])
  }

  /** How many models the engines' records hold together. */
  function ModelCount(caps: Capabilities): nat
    decreases |caps|
  {
    if caps == [] then 0 else |ModelsOf(caps[0])| + ModelCount(caps[1..])
  }

  /** The listing has one record per published model: every model of every engine appears,
      with its engine, and nothing else does. */
  lemma {:induction false} ListingComplete(caps: Capabilities)
    ensures |Listing(caps)| == ModelCount(caps)
    ensures forall i, j :: 0 <= i < |caps| && 0 <= j < |ModelsOf(caps[i])| ==>
      RecordOf(caps[i].engine, ModelsOf(caps[i])[j]) in Listing(caps)
    ensures forall r :: r in Listing(caps) ==> r.engine in Engines(caps)
    decreases |caps|
  {
    if caps != [] {
      var head := EngineRecords(caps[0].engine, ModelsOf(caps[0]));
      ListingComplete(caps[1..]);
      forall i, j | 0 <= i < |caps| && 0 <= j < |ModelsOf(caps[i])|
        ensures RecordOf(caps[i].engine, ModelsOf(caps[i])[j]) in Listing(caps)
      {
        if i == 0 {
          assert head[j] == RecordOf(caps[i].engine, ModelsOf(caps[i])[j]);
        } else {
          assert caps[1..][i - 1] == caps[i];
        }
      }
      forall r | r in Listing(caps) ensures r.engine in Engines(caps) {
        if r in head {
          var j :| 0 <= j < |head| && head[j] == r;
        }
      }
    }
  }

  // ---------------------------------------------------------------- the gateway's state

  class Gateway {
    /** `ENABLED_WORKERS`. */
    const enabled: seq<string>
    /** `worker_capabilities`. */
    var capabilities: Capabilities

    constructor (enabled: seq<string>)
      ensures this.enabled == enabled && capabilities == []
    {
      this.enabled := enabled;
      capabilities := [];
    }

    /** The readiness loop of one poll. */
    method CheckReady(s: Files) returns (ready: bool)
      ensures ready == AllReady(enabled, s)
    {
      ready := true;
      var i := 0;
      while i < |enabled|
        invariant 0 <= i <= |enabled|
        invariant forall k :: 0 <= k < i && InfoFile(enabled[k]).Some? ==> InfoFile(enabled[k]).value in s
      {
        var file := InfoFile(enabled[i]);
        if file.Some? && file.value !in s {
          ready := false;
          break;
        }
        i := i + 1;
      }
    }

    /** The loading loop of a ready poll. */
    method LoadWorkerInfo(s: Files) returns (ok: bool)
      modifies this
      ensures (capabilities, ok) == LoadPass(old(capabilities), enabled, s)
    {
      var i := 0;
      assert enabled[0..] == enabled;
      while i < |enabled|
        invariant 0 <= i <= |enabled|
        invariant LoadPass(old(capabilities), enabled, s) == LoadPass(capabilities, enabled[i..], s)
      {
        assert enabled[i..][0] == enabled[i] && enabled[i..][1..] == enabled[i + 1..];
        var file := InfoFile(enabled[i]);
        if file.Some? {
          if file.value !in s {
            return false;
          }
          var m := LoadedModels(s[file.value]);
          if m.None? {
            return false;
          }
          capabilities := Assign(capabilities, enabled[i], m.value);
        }
        i := i + 1;
      }
      assert enabled[|enabled|..] == [];
      ok := true;
    }

    /** `startup_event`. */
    method StartupEvent(polls: seq<Files>)
      modifies this
      ensures capabilities == Startup(old(capabilities), enabled, polls)
    {
      var i := 0;
      while i < |polls|
        invariant 0 <= i <= |polls|
        invariant capabilities == old(capabilities)
        invariant Startup(old(capabilities), enabled, polls) == Startup(capabilities, enabled, polls[i..])
      {
        assert polls[i..][0] == polls[i] && polls[i..][1..] == polls[i + 1..];
        var ready := CheckReady(polls[i]);
        if ready {
          var _ := LoadWorkerInfo(polls[i]);
          return;
        }
        i := i + 1;
      }
    }

    /** `get_models`. */
    method GetModels() returns (models: seq<ModelRecord>)
      ensures models == Listing(capabilities)
    {
      models := [];
      var i := 0;
      while i < |capabilities|
        invariant 0 <= i <= |capabilities|
        invariant Listing(capabilities) == models + Listing(capabilities[i..])
      {
        var engine := capabilities[i].engine;
        var ms := ModelsOf(capabilities[i]);
        ghost var before := models;
        ghost var records := EngineRecords(engine, ms);
        assert Listing(capabilities[i..]) == records + Listing(capabilities[i + 1..]) by {
          assert capabilities[i..][0] == capabilities[i] && capabilities[i..][1..] == capabilities[i + 1..];
        }
        var j := 0;
        while j < |ms|
          invariant 0 <= j <= |ms|
          invariant models == before + records[..j]
        {
          assert records[..j + 1] == records[..j] + [RecordOf(engine, ms[j])];
          ConcatAssoc(before, records[..j], [RecordOf(engine, ms[j])]);
          models := models + [RecordOf(engine, ms[j])];
          j := j + 1;
        }
        assert records[..j] == records;
        ConcatAssoc(before, records, Listing(capabilities[i + 1..]));
        i := i + 1;
      }
      assert capabilities[i..] == [];
    }

    /** The submission phase of `POST /tts`. */
    method SubmitTts(fs: FileSystem, req: TtsRequest, id: string) returns (rejected: Option<HttpError>)
      modifies fs
      ensures var run := SubmitTtsRun(capabilities, req, id);
        rejected == run.result && fs.files == Apply(old(fs.files), run.effects)
        && fs.journal == old(fs.journal) + run.effects
    {
      rejected := Validate(capabilities, req.text, req.engine);
      if rejected.None? {
        fs.WriteFile(QueuePath(req.engine, id), JobJson(TtsDescriptor(req, id)));
      }
    }

    /** The submission phase of `POST /tts_with_audio`. */
    method SubmitWithAudio(fs: FileSystem, req: AudioRequest, id: string) returns (rejected: Option<HttpError>)
      modifies fs
      ensures var run := SubmitAudioRun(capabilities, req, id);
        rejected == run.result && fs.files == Apply(old(fs.files), run.effects)
        && fs.journal == old(fs.journal) + run.effects
    {
      rejected := Validate(capabilities, req.text, req.engine);
      if rejected.None? {
        ghost var s0 := fs.files;
        fs.WriteFile(InPath(id), Binary(req.upload));
        fs.WriteFile(QueuePath(req.engine, id), JobJson(AudioDescriptor(req, id)));
        var es := [Write(InPath(id), Binary(req.upload)), Write(QueuePath(req.engine, id), JobJson(AudioDescriptor(req, id)))];
        ApplyAppend(s0, es[..1], es[1..]);
        assert es[..1] + es[1..] == es;
      }
    }
  }
}
