/**
 * The Coqui TTS service shared by the XTTS and YourTTS workers: loading a model and its
 * built-in speakers, the supported languages, synthesis by speaker (with its guards and its
 * one retry) and by reference audio, and reading the temporary output back. The `TTS` object
 * and the audio conversions are opaque; their outcomes are parameters.
 */
module CoquiService {
  import opened Wrappers
  import opened Text
  import opened Store

  datatype ServiceKind = Xtts | YourTts {
    function ModelName(): string {
      match this
      case Xtts => "tts_models/multilingual/multi-dataset/xtts_v2"
      case YourTts => "tts_models/multilingual/multi-dataset/your_tts"
    }

    function ServiceName(): string {
      match this
      case Xtts => "XTTS"
      case YourTts => "YourTTS"
    }

    /** `f"/tmp/{service_name.lower()}_out_{uuid}.wav"`. */
    function OutTempPath(uuid: string): string {
      "/tmp/" + Lower(ServiceName()) + "_out_" + uuid + ".wav"
    }
  }

  /** `f"/tmp/coqui_ref_{uuid}.wav"`: where the mono 16 kHz copy of a reference is written. */
  function RefTempPath(uuid: string): string {
    "/tmp/coqui_ref_" + uuid + ".wav"
  }

  /** One `tts_to_file` call: it wrote these bytes to the requested path, or it raised. */
  datatype TtsCall = Wrote(audio: seq<Byte>) | Raised(message: string)

  /** A loaded `TTS` object. `speakers` and `languages` are `None` when the attribute is
      missing; the calls take (text, speaker, language), (text, language) and
      (text, reference audio, language). */
  datatype LoadedModel = LoadedModel(
    speakers: Option<seq<string>>,
    languages: Option<seq<string>>,
    withSpeaker: (string, string, string) -> TtsCall,
    withoutSpeaker: (string, string) -> TtsCall,
    withReference: (string, seq<Byte>, string) -> TtsCall)

  /** The audio conversions: soundfile's read and 16-bit re-encode of a file (given its content,
      `None` when it is missing), and `_load_to_mono16k_any`. A `Failure` is the exception. */
  datatype AudioCodec = AudioCodec(
    reencode: Option<File> -> Result<seq<Byte>, string>,
    toMono16k: Option<File> -> Result<seq<Byte>, string>)

  /** The fields of a service object. */
  datatype ServiceState = ServiceState(kind: ServiceKind, tts: Option<LoadedModel>, speakers: seq<string>) {
    /** `hasattr(self.tts, 'languages') and self.tts.languages`. */
    predicate ModelHasLanguages() {
      tts.Some? && tts.value.languages.Some? && |tts.value.languages.value| > 0
    }

    /** `get_supported_languages`: YourTTS overrides it with a fixed list; otherwise the model's
        list when it has a non-empty one, else `['en']`. */
    function SupportedLanguages(): (r: seq<string>)
      ensures r != []
      ensures kind == YourTts ==> r == ["en", "fr-fr", "pt-br"]
      ensures kind == Xtts && ModelHasLanguages() ==> r == tts.value.languages.value
      ensures kind == Xtts && !ModelHasLanguages() ==> r == ["en"]
    {
      if kind == YourTts then ["en", "fr-fr", "pt-br"]
      else if ModelHasLanguages() then tts.value.languages.value
      else ["en"]
    }
  }

  function InitialState(kind: ServiceKind): ServiceState {
    ServiceState(kind, None, [])
  }

  /** `_load_builtin_speakers`: the model's speakers when it exposes a non-empty list. */
  function BuiltinSpeakers(current: seq<string>, m: LoadedModel): seq<string> {
    if m.speakers.Some? && |m.speakers.value| > 0 then m.speakers.value else current
  }

  /** The speaker list changes only to a non-empty list the model exposes, and reloading the same
      model changes nothing more. */
  lemma BuiltinSpeakersReplaceOnlyWhenExposed(current: seq<string>, m: LoadedModel)
    ensures var r := BuiltinSpeakers(current, m);
      (r == current || (m.speakers == Some(r) && r != []))
      && (r != current ==> r != [])
      && BuiltinSpeakers(r, m) == r
      && (current == [] ==> (r != [] <==> m.speakers.Some? && m.speakers.value != []))
  {
  }

  const NoSpeakers := "No speakers available. Please check if models are loaded."
  /** What `list(self.speakers.keys())` raises while formatting the unknown-speaker message. */
  const ListHasNoKeys := "'list' object has no attribute 'keys'"
  const NoTtsLoaded := "'NoneType' object has no attribute 'tts_to_file'"

  /** `_read_and_cleanup_audio_file`: re-encode the file, and remove it whatever happens. */
  function ReadAndCleanupRun(codec: AudioCodec, s: Files, path: string): Run<Result<seq<Byte>, string>> {
    Run(DeleteIfPresent(s, path), codec.reencode(Lookup(s, path)))
  }

  /** The temporary output file is gone afterwards and nothing else changed, whether
      re-encoding it succeeded or not. */
  lemma ReadAndCleanupRemovesTemp(codec: AudioCodec, s: Files, path: string)
    ensures Apply(s, ReadAndCleanupRun(codec, s, path).effects) == s - {path}
    ensures path !in Apply(s, ReadAndCleanupRun(codec, s, path).effects)
  {
    if path !in s { assert s - {path} == s; }
  }

  /** The outcome of the `tts_to_file` call with the speaker, and of the retry without it. */
  function SpeakerAttempts(m: LoadedModel, text: string, speaker: string, language: string): TtsCall {
    match m.withSpeaker(text, speaker, language)
    case Raised(_) => m.withoutSpeaker(text, language)
    case Wrote(b) => Wrote(b)
  }

  /** `synthesize_by_speaker`. */
  function BySpeakerRun(st: ServiceState, codec: AudioCodec, s: Files,
                        text: string, speaker: string, language: string, uuid: string)
    : (r: Run<Result<seq<Byte>, string>>)
    ensures st.speakers == [] ==> r == Run([], Failure(NoSpeakers))
    ensures st.speakers != [] && speaker !in st.speakers ==> r == Run([], Failure(ListHasNoKeys))
  {
    if |st.speakers| == 0 then Run([], Failure(NoSpeakers))
    else if speaker !in st.speakers then Run([], Failure(ListHasNoKeys))
    else match st.tts
      case None => Run([], Failure(NoTtsLoaded))
      case Some(m) =>
        match SpeakerAttempts(m, text, speaker, language)
        case Raised(e) => Run([], Failure(e))
        case Wrote(b) =>
          var out := st.kind.OutTempPath(uuid);
          var w := [Write(out, Binary(b))];
          var c := ReadAndCleanupRun(codec, Apply(s, w), out);
          Run(w + c.effects, c.result)
  }

  /** With a known speaker, the speaker call is tried first; only when it raises is the call
      repeated once without the speaker, and only the second call's error surfaces. */
  lemma BySpeakerRetriesOnce(st: ServiceState, codec: AudioCodec, s: Files,
                             text: string, speaker: string, language: string, uuid: string)
    requires speaker in st.speakers && st.tts.Some?
    ensures var m, r := st.tts.value, BySpeakerRun(st, codec, s, text, speaker, language, uuid);
      && (m.withSpeaker(text, speaker, language).Wrote? ==>
            r.result == codec.reencode(Some(Binary(m.withSpeaker(text, speaker, language).audio))))
      && (m.withSpeaker(text, speaker, language).Raised? && m.withoutSpeaker(text, language).Wrote? ==>
            r.result == codec.reencode(Some(Binary(m.withoutSpeaker(text, language).audio))))
      && (m.withSpeaker(text, speaker, language).Raised? && m.withoutSpeaker(text, language).Raised? ==>
            r == Run([], Failure(m.withoutSpeaker(text, language).message)))
  {
    var out := st.kind.OutTempPath(uuid);
    var call := SpeakerAttempts(st.tts.value, text, speaker, language);
    if call.Wrote? {
      assert Lookup(Apply(s, [Write(out, Binary(call.audio))]), out) == Some(Binary(call.audio));
    }
  }

  /** Synthesis by speaker leaves the store as it found it: the temporary output is removed. */
  lemma BySpeakerLeavesStore(st: ServiceState, codec: AudioCodec, s: Files,
                             text: string, speaker: string, language: string, uuid: string)
    requires st.kind.OutTempPath(uuid) !in s
    ensures Apply(s, BySpeakerRun(st, codec, s, text, speaker, language, uuid).effects) == s
  {
    if |st.speakers| > 0 && speaker in st.speakers && st.tts.Some? {
      var call := SpeakerAttempts(st.tts.value, text, speaker, language);
      if call.Wrote? {
        var out := st.kind.OutTempPath(uuid);
        var w := [Write(out, Binary(call.audio))];
        var c := ReadAndCleanupRun(codec, Apply(s, w), out);
        assert BySpeakerRun(st, codec, s, text, speaker, language, uuid).effects == w + c.effects;
        ApplyAppend(s, w, c.effects);
        ReadAndCleanupRemovesTemp(codec, Apply(s, w), out);
        assert Apply(s, w) - {out} == s;
      }
    }
  }

  /** `synthesize_by_audio`: convert the reference to a mono 16 kHz copy, synthesize with it,
      and read the output back. The copy is never removed. */
  function ByAudioRun(st: ServiceState, codec: AudioCodec, s: Files,
                      text: string, refWav: string, language: string, outUuid: string, refUuid: string)
    : Run<Result<seq<Byte>, string>>
  {
    match codec.toMono16k(Lookup(s, refWav))
    case Failure(e) => Run([], Failure(e))
    case Success(ref) =>
      var w := [Write(RefTempPath(refUuid), Binary(ref))];
      match st.tts
      case None => Run(w, Failure(NoTtsLoaded))
      case Some(m) =>
        match m.withReference(text, ref, language)
        case Raised(e) => Run(w, Failure(e))
        case Wrote(b) =>
          var out := st.kind.OutTempPath(outUuid);
          var w2 := w + [Write(out, Binary(b))];
          var c := ReadAndCleanupRun(codec, Apply(s, w2), out);
          Run(w2 + c.effects, c.result)
  }

  lemma TempPathsDiffer(kind: ServiceKind, outUuid: string, refUuid: string)
    ensures kind.OutTempPath(outUuid) != RefTempPath(refUuid)
  {
    assert RefTempPath(refUuid)[5] == 'c';
    assert Lower(kind.ServiceName())[0] == LowerChar(kind.ServiceName()[0]);
    assert kind.OutTempPath(outUuid)[5] == Lower(kind.ServiceName())[0];
  }

  /** Synthesis by audio removes its temporary output but leaves the converted reference
      behind once the conversion succeeded; it touches nothing else. */
  lemma ByAudioLeaksReference(st: ServiceState, codec: AudioCodec, s: Files,
                              text: string, refWav: string, language: string, outUuid: string, refUuid: string)
    requires st.kind.OutTempPath(outUuid) !in s
    ensures var r := ByAudioRun(st, codec, s, text, refWav, language, outUuid, refUuid);
      match codec.toMono16k(Lookup(s, refWav))
      case Failure(_) => r.effects == []
      case Success(ref) => Apply(s, r.effects) == s[RefTempPath(refUuid) := Binary(ref)]
  {
    var r := ByAudioRun(st, codec, s, text, refWav, language, outUuid, refUuid);
    if codec.toMono16k(Lookup(s, refWav)).Success? && st.tts.Some? {
      var ref := codec.toMono16k(Lookup(s, refWav)).value;
      var m := st.tts.value;
      if m.withReference(text, ref, language).Wrote? {
        var out := st.kind.OutTempPath(outUuid);
        var rp := RefTempPath(refUuid);
        var w2 := [Write(rp, Binary(ref)), Write(out, Binary(m.withReference(text, ref, language).audio))];
        var c := ReadAndCleanupRun(codec, Apply(s, w2), out);
        ApplyAppend(s, w2, c.effects);
        ReadAndCleanupRemovesTemp(codec, Apply(s, w2), out);
        TempPathsDiffer(st.kind, outUuid, refUuid);
        ApplyAppend(s, [w2[0]], [w2[1]]);
        assert w2 == [w2[0]] + [w2[1]];
        assert Apply(s, w2) == s[rp := Binary(ref)][out := Binary(m.withReference(text, ref, language).audio)];
        assert Apply(s, w2) - {out} == s[rp := Binary(ref)];
      }
    }
  }

  /** A Coqui service object. */
  class CoquiTtsService {
    const kind: ServiceKind
    var tts: Option<LoadedModel>
    var speakers: seq<string>

    constructor (kind: ServiceKind)
      ensures this.kind == kind && tts == None && speakers == []
    {
      this.kind := kind;
      tts := None;
      speakers := [];
    }

    function State(): ServiceState
      reads this
    {
      ServiceState(kind, tts, speakers)
    }

    /** `load_models`: `load` is what constructing `TTS(model_name=...)` gave. */
    method LoadModels(load: Result<LoadedModel, string>) returns (err: Option<string>)
      modifies this
      ensures load.Failure? ==> err == Some(load.error) && tts == old(tts) && speakers == old(speakers)
      ensures load.Success? ==> err == None && tts == Some(load.value)
      ensures load.Success? ==> speakers == BuiltinSpeakers(old(speakers), load.value)
    {
      match load
      case Failure(e) =>
        err := Some(e);
      case Success(m) =>
        tts := Some(m);
        LoadBuiltinSpeakers();
        err := None;
    }

    /** `_load_builtin_speakers`. */
    method LoadBuiltinSpeakers()
      requires tts.Some?
      modifies this
      ensures tts == old(tts) && speakers == BuiltinSpeakers(old(speakers), tts.value)
    {
      var m := tts.value;
      if m.speakers.Some? && |m.speakers.value| > 0 {
        speakers := m.speakers.value;
      }
    }

    /** `_read_and_cleanup_audio_file`. */
    method ReadAndCleanupAudioFile(fs: FileSystem, codec: AudioCodec, path: string)
      returns (r: Result<seq<Byte>, string>)
      modifies fs
      ensures var run := ReadAndCleanupRun(codec, old(fs.files), path);
        r == run.result && fs.files == Apply(old(fs.files), run.effects)
        && fs.journal == old(fs.journal) + run.effects
    {
      var f := fs.ReadFile(path);
      r := codec.reencode(f);
      if fs.Exists(path) {
        var _ := fs.Unlink(path);
      }
    }

    /** `synthesize_by_speaker`. */
    method SynthesizeBySpeaker(fs: FileSystem, codec: AudioCodec,
                               text: string, speaker: string, language: string, uuid: string)
      returns (r: Result<seq<Byte>, string>)
      modifies fs
      ensures var run := BySpeakerRun(State(), codec, old(fs.files), text, speaker, language, uuid);
        r == run.result && fs.files == Apply(old(fs.files), run.effects)
        && fs.journal == old(fs.journal) + run.effects
    {
      if |speakers| == 0 {
        return Failure(NoSpeakers);
      }
      if speaker !in speakers {
        return Failure(ListHasNoKeys);
      }
      if tts.None? {
        return Failure(NoTtsLoaded);
      }
      var m := tts.value;
      var call := m.withSpeaker(text, speaker, language);
      if call.Raised? {
        call := m.withoutSpeaker(text, language);
      }
      if call.Raised? {
        return Failure(call.message);
      }
      var out := kind.OutTempPath(uuid);
      fs.WriteFile(out, Binary(call.audio));
      ghost var written := fs.files;
      r := ReadAndCleanupAudioFile(fs, codec, out);
      ApplyAppend(old(fs.files), [Write(out, Binary(call.audio))], ReadAndCleanupRun(codec, written, out).effects);
    }

    /** `synthesize_by_audio`. */
    method SynthesizeByAudio(fs: FileSystem, codec: AudioCodec, text: string, refWav: string,
                             language: string, outUuid: string, refUuid: string)
      returns (r: Result<seq<Byte>, string>)
      modifies fs
      ensures var run := ByAudioRun(State(), codec, old(fs.files), text, refWav, language, outUuid, refUuid);
        r == run.result && fs.files == Apply(old(fs.files), run.effects)
        && fs.journal == old(fs.journal) + run.effects
    {
      var source := fs.ReadFile(refWav);
      var converted := codec.toMono16k(source);
      if converted.Failure? {
        return Failure(converted.error);
      }
      var refPath := RefTempPath(refUuid);
      fs.WriteFile(refPath, Binary(converted.value));
      if tts.None? {
        return Failure(NoTtsLoaded);
      }
      var call := tts.value.withReference(text, converted.value, language);
      if call.Raised? {
        return Failure(call.message);
      }
      var out := kind.OutTempPath(outUuid);
      fs.WriteFile(out, Binary(call.audio));
      ghost var written := fs.files;
      ghost var w2 := [Write(refPath, Binary(converted.value)), Write(out, Binary(call.audio))];
      assert written == Apply(old(fs.files), w2);
      r := ReadAndCleanupAudioFile(fs, codec, out);
      ApplyAppend(old(fs.files), w2, ReadAndCleanupRun(codec, written, out).effects);
    }
  }
}
