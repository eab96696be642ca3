/**
 * The NeuTTS service the NeuTTS worker drives: it loads the GGUF NeuTTS Air backbone and
 * synthesizes speech from a reference recording. The models and audio libraries are opaque.
 */
module NeuttsService {
  import opened Wrappers
  import opened Store
  import opened NeuTtsAir

  /** `get_model_name`: the quantized GGUF backbone. */
  const NeuttsModelName := ServiceBackboneRepo

  /** `get_supported_languages`. */
  const NeuttsLanguages := ["en"]

  /** What reaching `self.tts.encode_reference` raises before a model was loaded. */
  const NoTtsLoaded := "'NoneType' object has no attribute 'encode_reference'"

  /** `synthesize_by_audio`: encode the reference, run the backbone, render the ids as WAV.
      `backbone` is the loaded model, `None` before `load_models` succeeded. */
  function SynthesisRun(backbone: Option<Backbone>, tools: AudioTools, s: Files, text: string, path: string)
    : Run<Result<seq<Byte>, string>>
  {
    match backbone
    case None => Run([], Failure(NoTtsLoaded))
    case Some(b) =>
      var enc := EncodeReferenceRun(tools, s, path);
      match enc.result
      case Failure(e) => Run(enc.effects, Failure(e))
      case Success(codes) =>
        match Inference(b, text, codes)
        case Failure(e) => Run(enc.effects, Failure(e))
        case Success(ids) => Run(enc.effects, Success(tools.renderWav(ids)))
  }

  /** Synthesis with a loaded backbone. When the reference decodes, the only file effect is the
      exported first 10 s written as the converted copy, and the backbone is given the codes of
      that copy; otherwise nothing is written and the original file is encoded. On success the
      audio is the rendering of exactly the ids the backbone produced. */
  lemma SynthesisRendersInference(b: Backbone, tools: AudioTools, s: Files, text: string, path: string)
    ensures var r := SynthesisRun(Some(b), tools, s, text, path);
      var source := match tools.decodeClip(Lookup(s, path))
        case Success(clip) => Some(Binary(tools.exportWav(TruncateReference(clip))))
        case Failure(_) => Lookup(s, path);
      var codes := tools.encodeCodes(source);
      && (tools.decodeClip(Lookup(s, path)).Success? ==> r.effects == [Write(ConvertedPath(path), source.value)])
      && (tools.decodeClip(Lookup(s, path)).Failure? ==> r.effects == [])
      && (r.result.Success? <==> codes.Success? && Inference(b, text, codes.value).Success?)
      && (r.result.Success? ==> r.result.value == tools.renderWav(Inference(b, text, codes.value).value))
  {
    EncodeReferenceUsesTruncatedClip(tools, s, path);
  }

  class NeuTtsService {
    var tts: NeuTtsAirModel?
    var speakers: seq<string>

    constructor ()
      ensures tts == null && speakers == []
    {
      tts := null;
      speakers := [];
    }

    /** The loaded backbone, if any. */
    function Current(): Option<Backbone>
      reads this, tts
    {
      if tts == null then None else Some(tts.Loaded())
    }

    /** `load_models`: `load` gives the opaque models, or the exception raised while importing or
        loading them. A loaded service always runs the quantized (GGUF) backbone. */
    method LoadModels(load: Result<Models, string>) returns (err: Option<string>)
      modifies this
      ensures load.Failure? ==> err == Some(load.error) && tts == old(tts)
      ensures load.Success? ==> err == None && tts != null && fresh(tts)
      ensures load.Success? ==> tts.backboneRepo == NeuttsModelName && tts.Loaded() == NeuTtsAir.Backbone(true, load.value)
      ensures speakers == old(speakers)
    {
      match load
      case Failure(e) =>
        err := Some(e);
      case Success(models) =>
        ServiceBackboneIsGguf();
        tts := new NeuTtsAirModel(NeuttsModelName, models);
        err := None;
    }

    /** `synthesize_by_audio`. */
    method SynthesizeByAudio(fs: FileSystem, tools: AudioTools, text: string, path: string)
      returns (r: Result<seq<Byte>, string>)
      modifies fs
      ensures var run := SynthesisRun(Current(), tools, old(fs.files), text, path);
        r == run.result && fs.files == Apply(old(fs.files), run.effects)
        && fs.journal == old(fs.journal) + run.effects
    {
      if tts == null {
        return Failure(NoTtsLoaded);
      }
      var codes := tts.EncodeReference(fs, tools, path);
      if codes.Failure? {
        return Failure(codes.error);
      }
      var ids := Inference(tts.Loaded(), text, codes.value);
      if ids.Failure? {
        return Failure(ids.error);
      }
      return Success(tools.renderWav(ids.value));
    }
  }
}
