/**
 * The prompt and token helpers of the NeuTTS Air backend: the `<|speech_N|>` codes string and
 * its parsing, the chat-template splice over token ids, phoneme normalisation, the GGML
 * prompt, the reference-audio rules and the choice between the GGUF and the transformer
 * backbone. The phonemizer, the tokenizer, the language models and the codec are opaque.
 */
module NeuTtsAir {
  import opened Wrappers
  import opened Text
  import opened Protocol
  import opened Store

  const MaxContext := 2048
  /** `MAX_CONTEXT - 512`: above this many prompt ids a warning is printed. */
  const PromptWarnLength := MaxContext - 512

  // ---------------------------------------------------------------- speech tokens

  const SpeechOpen := "<|speech_"
  const SpeechClose := "|>"

  /** `f"<|speech_{n}|>"`. */
  function SpeechToken(n: nat): string {
    SpeechOpen + Decimal(n) + SpeechClose
  }

  /** `"".join([f"<|speech_{i}|>" for i in codes])`. */
  function CodesString(codes: seq<nat>): string {
    if codes == [] then [] else SpeechToken(codes[0]) + CodesString(codes[1..])
  }

  /** A match of `<\|speech_(\d+)\|>` at the start of `s`: the integer and the match length. */
  function MatchToken(s: string): (m: Option<(nat, nat)>)
    ensures m.Some? ==> 0 < m.value.1 <= |s|
  {
    if !StartsWith(s, SpeechOpen) then None
    else
      var rest := s[|SpeechOpen|..];
      var d := DigitRun(rest);
      if |d| > 0 && StartsWith(rest[|d|..], SpeechClose)
      then Some((DigitsValue(d), |SpeechOpen| + |d| + |SpeechClose|))
      else None
  }

  /** `[int(n) for n in re.findall(r"<\|speech_(\d+)\|>", s)]`: matches are taken left to
      right and do not overlap. */
  function FindSpeechIds(s: string): seq<nat>
    decreases |s|
  {
    if s == [] then []
    else match MatchToken(s)
      case Some((v, len)) => [v] + FindSpeechIds(s[len..])
      case None => FindSpeechIds(s[1..])
  }

  const NoSpeechTokens := "No valid speech tokens found in the output."

  /** `_decode` up to the codec: the speech ids of the generated text, or the ValueError. */
  function DecodeSpeech(output: string): (r: Result<seq<nat>, string>)
    ensures r.Failure? <==> FindSpeechIds(output) == []
    ensures r.Failure? ==> r.error == NoSpeechTokens
    ensures r.Success? ==> r.value == FindSpeechIds(output) && |r.value| > 0
  {
    var ids := FindSpeechIds(output);
    if |ids| > 0 then Success(ids) else Failure(NoSpeechTokens)
  }

  /** A token at the front is read back, and the scan resumes right after it. */
  lemma FindSpeechIdsOfToken(n: nat, t: string)
    ensures FindSpeechIds(SpeechToken(n) + t) == [n] + FindSpeechIds(t)
  {
    var s := SpeechToken(n) + t;
    var d := Decimal(n);
    assert s == SpeechOpen + (d + (SpeechClose + t));
    assert StartsWith(s, SpeechOpen);
    var rest := s[|SpeechOpen|..];
    assert rest == d + (SpeechClose + t);
    DigitRunOf(d, SpeechClose + t);
    assert rest[|d|..] == SpeechClose + t;
    DecimalValue(n);
    assert MatchToken(s) == Some((n, |SpeechOpen| + |d| + |SpeechClose|));
    assert s[|SpeechOpen| + |d| + |SpeechClose|..] == t;
  }

  /** Text without `<` holds no token and does not disturb what follows. */
  lemma {:induction false} FindSpeechIdsSkipPlain(a: string, t: string)
    requires '<' !in a
    ensures FindSpeechIds(a + t) == FindSpeechIds(t)
    decreases |a|
  {
    if a != [] {
      var s := a + t;
      assert s[0] == a[0];
      assert !StartsWith(s, SpeechOpen) by { assert SpeechOpen[0] == '<'; }
      assert s[1..] == a[1..] + t;
      FindSpeechIdsSkipPlain(a[1..], t);
    } else {
      assert a + t == t;
    }
  }

  /** A `<` that does not open `<|speech_` is skipped. */
  lemma FindSpeechIdsSkipTag(tag: string, t: string)
    requires NotSpeechTag(tag)
    ensures FindSpeechIds(tag + t) == FindSpeechIds(t)
  {
    var s := tag + t;
    assert s[..|SpeechOpen|] == tag[..|SpeechOpen|];
    assert s[1..] == tag[1..] + t;
    FindSpeechIdsSkipPlain(tag[1..], t);
  }

  /** Parsing the codes string gives back the codes, in order. */
  lemma {:induction false} CodesStringRoundTrip(codes: seq<nat>)
    ensures FindSpeechIds(CodesString(codes)) == codes
    decreases |codes|
  {
    if codes != [] {
      FindSpeechIdsOfToken(codes[0], CodesString(codes[1..]));
      CodesStringRoundTrip(codes[1..]);
    }
  }

  /** Decoding the codes string of a non-empty list succeeds with that list. */
  lemma DecodeCodesString(codes: seq<nat>)
    requires codes != []
    ensures DecodeSpeech(CodesString(codes)) == Success(codes)
  {
    CodesStringRoundTrip(codes);
  }

  // ---------------------------------------------------------------- phonemes

  /** `" ".join(phones.split())` applied to the phonemizer's output. */
  function ToPhones(phonemized: string): string {
    JoinWords(Words(phonemized))
  }

  /** The phoneme string is single-spaced, keeps the phonemizer's tokens, and is a fixed point. */
  lemma ToPhonesNormalises(phonemized: string)
    ensures SingleSpaced(ToPhones(phonemized))
    ensures Words(ToPhones(phonemized)) == Words(phonemized)
    ensures ToPhones(ToPhones(phonemized)) == ToPhones(phonemized)
  {
    var ws := Words(phonemized);
    JoinSingleSpaced(ws);
    WordsOfJoin(ws);
  }

  // ---------------------------------------------------------------- GGML prompt

  const PromptHead := "user: Convert the text to speech:"
  const TextPromptStartTag := "<|TEXT_PROMPT_START|>"
  const TextPromptEndTag := "<|TEXT_PROMPT_END|>"
  const AssistantTurn := "\nassistant:"
  const SpeechGenerationStartTag := "<|SPEECH_GENERATION_START|>"

  /** The prompt string `_infer_ggml` hands to the GGUF model. */
  function GgmlPrompt(phones: string, codes: seq<nat>): string {
    PromptHead + TextPromptStartTag + phones + TextPromptEndTag + AssistantTurn
      + SpeechGenerationStartTag + CodesString(codes)
  }

  lemma PromptPiecesPlain()
    ensures '<' !in PromptHead && '<' !in AssistantTurn
  {
  }

  /** A tag that opens with `<` but not with `<|speech_`, and holds no other `<`. */
  predicate NotSpeechTag(tag: string) {
    && |tag| >= |SpeechOpen| && tag[0] == '<'
    && tag[..|SpeechOpen|] != SpeechOpen && '<' !in tag[1..]
  }

  lemma TextStartIsNotSpeech()
    ensures NotSpeechTag(TextPromptStartTag)
  {
    assert TextPromptStartTag[..|SpeechOpen|][2] != SpeechOpen[2];
  }

  lemma TextEndIsNotSpeech()
    ensures NotSpeechTag(TextPromptEndTag)
  {
    assert TextPromptEndTag[..|SpeechOpen|][2] != SpeechOpen[2];
  }

  lemma GenerationStartIsNotSpeech()
    ensures NotSpeechTag(SpeechGenerationStartTag)
  {
    assert SpeechGenerationStartTag[..|SpeechOpen|][3] != SpeechOpen[3];
  }

  /** None of the prompt's three tags is a speech token, and none hides a `<` after its first
      character. */
  lemma PromptTagsAreNotSpeech()
    ensures NotSpeechTag(TextPromptStartTag) && NotSpeechTag(TextPromptEndTag)
    ensures NotSpeechTag(SpeechGenerationStartTag)
  {
    TextStartIsNotSpeech();
    TextEndIsNotSpeech();
    GenerationStartIsNotSpeech();
  }

  /** The only speech tokens of the GGML prompt are the reference codes, in order, as long as
      the phonemes contain no `<`. */
  lemma GgmlPromptCodes(phones: string, codes: seq<nat>)
    requires '<' !in phones
    ensures FindSpeechIds(GgmlPrompt(phones, codes)) == codes
  {
    var c := CodesString(codes);
    var s5 := SpeechGenerationStartTag + c;
    var s4 := AssistantTurn + s5;
    var s3 := TextPromptEndTag + s4;
    var s2 := phones + s3;
    var s1 := TextPromptStartTag + s2;
    assert GgmlPrompt(phones, codes) == PromptHead + s1;
    PromptPiecesPlain();
    PromptTagsAreNotSpeech();
    FindSpeechIdsSkipPlain(PromptHead, s1);
    FindSpeechIdsSkipTag(TextPromptStartTag, s2);
    FindSpeechIdsSkipPlain(phones, s3);
    FindSpeechIdsSkipTag(TextPromptEndTag, s4);
    FindSpeechIdsSkipPlain(AssistantTurn, s5);
    FindSpeechIdsSkipTag(SpeechGenerationStartTag, c);
    CodesStringRoundTrip(codes);
  }

  // ---------------------------------------------------------------- chat template

  /** The token ids of the template's special tokens, as the tokenizer assigns them. */
  datatype SpecialTokens = SpecialTokens(
    speechReplace: nat,
    speechGenStart: nat,
    textReplace: nat,
    textPromptStart: nat,
    textPromptEnd: nat)

  datatype ChatPrompt = ChatPrompt(ids: seq<nat>, warned: bool)

  /** The message of the ValueError `list.index` raises. */
  function NotInList(x: nat): string {
    Decimal(x) + " is not in list"
  }

  /** `xs.index(x)`: the first position of `x`, if any. */
  function IndexOf(xs: seq<nat>, x: nat): (r: Option<nat>)
    ensures r.None? <==> x !in xs
    ensures r.Some? ==> r.value < |xs| && xs[r.value] == x && x !in xs[..r.value]
  {
    if xs == [] then None
    else if xs[0] == x then Some(0)
    else match IndexOf(xs[1..], x)
      case None => None
      case Some(i) =>
        assert xs[..i + 1] == [xs[0]] + xs[1..][..i];
        Some(i + 1)
  }

  /** `i = xs.index(x); xs[:i] + ys + xs[i + 1:]`. */
  function ReplaceFirst(xs: seq<nat>, x: nat, ys: seq<nat>): (r: Result<seq<nat>, string>)
    ensures r.Success? <==> x in xs
    ensures r.Failure? ==> r.error == NotInList(x)
    ensures r.Success? ==> |r.value| == |xs| - 1 + |ys|
  {
    match IndexOf(xs, x)
    case None => Failure(NotInList(x))
    case Some(i) => Success(xs[..i] + ys + xs[i + 1..])
  }

  /** `i = xs.index(x); xs[:i] + ys`. */
  function CutAt(xs: seq<nat>, x: nat, ys: seq<nat>): (r: Result<seq<nat>, string>)
    ensures r.Success? <==> x in xs
    ensures r.Failure? ==> r.error == NotInList(x)
    ensures r.Success? ==> |r.value| >= |ys| && x !in r.value[..|r.value| - |ys|] && r.value[|r.value| - |ys|..] == ys
  {
    match IndexOf(xs, x)
    case None => Failure(NotInList(x))
    case Some(i) =>
      var r := xs[..i] + ys;
      assert r[..|r| - |ys|] == xs[..i] && r[|r| - |ys|..] == ys;
      Success(r)
  }

  lemma {:induction false} IndexOfSplit(p: seq<nat>, x: nat, q: seq<nat>)
    requires x !in p
    ensures IndexOf(p + [x] + q, x) == Some(|p|)
  {
    if p == [] {
      assert p + [x] + q == [x] + q;
    } else {
      assert (p + [x] + q)[1..] == p[1..] + [x] + q;
      IndexOfSplit(p[1..], x, q);
    }
  }

  /** Every list holding `x` splits at its first `x`, and `ReplaceFirst` puts `ys` there. */
  lemma ReplaceFirstAt(p: seq<nat>, x: nat, q: seq<nat>, ys: seq<nat>)
    requires x !in p
    ensures ReplaceFirst(p + [x] + q, x, ys) == Success(p + ys + q)
  {
    var xs := p + [x] + q;
    IndexOfSplit(p, x, q);
    assert xs[..|p|] == p && xs[|p| + 1..] == q;
  }

  /** `CutAt` keeps exactly the part before the first `x`. */
  lemma CutAtFirst(p: seq<nat>, x: nat, q: seq<nat>, ys: seq<nat>)
    requires x !in p
    ensures CutAt(p + [x] + q, x, ys) == Success(p + ys)
  {
    var xs := p + [x] + q;
    IndexOfSplit(p, x, q);
    assert xs[..|p|] == p;
  }

  const ChatTemplate := "user: Convert the text to speech:<|TEXT_REPLACE|>\nassistant:<|SPEECH_REPLACE|>"

  /** `_apply_chat_template` over token ids: `chat` is the tokenized template, `inputIds` the
      tokenized phonemes and `codeIds` the tokenized codes string. */
  function ApplyChatTemplate(chat: seq<nat>, sp: SpecialTokens, inputIds: seq<nat>, codeIds: seq<nat>)
    : (r: Result<ChatPrompt, string>)
    ensures r.Success? ==> (r.value.warned <==> |r.value.ids| > PromptWarnLength)
    ensures r.Success? ==> sp.textReplace in chat
    ensures r.Success? ==>
      var n := |r.value.ids| - |codeIds| - 1;
      && n >= 0 && r.value.ids[n..] == [sp.speechGenStart] + codeIds
      && sp.speechReplace !in r.value.ids[..n]
    ensures sp.textReplace !in chat ==> r == Failure(NotInList(sp.textReplace))
  {
    match ReplaceFirst(chat, sp.textReplace, [sp.textPromptStart] + inputIds + [sp.textPromptEnd])
    case Failure(e) => Failure(e)
    case Success(spliced) =>
      match CutAt(spliced, sp.speechReplace, [sp.speechGenStart] + codeIds)
      case Failure(e) => Failure(e)
      case Success(ids) => Success(ChatPrompt(ids, |ids| > PromptWarnLength))
  }

  /** The template splice on a template `p TEXT_REPLACE q1 SPEECH_REPLACE q2`: the prefix is
      kept, the text slot becomes the delimited input ids, and everything from the speech slot
      on becomes the generation start followed by the codes. The ids are not cut when long. */
  lemma ChatTemplateSplice(p: seq<nat>, q1: seq<nat>, q2: seq<nat>, sp: SpecialTokens,
                           inputIds: seq<nat>, codeIds: seq<nat>)
    requires sp.textReplace !in p
    requires sp.speechReplace !in p + [sp.textPromptStart] + inputIds + [sp.textPromptEnd] + q1
    ensures
      var ids := p + [sp.textPromptStart] + inputIds + [sp.textPromptEnd] + q1 + [sp.speechGenStart] + codeIds;
      ApplyChatTemplate(p + [sp.textReplace] + q1 + [sp.speechReplace] + q2, sp, inputIds, codeIds)
        == Success(ChatPrompt(ids, |ids| > PromptWarnLength))
  {
    var mid := [sp.textPromptStart] + inputIds + [sp.textPromptEnd];
    var q := q1 + [sp.speechReplace] + q2;
    assert p + [sp.textReplace] + q1 + [sp.speechReplace] + q2 == p + [sp.textReplace] + q;
    ReplaceFirstAt(p, sp.textReplace, q, mid);
    var pre := p + mid + q1;
    assert p + mid + q == pre + [sp.speechReplace] + q2;
    assert pre == p + [sp.textPromptStart] + inputIds + [sp.textPromptEnd] + q1;
    CutAtFirst(pre, sp.speechReplace, q2, [sp.speechGenStart] + codeIds);
    assert pre + ([sp.speechGenStart] + codeIds)
        == p + [sp.textPromptStart] + inputIds + [sp.textPromptEnd] + q1 + [sp.speechGenStart] + codeIds;
  }

  // ---------------------------------------------------------------- reference audio

  /** `10 * 1000`: the longest reference clip kept, in milliseconds. */
  const MaxReferenceMs := 10000

  /** `audio[:10000]` when the clip is longer than 10 s; the clip is a sequence of
      one-millisecond slices, as pydub indexes it. */
  function TruncateReference<T>(clip: seq<T>): (r: seq<T>)
    ensures |r| <= |clip| && |r| <= MaxReferenceMs && r == clip[..|r|]
    ensures |r| < MaxReferenceMs ==> r == clip
  {
    if |clip| > MaxReferenceMs then clip[..MaxReferenceMs] else clip
  }

  /** Truncation is the identity on clips of at most 10 s, so doing it twice changes nothing. */
  lemma TruncateReferenceIdempotent<T>(clip: seq<T>)
    ensures TruncateReference(TruncateReference(clip)) == TruncateReference(clip)
    ensures |clip| <= MaxReferenceMs ==> TruncateReference(clip) == clip
  {
  }

  /** `input_path.replace('.wav', '_converted.wav')`. */
  function ConvertedPath(input: string): string {
    ReplaceAll(input, ".wav", "_converted.wav")
  }

  /** For an uploaded reference `/tmp/tts_in/<id>.wav`, the converted copy is
      `/tmp/tts_in/<id>_converted.wav`: a different file, and not one of the files the gateway
      removes after any job. */
  lemma ConvertedUploadPath(id: string, other: string)
    requires IsJobId(id) && IsJobId(other)
    ensures ConvertedPath(InPath(id)) == InDir + id + "_converted.wav"
    ensures ConvertedPath(InPath(id)) !in JobScoped(other)
  {
    var stem := InDir + id;
    assert '.' !in stem by {
      forall k | 0 <= k < |stem| ensures stem[k] != '.' {
        if k >= |InDir| { assert stem[k] == id[k - |InDir|]; }
      }
    }
    assert InPath(id) == stem + ".wav";
    ReplaceAtEnd(stem, ".wav", "_converted.wav");
    var c := ConvertedPath(InPath(id));
    assert c == InDir + (id + "_converted.wav");
    assert c[9] == 'i';
    assert OutPath(other)[9] == 'o' && OkPath(other)[9] == 'd' && ErrPath(other)[9] == 'd';
    if |other| == |id| + 10 {
      assert InPath(other)[|InDir| + |id|] == other[|id|];
      assert c[|InDir| + |id|] == '_';
    }
    assert c != InPath(other);
  }

  /** One millisecond of decoded audio, as `AudioSegment` slices it. */
  type Frame = seq<Byte>

  /** The opaque audio libraries: `AudioSegment.from_file`; mono 24 kHz export to WAV;
      `torchaudio.load` with resampling, down-mixing and the codec's `encode_code`; and the
      codec's `decode_code` written out as 16-bit WAV by `sf.write`. A `Failure` is the
      exception raised. */
  datatype AudioTools = AudioTools(
    decodeClip: Option<File> -> Result<seq<Frame>, string>,
    exportWav: seq<Frame> -> seq<Byte>,
    encodeCodes: Option<File> -> Result<seq<nat>, string>,
    renderWav: seq<nat> -> seq<Byte>)

  /** `_convert_audio_to_wav`: on success the path of the exported, truncated copy. */
  function ConvertRun(tools: AudioTools, s: Files, input: string): Run<Result<string, string>> {
    match tools.decodeClip(Lookup(s, input))
    case Failure(e) => Run([], Failure(e))
    case Success(clip) =>
      var out := ConvertedPath(input);
      Run([Write(out, Binary(tools.exportWav(TruncateReference(clip))))], Success(out))
  }

  /** `encode_reference`: convert, falling back to the original file when conversion raised,
      then encode whichever file was chosen. */
  function EncodeReferenceRun(tools: AudioTools, s: Files, path: string): Run<Result<seq<nat>, string>> {
    var c := ConvertRun(tools, s, path);
    var used := if c.result.Success? then c.result.value else path;
    Run(c.effects, tools.encodeCodes(Lookup(Apply(s, c.effects), used)))
  }

  /** What reaches the encoder is the exported copy of the first 10 s of the reference when it
      could be decoded, and the original file otherwise; the only file written is the copy. */
  lemma EncodeReferenceUsesTruncatedClip(tools: AudioTools, s: Files, path: string)
    ensures var r := EncodeReferenceRun(tools, s, path);
      match tools.decodeClip(Lookup(s, path))
      case Success(clip) =>
        && r.effects == [Write(ConvertedPath(path), Binary(tools.exportWav(TruncateReference(clip))))]
        && r.result == tools.encodeCodes(Some(Binary(tools.exportWav(TruncateReference(clip)))))
      case Failure(_) => r.effects == [] && r.result == tools.encodeCodes(Lookup(s, path))
  {
    var r := EncodeReferenceRun(tools, s, path);
    if tools.decodeClip(Lookup(s, path)).Success? {
      assert Apply(s, r.effects) == s[ConvertedPath(path) := r.effects[0].file];
    }
  }

  /** Encoding a reference never removes a file, and changes at most the converted copy. */
  lemma EncodeReferenceKeepsFiles(tools: AudioTools, s: Files, path: string, q: string)
    requires q != ConvertedPath(path)
    ensures var t := Apply(s, EncodeReferenceRun(tools, s, path).effects);
      s.Keys <= t.Keys && Lookup(t, q) == Lookup(s, q)
  {
    var r := EncodeReferenceRun(tools, s, path);
    if r.effects != [] {
      assert Apply(s, r.effects) == s[ConvertedPath(path) := r.effects[0].file];
    }
  }

  // ---------------------------------------------------------------- backend choice

  const DefaultBackboneRepo := "neuphonic/neutts-air"
  /** The backbone the worker's service loads. */
  const ServiceBackboneRepo := "neuphonic/neutts-air-q8-gguf"

  /** `backbone_repo.lower().endswith("gguf")`, read on the last four characters (lower-casing
      works character by character; `GgufIsLowerEndsWith` states the two agree). */
  predicate IsGgufRepo(repo: string) {
    |repo| >= 4 && Lower(repo[|repo| - 4..]) == "gguf"
  }

  /** The test is exactly `backbone_repo.lower().endswith("gguf")`. */
  lemma GgufIsLowerEndsWith(repo: string)
    ensures IsGgufRepo(repo) <==> EndsWith(Lower(repo), "gguf")
  {
    if |repo| >= 4 {
      LowerSuffix(repo, |repo| - 4);
    }
  }

  /** The backbone the worker's service loads is quantized; the default one is not. */
  lemma BackboneChoices()
    ensures IsGgufRepo(ServiceBackboneRepo) && !IsGgufRepo(DefaultBackboneRepo)
  {
    ServiceBackboneIsGguf();
    NotGguf(DefaultBackboneRepo);
  }

  lemma ServiceBackboneIsGguf()
    ensures IsGgufRepo(ServiceBackboneRepo)
  {
    var s := ServiceBackboneRepo;
    assert s[|s| - 4..] == "gguf";
    GgufSuffix(s);
  }

  /** A repository ending in `gguf` selects the quantized backend. */
  lemma GgufSuffix(repo: string)
    requires |repo| >= 4 && repo[|repo| - 4..] == "gguf"
    ensures IsGgufRepo(repo)
  {
    var tail := repo[|repo| - 4..];
    var l := Lower(tail);
    forall k | 0 <= k < 4 ensures l[k] == "gguf"[k] {
      assert tail[k] == "gguf"[k];
    }
  }

  /** A repository whose last letter is not `f` in any case does not. */
  lemma NotGguf(repo: string)
    requires |repo| > 0 && LowerChar(repo[|repo| - 1]) != 'f'
    ensures !IsGgufRepo(repo)
  {
    if |repo| >= 4 {
      var tail := repo[|repo| - 4..];
      assert tail[3] == repo[|repo| - 1];
      assert Lower(tail)[3] != "gguf"[3];
    }
  }

  /** The test ignores the case of the suffix. */
  lemma GgufIgnoresCase(stem: string, suffix: string)
    requires |suffix| == 4 && Lower(suffix) == "gguf"
    ensures IsGgufRepo(stem + suffix)
  {
    var s := stem + suffix;
    assert s[|s| - 4..] == suffix;
  }

  /** The tokenizer, as far as the prompt code uses it: plain encoding, encoding with the
      special tokens added, and the ids of the special tokens. */
  datatype Tokenizer = Tokenizer(
    encodePlain: string -> seq<nat>,
    encodeWithSpecial: string -> seq<nat>,
    special: SpecialTokens)

  /** The opaque models: the phonemizer, the transformer and GGUF generators (a `Failure` is the
      exception they raise) and the tokenizer. */
  datatype Models = Models(
    phonemize: string -> string,
    tokenizer: Tokenizer,
    generateTorch: seq<nat> -> Result<string, string>,
    generateGgml: string -> Result<string, string>)

  /** What `infer` depends on: which backbone was loaded, and the opaque models. */
  datatype Backbone = Backbone(quantized: bool, models: Models)

  /** `_to_phones`. */
  function Phones(models: Models, text: string): string {
    ToPhones(models.phonemize(text))
  }

  /** The raw output of the backbone for `text` in the voice of `refCodes`: `_infer_ggml` for a
      GGUF backbone, else `_apply_chat_template` followed by `_infer_torch`. */
  function Generate(b: Backbone, text: string, refCodes: seq<nat>): Result<string, string> {
    var phones := Phones(b.models, text);
    if b.quantized then b.models.generateGgml(GgmlPrompt(phones, refCodes))
    else
      var tk := b.models.tokenizer;
      match ApplyChatTemplate(tk.encodeWithSpecial(ChatTemplate), tk.special,
                              tk.encodePlain(phones), tk.encodePlain(CodesString(refCodes)))
      case Failure(e) => Failure(e)
      case Success(prompt) => b.models.generateTorch(prompt.ids)
  }

  /** `infer` up to the codec: the speech ids found in the backbone output, or the message of the
      exception raised on the way. It succeeds exactly when the backbone answered with at least
      one speech token. */
  function Inference(b: Backbone, text: string, refCodes: seq<nat>): (r: Result<seq<nat>, string>)
    ensures var g := Generate(b, text, refCodes);
      && (r.Success? <==> g.Success? && FindSpeechIds(g.value) != [])
      && (r.Success? ==> r.value == FindSpeechIds(g.value) && |r.value| > 0)
      && (g.Failure? ==> r == Failure(g.error))
      && (g.Success? && FindSpeechIds(g.value) == [] ==> r == Failure(NoSpeechTokens))
  {
    match Generate(b, text, refCodes)
    case Failure(e) => Failure(e)
    case Success(out) => DecodeSpeech(out)
  }

  /** A GGUF backbone is prompted with exactly the reference codes as speech tokens (given
      phonemes without `<`, which the phonemizer does not produce). */
  lemma GgmlPromptCarriesReference(b: Backbone, text: string, refCodes: seq<nat>)
    requires b.quantized && '<' !in Phones(b.models, text)
    ensures var p := GgmlPrompt(Phones(b.models, text), refCodes);
      Generate(b, text, refCodes) == b.models.generateGgml(p) && FindSpeechIds(p) == refCodes
  {
    GgmlPromptCodes(Phones(b.models, text), refCodes);
  }

  class NeuTtsAirModel {
    const backboneRepo: string
    const models: Models
    var isQuantizedModel: bool

    /** `__init__` with `_load_models` succeeding. */
    constructor (backboneRepo: string, models: Models)
      ensures this.backboneRepo == backboneRepo && this.models == models
      ensures isQuantizedModel == IsGgufRepo(backboneRepo)
    {
      this.backboneRepo := backboneRepo;
      this.models := models;
      isQuantizedModel := IsGgufRepo(backboneRepo);
    }

    /** The backbone as `infer` sees it. */
    function Loaded(): Backbone
      reads this
    {
      Backbone(isQuantizedModel, models)
    }

    /** `_convert_audio_to_wav`. */
    method ConvertAudioToWav(fs: FileSystem, tools: AudioTools, input: string) returns (r: Result<string, string>)
      modifies fs
      ensures var run := ConvertRun(tools, old(fs.files), input);
        r == run.result && fs.files == Apply(old(fs.files), run.effects)
        && fs.journal == old(fs.journal) + run.effects
    {
      var source := fs.ReadFile(input);
      var clip := tools.decodeClip(source);
      if clip.Failure? {
        return Failure(clip.error);
      }
      var out := ConvertedPath(input);
      fs.WriteFile(out, Binary(tools.exportWav(TruncateReference(clip.value))));
      return Success(out);
    }

    /** `encode_reference`. */
    method EncodeReference(fs: FileSystem, tools: AudioTools, path: string) returns (r: Result<seq<nat>, string>)
      modifies fs
      ensures var run := EncodeReferenceRun(tools, old(fs.files), path);
        r == run.result && fs.files == Apply(old(fs.files), run.effects)
        && fs.journal == old(fs.journal) + run.effects
    {
      var converted := ConvertAudioToWav(fs, tools, path);
      var used := path;
      if converted.Success? {
        used := converted.value;
      }
      var f := fs.ReadFile(used);
      r := tools.encodeCodes(f);
    }
  }
}
