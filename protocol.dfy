/**
 * What the gateway and the workers exchange through /tmp: the job descriptor, the readiness
 * ("info") record, and the paths of the four job areas and the two info files.
 */
module Protocol {
  import opened Wrappers
  import opened Text

  /** A job descriptor as `json.load` returns it. Each field is `None` when its key is absent;
      a `Some("")` field is present (the workers test for key presence, not truthiness). */
  datatype Descriptor = Descriptor(
    id: Option<string>,
    text: Option<string>,
    language: Option<string>,
    model: Option<string>,
    speaker: Option<string>,
    refWav: Option<string>)

  /** A dict that has none of the descriptor keys (what `json.load` of a non-descriptor object gives). */
  const NoFields := Descriptor(None, None, None, None, None, None)

  /** One entry of an info record's `models` mapping. `notes` is `None` when the key is absent. */
  datatype ModelInfo = ModelInfo(
    name: string,
    languages: seq<string>,
    speakers: seq<string>,
    supportsCustomVoice: bool,
    notes: Option<string>)

  datatype ModelEntry = ModelEntry(key: string, info: ModelInfo)

  /** A readiness record: `engine`, an optional `error`, and `models` in insertion order
      (`None` when the key is absent). */
  datatype Info = Info(engine: string, error: Option<string>, models: Option<seq<ModelEntry>>)

  /** What a worker writes into a success marker. */
  const SuccessText := "Success"

  /** The id a worker files a failure marker under when the descriptor has none. */
  const UnknownId := "unknown"

  // ---------------------------------------------------------------- paths

  /** The characters of `str(uuid.uuid4())`: lower-case hexadecimal digits and dashes. */
  predicate IsJobId(id: string) {
    forall i :: 0 <= i < |id| ==> ('0' <= id[i] <= '9' || 'a' <= id[i] <= 'f' || id[i] == '-')
  }

  const InDir := "/tmp/tts_in/"
  const OutDir := "/tmp/tts_out/"
  const DoneDir := "/tmp/tts_done/"
  const QueueRoot := "/tmp/tts_queue/"

  const CoquiInfoPath := "/tmp/coqui.info"
  const NeuttsInfoPath := "/tmp/neutts.info"

  /** The uploaded reference audio of a job. */
  function InPath(id: string): string { InDir + id + ".wav" }

  /** The synthesized artifact of a job. */
  function OutPath(id: string): string { OutDir + id + ".wav" }

  /** The success marker of a job. */
  function OkPath(id: string): string { DoneDir + id + ".ok" }

  /** The failure marker of a job. */
  function ErrPath(id: string): string { DoneDir + id + ".err" }

  function QueueDir(engine: string): string { QueueRoot + engine + "/" }

  /** Where the gateway puts the descriptor of a job for an engine. */
  function QueuePath(engine: string, id: string): string { QueueDir(engine) + "job_" + id + ".json" }

  /** What `Path("/tmp/tts_queue/<engine>").glob("job_*.json")` lists: a direct child of the
      queue directory whose name starts with `job_` and ends with `.json`. */
  predicate IsJobFile(engine: string, p: string) {
    var dir := QueueDir(engine);
    && StartsWith(p, dir)
    && var name := p[|dir|..];
    && |name| >= 9 && StartsWith(name, "job_") && EndsWith(name, ".json")
    && '/' !in name
  }

  /** The four files the gateway removes after a job. */
  function JobScoped(id: string): seq<string> {
    [InPath(id), OutPath(id), OkPath(id), ErrPath(id)]
  }

  lemma JobFileEndsInJson(engine: string, p: string)
    requires IsJobFile(engine, p)
    ensures |p| > 0 && p[|p| - 1] == 'n'
  {
    var name := p[|QueueDir(engine)|..];
    assert name[|name| - 1] == ".json"[4];
  }

  /** A path whose last character is not `n` is never listed by a worker's scan. */
  lemma NotJobFile(engine: string, p: string)
    requires |p| == 0 || p[|p| - 1] != 'n'
    ensures !IsJobFile(engine, p)
  {
    if IsJobFile(engine, p) { JobFileEndsInJson(engine, p); }
  }

  /** A queue entry is none of a job's four files. */
  lemma QueueEntryIsNotJobScoped(engine: string, q: string, id: string)
    requires IsJobFile(engine, q)
    ensures q != InPath(id) && q != OutPath(id) && q != OkPath(id) && q != ErrPath(id)
  {
    JobFileEndsInJson(engine, q);
    assert InPath(id)[|InPath(id)| - 1] == 'v';
    assert OutPath(id)[|OutPath(id)| - 1] == 'v';
    assert OkPath(id)[|OkPath(id)| - 1] == 'k';
    assert ErrPath(id)[|ErrPath(id)| - 1] == 'r';
  }

  /** The descriptor the gateway writes is one the worker of that engine lists. */
  lemma QueuePathIsJobFile(engine: string, id: string)
    requires IsJobId(id)
    ensures IsJobFile(engine, QueuePath(engine, id))
  {
    var dir := QueueDir(engine);
    var p := QueuePath(engine, id);
    var name := "job_" + id + ".json";
    assert p == dir + name;
    assert p[|dir|..] == name;
    assert name[..4] == "job_";
    assert name[|name| - 5..] == ".json";
    assert '/' !in name by {
      forall i | 0 <= i < |name| ensures name[i] != '/' {
        if 4 <= i < 4 + |id| { assert name[i] == id[i - 4]; }
      }
    }
  }

  /** The files a worker writes for a job and the files the gateway cleans up are never queue
      entries, whatever the job id. */
  lemma JobFilesAreNotQueued(engine: string, id: string)
    ensures !IsJobFile(engine, InPath(id)) && !IsJobFile(engine, OutPath(id))
    ensures !IsJobFile(engine, OkPath(id)) && !IsJobFile(engine, ErrPath(id))
  {
    NotJobFile(engine, InPath(id));
    NotJobFile(engine, OutPath(id));
    NotJobFile(engine, OkPath(id));
    NotJobFile(engine, ErrPath(id));
  }

  /** The four areas never share a path, whatever the two ids. */
  lemma AreasDisjoint(a: string, b: string)
    ensures InPath(a) != OutPath(b) && InPath(a) != OkPath(b) && InPath(a) != ErrPath(b)
    ensures OutPath(a) != OkPath(b) && OutPath(a) != ErrPath(b) && OkPath(a) != ErrPath(b)
    ensures forall e :: QueuePath(e, a) != InPath(b) && QueuePath(e, a) != OutPath(b)
    ensures forall e :: QueuePath(e, a) != OkPath(b) && QueuePath(e, a) != ErrPath(b)
  {
    assert InPath(a)[9] == 'i';
    assert OutPath(b)[9] == 'o';
    assert OkPath(b)[9] == 'd' && ErrPath(b)[9] == 'd';
    assert OkPath(a)[|OkPath(a)| - 1] == 'k';
    assert ErrPath(b)[|ErrPath(b)| - 1] == 'r';
    forall e ensures QueuePath(e, a)[9] == 'q' {
      assert QueuePath(e, a) == QueueRoot + (e + "/" + "job_" + a + ".json");
    }
  }
}
