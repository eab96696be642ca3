/**
 * The shared /tmp area as an abstract store: a map from path to content. Every write and
 * delete is also recorded, in order, in a ghost journal, so that the order in which a worker
 * makes its files visible can be stated.
 */
module Store {
  import opened Wrappers
  import opened Protocol
  import opened Text

  type Byte = bv8

  /** What a file holds. `Binary` is raw content (audio); `Plain` is text written in text mode;
      `JobJson` and `InfoJson` are files that `json.load` reads as a descriptor or an info record.
      Any other content stands for a file that `json.load` rejects. */
  datatype File =
    | Binary(bytes: seq<Byte>)
    | Plain(text: string)
    | JobJson(job: Descriptor)
    | InfoJson(info: Info)

  type Files = map<string, File>

  datatype Effect = Write(path: string, file: File) | Delete(path: string)

  /** What an operation did to the store, and what it returned. */
  datatype Run<T> = Run(effects: seq<Effect>, result: T)

  function Step(s: Files, e: Effect): Files {
    match e
    case Write(p, f) => s[p := f]
    case Delete(p) => s - {p}
  }

  /** The store after performing `es` in order. */
  function Apply(s: Files, es: seq<Effect>): Files
    decreases |es|
  {
    if es == [] then s else Apply(Step(s, es[0]), es[1..])
  }

  function Lookup(s: Files, p: string): Option<File> {
    if p in s then Some(s[p]) else None
  }

  /** `os.unlink` guarded by `os.path.exists` (or `unlink(missing_ok=True)`). */
  function DeleteIfPresent(s: Files, p: string): seq<Effect> {
    if p in s then [Delete(p)] else []
  }

  lemma {:induction false} ApplyAppend(s: Files, a: seq<Effect>, b: seq<Effect>)
    ensures Apply(s, a + b) == Apply(Apply(s, a), b)
    decreases |a|
  {
    if a != [] {
      assert (a + b)[1..] == a[1..] + b;
      ApplyAppend(Step(s, a[0]), a[1..], b);
    } else {
      assert a + b == b;
    }
  }

  lemma ApplySingle(s: Files, e: Effect)
    ensures Apply(s, [e]) == Step(s, e)
  {
    assert [e][1..] == [];
  }

  predicate Untouched(es: seq<Effect>, p: string) {
    forall i :: 0 <= i < |es| ==> es[i].path != p
  }

  predicate NoWriteTo(es: seq<Effect>, p: string) {
    forall i :: 0 <= i < |es| ==> es[i].Write? ==> es[i].path != p
  }

  /** A path no effect names keeps its content. */
  lemma {:induction false} ApplyUntouched(s: Files, es: seq<Effect>, p: string)
    requires Untouched(es, p)
    ensures Lookup(Apply(s, es), p) == Lookup(s, p)
    decreases |es|
  {
    if es != [] {
      ApplyUntouched(Step(s, es[0]), es[1..], p);
    }
  }

  /** The content a write leaves stays when no later effect names its path. */
  lemma LastWriteWins(s: Files, es: seq<Effect>, i: nat)
    requires i < |es| && es[i].Write? && Untouched(es[i + 1..], es[i].path)
    ensures Lookup(Apply(s, es), es[i].path) == Some(es[i].file)
  {
    var pre, post := es[..i], es[i + 1..];
    assert es == pre + ([es[i]] + post);
    ApplyAppend(s, pre, [es[i]] + post);
    ApplyAppend(Apply(s, pre), [es[i]], post);
    ApplySingle(Apply(s, pre), es[i]);
    ApplyUntouched(Step(Apply(s, pre), es[i]), post, es[i].path);
  }

  /** The last effect's write is what the store holds at its path. */
  lemma FinalWrite(s: Files, es: seq<Effect>, p: string, f: File)
    requires |es| >= 1 && es[|es| - 1] == Write(p, f)
    ensures Lookup(Apply(s, es), p) == Some(f)
  {
    assert es[|es|..] == [];
    LastWriteWins(s, es, |es| - 1);
  }

  /** A guarded delete removes exactly that path. */
  lemma DeleteIfPresentApply(s: Files, p: string)
    ensures Apply(s, DeleteIfPresent(s, p)) == s - {p}
  {
    if p in s { ApplySingle(s, Delete(p)); } else { assert s - {p} == s; }
  }

  /** Appending a guarded delete removes exactly that path. */
  lemma DeleteIfPresentRemoves(s: Files, es: seq<Effect>, p: string)
    ensures Apply(s, es + DeleteIfPresent(Apply(s, es), p)) == Apply(s, es) - {p}
  {
    ApplyAppend(s, es, DeleteIfPresent(Apply(s, es), p));
    DeleteIfPresentApply(Apply(s, es), p);
  }

  lemma MinusTwice(s: Files, a: string, rest: set<string>)
    ensures (s - {a}) - rest == s - ({a} + rest)
  {
  }

  /** A path no effect writes cannot appear. */
  lemma {:induction false} ApplyNoWrite(s: Files, es: seq<Effect>, p: string)
    requires NoWriteTo(es, p) && p !in s
    ensures p !in Apply(s, es)
    decreases |es|
  {
    if es != [] {
      ApplyNoWrite(Step(s, es[0]), es[1..], p);
    }
  }

  /** `json.load` of a queue file as a worker reads it: a descriptor, a dict that has none of
      the descriptor keys, or a parse failure. */
  function ParseDescriptor(f: File): Option<Descriptor> {
    match f
    case JobJson(d) => Some(d)
    case InfoJson(_) => Some(NoFields)
    case _ => None
  }

  /** No effect creates an entry of the engine's queue. */
  predicate NoJobWrites(engine: string, es: seq<Effect>) {
    forall i :: 0 <= i < |es| && es[i].Write? ==> !IsJobFile(engine, es[i].path)
  }

  lemma NoJobWritesAppend(engine: string, a: seq<Effect>, b: seq<Effect>)
    requires NoJobWrites(engine, a) && NoJobWrites(engine, b)
    ensures NoJobWrites(engine, a + b)
  {
    forall i | 0 <= i < |a + b| && (a + b)[i].Write? ensures !IsJobFile(engine, (a + b)[i].path) {
      if i >= |a| { assert (a + b)[i] == b[i - |a|]; }
    }
  }

  /** One pass of a worker's scan loop: `step(s, p, k)` is what handling the `k`-th listed
      file `p` does to the store `s`. */
  function ScanEffects(step: (Files, string, nat) -> seq<Effect>, s: Files, listing: seq<string>, k: nat)
    : seq<Effect>
    decreases |listing|
  {
    if listing == [] then []
    else
      var e := step(s, listing[0], k);
      e + ScanEffects(step, Apply(s, e), listing[1..], k + 1)
  }

  /** What remains of a scan once the first `i` listed files were handled and the store became
      `cur`, and what has been done so far. */
  predicate ScanAt(step: (Files, string, nat) -> seq<Effect>, s0: Files, j0: seq<Effect>, listing: seq<string>,
                   start: nat, i: nat, cur: Files, journal: seq<Effect>)
  {
    && i <= |listing|
    && Apply(s0, ScanEffects(step, s0, listing, start)) == Apply(cur, ScanEffects(step, cur, listing[i..], start + i))
    && j0 + ScanEffects(step, s0, listing, start) == journal + ScanEffects(step, cur, listing[i..], start + i)
  }

  lemma ScanAtStart(step: (Files, string, nat) -> seq<Effect>, s0: Files, j0: seq<Effect>, listing: seq<string>,
                    start: nat)
    ensures ScanAt(step, s0, j0, listing, start, 0, s0, j0)
  {
    assert listing[0..] == listing;
  }

  /** Handling the `i`-th listed file, with effects `e`, moves a scan on by one file. */
  lemma ScanAdvance(step: (Files, string, nat) -> seq<Effect>, s0: Files, j0: seq<Effect>, listing: seq<string>,
                    start: nat, i: nat, cur: Files, journal: seq<Effect>, e: seq<Effect>)
    requires ScanAt(step, s0, j0, listing, start, i, cur, journal) && i < |listing|
    requires e == step(cur, listing[i], start + i)
    ensures ScanAt(step, s0, j0, listing, start, i + 1, Apply(cur, e), journal + e)
  {
    var rest := ScanEffects(step, Apply(cur, e), listing[i + 1..], start + i + 1);
    assert listing[i..][0] == listing[i] && listing[i..][1..] == listing[i + 1..];
    assert ScanEffects(step, cur, listing[i..], start + i) == e + rest;
    ApplyAppend(cur, e, rest);
    ConcatAssoc(journal, e, rest);
  }

  lemma ScanAtEnd(step: (Files, string, nat) -> seq<Effect>, s0: Files, j0: seq<Effect>, listing: seq<string>,
                  start: nat, cur: Files, journal: seq<Effect>)
    requires ScanAt(step, s0, j0, listing, start, |listing|, cur, journal)
    ensures cur == Apply(s0, ScanEffects(step, s0, listing, start))
    ensures journal == j0 + ScanEffects(step, s0, listing, start)
  {
    assert listing[|listing|..] == [];
  }

  /** A queue entry of a store after effects that write no queue entry was already there, with
      the same content. */
  lemma {:induction false} NoJobWritesKeep(engine: string, t: Files, es: seq<Effect>, q: string)
    requires NoJobWrites(engine, es) && IsJobFile(engine, q) && q in Apply(t, es)
    ensures q in t && Apply(t, es)[q] == t[q]
    decreases |es|
  {
    if es != [] {
      assert NoJobWrites(engine, es[1..]) by {
        forall i | 0 <= i < |es| - 1 && es[1..][i].Write? ensures !IsJobFile(engine, es[1..][i].path) {
          assert es[1..][i] == es[i + 1];
        }
      }
      NoJobWritesKeep(engine, Step(t, es[0]), es[1..], q);
      assert es[0].Write? ==> es[0].path != q;
    }
  }

  /** A scan over a listing of the whole queue leaves the queue empty, as long as handling a
      listed file removes it, never creates a queue entry and keeps `inv`, which the store
      satisfies at the start. */
  lemma {:induction false} ScanDrains(engine: string, step: (Files, string, nat) -> seq<Effect>,
                                      inv: Files -> bool, s: Files, listing: seq<string>, k: nat)
    requires forall t, p, j :: inv(t) && IsJobFile(engine, p) ==>
      var e := step(t, p, j);
      NoJobWrites(engine, e) && p !in Apply(t, e) && inv(Apply(t, e))
    requires inv(s)
    requires forall p :: p in listing ==> IsJobFile(engine, p)
    requires forall p :: p in s && IsJobFile(engine, p) ==> p in listing
    ensures forall p :: IsJobFile(engine, p) ==> p !in Apply(s, ScanEffects(step, s, listing, k))
    decreases |listing|
  {
    if listing == [] {
      assert ScanEffects(step, s, listing, k) == [];
    } else {
      var e := step(s, listing[0], k);
      var s1 := Apply(s, e);
      assert listing[0] in listing;
      forall p | p in s1 && IsJobFile(engine, p) ensures p in listing[1..] {
        NoJobWritesKeep(engine, s, e, p);
        assert p != listing[0];
      }
      forall p | p in listing[1..] ensures IsJobFile(engine, p) {
        assert p in listing;
      }
      ScanDrains(engine, step, inv, s1, listing[1..], k + 1);
      ApplyAppend(s, e, ScanEffects(step, s1, listing[1..], k + 1));
    }
  }

  predicate NoDuplicates<T(==)>(xs: seq<T>) {
    forall i, j :: 0 <= i < j < |xs| ==> xs[i] != xs[j]
  }

  /** The filesystem under /tmp. */
  class FileSystem {
    var files: Files
    ghost var journal: seq<Effect>

    constructor (initial: Files)
      ensures files == initial && journal == []
    {
      files := initial;
      journal := [];
    }

    predicate Exists(p: string)
      reads this
    {
      p in files
    }

    method ReadFile(p: string) returns (f: Option<File>)
      ensures f == Lookup(files, p)
    {
      f := if p in files then Some(files[p]) else None;
    }

    /** `open(p, 'w').write(...)`: creates or replaces the file. */
    method WriteFile(p: string, f: File)
      modifies this
      ensures files == Apply(old(files), [Write(p, f)]) && files == old(files)[p := f]
      ensures journal == old(journal) + [Write(p, f)]
    {
      files := files[p := f];
      journal := journal + [Write(p, f)];
    }

    /** `os.unlink(p)`; `removed` is false when the file did not exist (FileNotFoundError). */
    method Unlink(p: string) returns (removed: bool)
      modifies this
      ensures removed == (p in old(files))
      ensures files == Apply(old(files), DeleteIfPresent(old(files), p)) && files == old(files) - {p}
      ensures journal == old(journal) + DeleteIfPresent(old(files), p)
    {
      removed := p in files;
      if removed {
        files := files - {p};
        journal := journal + [Delete(p)];
      }
    }

    /** `list(Path(QueueDir(engine)).glob("job_*.json"))`: every queue entry once, in an order
        the directory listing chooses. */
    method ListJobFiles(engine: string) returns (listing: seq<string>)
      ensures NoDuplicates(listing)
      ensures forall p :: p in listing <==> p in files && IsJobFile(engine, p)
    {
      var pending := set p | p in files && IsJobFile(engine, p);
      listing := [];
      while pending != {}
        invariant forall p :: p in listing || p in pending <==> p in files && IsJobFile(engine, p)
        invariant forall p :: p in listing ==> p !in pending
        invariant NoDuplicates(listing)
        decreases |pending|
      {
        var p :| p in pending;
        listing := listing + [p];
        pending := pending - {p};
      }
    }
  }
}
