/** What a capture, a publication and a spawn attempt come to, from their first step to their last. */
module DigestCacheCalls {
  import opened Options
  import opened Framing
  import opened DigestCache

  /** A step of call `c` that goes well. */
  function Well(c: nat, count: nat): Step {
    Advance(c, true, count)
  }

  ghost predicate MovesTo(h: string -> string, hyp: Hypothesis, w: World, s: Step, v: World) {
    Enabled(hyp, w, s) && Apply(h, w, s) == v
  }

  lemma FirstOf(h: string -> string, hyp: Hypothesis, w: World, s: Step, u: World, steps: seq<Step>, v: World)
    requires MovesTo(h, hyp, w, s, u) && Reaches(h, hyp, u, steps, v)
    ensures Reaches(h, hyp, w, [s] + steps, v)
  {
    assert ([s] + steps)[1..] == steps;
  }

  lemma AtTwice(w: World, c: nat, pc: Pc, next: Pc)
    ensures At(At(w, c, pc), c, next) == At(w, c, next)
  {
    assert w.calls[c := pc][c := next] == w.calls[c := next];
  }

  // ---------------------------------------------------------------- capturing

  /** The store holds a record of exactly this key. */
  ghost predicate Recorded(h: string -> string, store: Option<Attestation>, key: Key, sha256: string) {
    store == Some(AttestationFor(h, key, sha256))
  }

  /** A record is used without any read exactly by an observer, and exactly if it was made for the inspected key. */
  lemma HitIff(h: string -> string, w: World, c: nat, key: Key, sha256: string)
    requires CollisionFree(h) && c in w.calls && w.calls[c].Inspected? && Recorded(h, w.store, key, sha256)
    ensures var pc, next := w.calls[c], Apply(h, w, Well(c, 0)).calls[c];
      && (next == Digested(pc.mode, pc.file, pc.before, sha256) <==> pc.mode.ObserveOnly? && pc.before == key)
      && (next == Hashing(pc.mode, pc.file, pc.before, "") <==> pc.mode.SpawnCapable? || pc.before != key)
  {
    MatchingRecordIsOfThisKey(h, w.calls[c].before, key, sha256);
  }

  /** What a capture of the current path that runs alone finds. */
  ghost function Found(h: string -> string, w: World, mode: Mode): string
    requires w.path in w.files
  {
    var state := w.files[w.path];
    if mode.ObserveOnly? && w.store.Some? && Recorded(h, w.store, KeyOf(w.path, state), w.store.value.sha256)
    then w.store.value.sha256 else h(state.content)
  }

  lemma OpensAndLooks(h: string -> string, hyp: Hypothesis, w: World, c: nat, mode: Mode, rest: seq<Step>, v: World)
    requires c !in w.calls && w.path in w.files
    requires Reaches(h, hyp, At(w, c, Inspected(mode, w.path, KeyOf(w.path, w.files[w.path]))), rest, v)
    ensures Reaches(h, hyp, w, [Capture(c, mode)] + ([Well(c, 0)] + rest), v)
  {
    var open, inspected := Opened(mode, w.path), Inspected(mode, w.path, KeyOf(w.path, w.files[w.path]));
    AtTwice(w, c, open, inspected);
    assert MovesTo(h, hyp, w, Capture(c, mode), At(w, c, open));
    assert MovesTo(h, hyp, At(w, c, open), Well(c, 0), At(w, c, inspected));
    hide *;
    FirstOf(h, hyp, At(w, c, open), Well(c, 0), At(w, c, inspected), rest, v);
    FirstOf(h, hyp, w, Capture(c, mode), At(w, c, open), [Well(c, 0)] + rest, v);
  }

  lemma LooksAgain(h: string -> string, hyp: Hypothesis, w: World, c: nat, mode: Mode, sha256: string)
    requires w.path in w.files
    ensures var key := KeyOf(w.path, w.files[w.path]);
      Reaches(h, hyp, At(w, c, Digested(mode, w.path, key, sha256)), [Well(c, 0)], At(w, c, Captured(mode, key, sha256)))
  {
    var key := KeyOf(w.path, w.files[w.path]);
    var v := At(w, c, Captured(mode, key, sha256));
    AtTwice(w, c, Digested(mode, w.path, key, sha256), Captured(mode, key, sha256));
    assert [Well(c, 0)][1..] == [];
    assert Reaches(h, hyp, v, [], v);
  }

  lemma FindsRecord(h: string -> string, hyp: Hypothesis, w: World, c: nat, f: FileId, key: Key)
    requires w.store.Some? && Recorded(h, w.store, key, w.store.value.sha256)
    ensures var sha256 := w.store.value.sha256;
      MovesTo(h, hyp, At(w, c, Inspected(ObserveOnly, f, key)), Well(c, 0), At(w, c, Digested(ObserveOnly, f, key, sha256)))
  {
    AtTwice(w, c, Inspected(ObserveOnly, f, key), Digested(ObserveOnly, f, key, w.store.value.sha256));
  }

  lemma Hashes(h: string -> string, hyp: Hypothesis, w: World, c: nat, mode: Mode)
    requires w.path in w.files
    requires var key := KeyOf(w.path, w.files[w.path]);
      !(mode.ObserveOnly? && w.store.Some? && Recorded(h, w.store, key, w.store.value.sha256))
    ensures var key, content := KeyOf(w.path, w.files[w.path]), w.files[w.path].content;
      Reaches(h, hyp, At(w, c, Inspected(mode, w.path, key)), [Well(c, 0)] + AllAtOnce(content, c),
              At(w, c, Digested(mode, w.path, key, h(content))))
    ensures forall k :: 0 <= k < |AllAtOnce(w.files[w.path].content, c)| ==> StepOf(AllAtOnce(w.files[w.path].content, c)[k], c)
  {
    var f, state := w.path, w.files[w.path];
    var key := KeyOf(f, state);
    var inspected, hashing := At(w, c, Inspected(mode, f, key)), At(w, c, Hashing(mode, f, key, ""));
    var digested := At(w, c, Digested(mode, f, key, h(state.content)));
    AtTwice(w, c, Inspected(mode, f, key), Hashing(mode, f, key, ""));
    assert MovesTo(h, hyp, inspected, Well(c, 0), hashing);
    ReadsAllAtOnce(h, hyp, hashing, c);
    AtTwice(w, c, Hashing(mode, f, key, ""), Digested(mode, f, key, h(state.content)));
    hide Reaches, MovesTo, At, Apply, Enabled;
    FirstOf(h, hyp, inspected, Well(c, 0), hashing, AllAtOnce(state.content, c), digested);
  }

  /** A capture that runs alone ends with the key of the current path and this digest, and changes nothing else. */
  lemma CaptureAlone(h: string -> string, hyp: Hypothesis, w: World, c: nat, mode: Mode) returns (steps: seq<Step>)
    requires c !in w.calls && w.path in w.files
    ensures steps != [] && steps[0] == Capture(c, mode) && forall k :: 0 < k < |steps| ==> StepOf(steps[k], c)
    ensures Reaches(h, hyp, w, steps, At(w, c, Captured(mode, KeyOf(w.path, w.files[w.path]), Found(h, w, mode))))
  {
    var f, content := w.path, w.files[w.path].content;
    var key, sha256 := KeyOf(f, w.files[f]), Found(h, w, mode);
    var inspected, digested := At(w, c, Inspected(mode, f, key)), At(w, c, Digested(mode, f, key, sha256));
    var v := At(w, c, Captured(mode, key, sha256));
    LooksAgain(h, hyp, w, c, mode, sha256);
    var rest := [Well(c, 0)];
    if mode.ObserveOnly? && w.store.Some? && Recorded(h, w.store, key, w.store.value.sha256) {
      FindsRecord(h, hyp, w, c, f, key);
      assert inspected.files == w.files && digested.files == w.files;
      hide Reaches, MovesTo, Found, At, Recorded;
      FirstOf(h, hyp, inspected, Well(c, 0), digested, [Well(c, 0)], v);
    } else {
      Hashes(h, hyp, w, c, mode);
      hide Reaches, MovesTo, Found, At, Recorded, AllAtOnce;
      RunsJoin(h, hyp, inspected, [Well(c, 0)] + AllAtOnce(content, c), digested, [Well(c, 0)], v);
      rest := [Well(c, 0)] + AllAtOnce(content, c);
    }
    OpensAndLooks(h, hyp, w, c, mode, rest + [Well(c, 0)], v);
    steps := [Capture(c, mode)] + ([Well(c, 0)] + (rest + [Well(c, 0)]));
  }

  // ---------------------------------------------------------------- spawning

  /** A spawn attempt opens the path, looks at the open file twice, and goes on to publish and spawn exactly if both times that
      file has the captured metadata, whatever the others do in between. An observer never spawns. */
  lemma SpawnPassesIff(h: string -> string, hyp: Hypothesis, w: World, a: seq<Step>, u: World, b: seq<Step>, v: World, c: nat)
    requires c in w.calls && w.calls[c].Captured? && w.path in w.files
    requires OthersOnly(a, c) && Reaches(h, hyp, Apply(h, w, Well(c, 0)), a, u)
    requires OthersOnly(b, c) && Reaches(h, hyp, Apply(h, u, Well(c, 0)), b, v)
    ensures c in v.calls && w.path in u.files && w.path in v.files
    ensures var key, passed := w.calls[c].before, Publishing(w.calls[c].before, w.calls[c].sha256);
      var end := Apply(h, v, Well(c, 0)).calls[c];
      && (end == passed <==>
            w.calls[c].mode.SpawnCapable? && KeyOf(w.path, u.files[w.path]) == key && KeyOf(w.path, v.files[w.path]) == key)
      && (end == passed || end == Failed)
  {
    var first := Apply(h, w, Well(c, 0));
    OpensThePath(h, w, c);
    RunIgnores(h, hyp, first, a, u, c, first.calls[c]);
    FilesStay(h, hyp, first, a, u, w.path);
    hide Reaches, OthersOnly, Apply, Digesting;
    var second := Apply(h, u, Well(c, 0));
    LooksAtTheFile(h, u, c);
    RunIgnores(h, hyp, second, b, v, c, second.calls[c]);
    FilesStay(h, hyp, second, b, v, w.path);
    LooksAtTheFile(h, v, c);
  }

  lemma OpensThePath(h: string -> string, w: World, c: nat)
    requires c in w.calls && w.calls[c].Captured? && w.path in w.files
    ensures var v := Apply(h, w, Well(c, 0));
      && v.files == w.files && c in v.calls
      && v.calls[c] == if w.calls[c].mode.SpawnCapable? then Spawning(w.path, w.calls[c].before, w.calls[c].sha256) else Failed
  {
  }

  lemma LooksAtTheFile(h: string -> string, w: World, c: nat)
    requires c in w.calls && (w.calls[c].Spawning? || w.calls[c].Looked? || w.calls[c].Failed?)
    ensures var pc, v := w.calls[c], Apply(h, w, Well(c, 0));
      && v.files == w.files && c in v.calls
      && v.calls[c] == if pc.Failed? || KeyIn(w.files, pc.file) != Some(pc.before) then Failed
                       else if pc.Spawning? then Looked(pc.file, pc.before, pc.sha256) else Publishing(pc.before, pc.sha256)
  {
  }

  /** What is then published and spawned is what was captured: the open file holds the content with that digest. */
  lemma SpawnedFileHasTheDigest(h: string -> string, w: World, c: nat, ok: bool, count: nat)
    requires CollisionFree(h) && Reachable(h, Quiet, w) && c in w.calls
    requires var v := Apply(h, w, Advance(c, ok, count)); v.calls[c].Publishing? && !w.calls[c].Publishing?
    ensures var pc := w.calls[c];
      && pc.Looked? && Apply(h, w, Advance(c, ok, count)).calls[c] == Publishing(pc.before, pc.sha256)
      && pc.file in w.files && KeyOf(pc.file, w.files[pc.file]) == pc.before && h(w.files[pc.file].content) == pc.sha256
  {
    var w0, steps :| Init(w0) && Reaches(h, Quiet, w0, steps, w);
    ReachedStatesSatisfyInv(h, w0, steps, w);
    assert PcOk(h, w, w.calls[c]);
    hide Reaches, Reachable, CollisionFree;
    assert w.calls[c].Looked?;
    assert w.calls[c].file in w.files ==> FileOk(w, w.calls[c].file);
  }

  /** Only a publication changes the store, and it records what was captured. */
  lemma StoreRecordsWhatWasCaptured(h: string -> string, w: World, s: Step)
    requires s.Advance? ==> s.call in w.calls
    ensures s.Advance? && s.ok && w.calls[s.call].Publishing? ==>
      Recorded(h, Apply(h, w, s).store, w.calls[s.call].before, w.calls[s.call].sha256)
    ensures Apply(h, w, s).store != w.store ==> s.Advance? && s.ok && w.calls[s.call].Publishing?
  {
  }

  /** After a publication an observer of the unchanged path gets the published digest. */
  lemma PublishedThenObserved(h: string -> string, hyp: Hypothesis, w: World, c: nat, d: nat) returns (steps: seq<Step>)
    requires c in w.calls && w.calls[c].Publishing? && d !in w.calls
    requires w.path in w.files && KeyOf(w.path, w.files[w.path]) == w.calls[c].before
    ensures steps != [] && steps[0] == Capture(d, ObserveOnly) && forall k :: 0 < k < |steps| ==> StepOf(steps[k], d)
    ensures var v := Apply(h, w, Well(c, 0));
      Reaches(h, hyp, v, steps, At(v, d, Captured(ObserveOnly, w.calls[c].before, w.calls[c].sha256)))
  {
    var v := Apply(h, w, Well(c, 0));
    StoreRecordsWhatWasCaptured(h, w, Well(c, 0));
    assert Found(h, v, ObserveOnly) == w.calls[c].sha256;
    hide Reaches, Found;
    steps := CaptureAlone(h, hyp, v, d, ObserveOnly);
  }
}
