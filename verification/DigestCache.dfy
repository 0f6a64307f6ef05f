/** The executable digest cache: capturing an executable's digest, reusing an attested digest in observe-only mode,
    publishing an attestation at spawn, all while the file may be rewritten or replaced. */
module DigestCache {
  import opened Options
  import opened Decimals
  import opened Framing

  /** The unsigned 64-bit numbers of `stat`. */
  type U64 = n: nat | n < 0x1_0000_0000_0000_0000

  datatype FileId = FileId(device: U64, inode: U64)

  datatype FileState = FileState(content: string, writeStamp: nat, changeStamp: nat)

  /** `ExecutableFileIdentity`: what the metadata of an open file says. */
  datatype Key = Key(file: FileId, size: nat, writeStamp: nat, changeStamp: nat)

  function KeyOf(f: FileId, state: FileState): Key {
    Key(f, |state.content|, state.writeStamp, state.changeStamp)
  }

  /** The published record. Its self-digest and the namespace fields are equal for all records of one store. */
  datatype Attestation = Attestation(nativeFileIdentity: string, fileSize: nat, writeStamp: string, changeStamp: string, sha256: string)

  const IDENTITY_TAG := "codestory-unix-executable-file-identity-v1"

  function NativeFileIdentity(h: string -> string, f: FileId): string {
    h(Framed([IDENTITY_TAG, Decimal(f.device), Decimal(f.inode)]))
  }

  function AttestationFor(h: string -> string, key: Key, sha256: string): Attestation {
    Attestation(NativeFileIdentity(h, key.file), key.size, Decimal(key.writeStamp), Decimal(key.changeStamp), sha256)
  }

  /** `read_matching_attestation`: the stored record equals the one rebuilt for the open file. */
  predicate Matches(h: string -> string, a: Attestation, key: Key) {
    a == AttestationFor(h, key, a.sha256)
  }

  datatype Mode = SpawnCapable | ObserveOnly

  datatype Pc =
    | Opened(mode: Mode, file: FileId)
    | Inspected(mode: Mode, file: FileId, before: Key)
    | Hashing(mode: Mode, file: FileId, before: Key, buffer: string)    // fed to the hash so far
    | Digested(mode: Mode, file: FileId, before: Key, sha256: string)
    | Captured(mode: Mode, before: Key, sha256: string)
    | Spawning(file: FileId, before: Key, sha256: string)               // the current path is open
    | Looked(file: FileId, before: Key, sha256: string)                 // and was looked at once
    | Publishing(before: Key, sha256: string)
    | Failed

  datatype World = World(files: map<FileId, FileState>, path: FileId, store: Option<Attestation>, calls: map<nat, Pc>, seen: map<Key, string>)

  datatype Step =
    | Write(file: FileId, state: FileState)
    | Replace(file: FileId)
    | Capture(call: nat, mode: Mode)
    | Advance(call: nat, ok: bool, count: nat)

  /** What is known about metadata. No key ever stands for two contents; under `Quiet`, moreover, a key that was seen
      before does not come back to a file while that file is being digested. */
  datatype Hypothesis = Quiet | NeverOtherContent

  /** Between the two looks at the metadata of `f`. */
  predicate Digesting(pc: Pc, f: FileId) {
    (pc.Hashing? || pc.Digested?) && pc.file == f
  }

  predicate Enabled(hyp: Hypothesis, w: World, s: Step) {
    match s
    case Write(f, state) =>
      var key := KeyOf(f, state);
      key in w.seen ==> w.seen[key] == state.content && (hyp.Quiet? ==> forall c :: c in w.calls ==> !Digesting(w.calls[c], f))
    case Replace(f) => f in w.files
    case Capture(c, _) => c !in w.calls && w.path in w.files
    case Advance(c, _, _) => c in w.calls && !w.calls[c].Failed?
  }

  function At(w: World, c: nat, pc: Pc): World {
    w.(calls := w.calls[c := pc])
  }

  function KeyIn(files: map<FileId, FileState>, f: FileId): Option<Key> {
    if f in files then Some(KeyOf(f, files[f])) else None
  }

  function CurrentKey(w: World, f: FileId): Option<Key> {
    KeyIn(w.files, f)
  }

  function Apply(h: string -> string, w: World, s: Step): World {
    match s
    case Write(f, state) =>
      w.(files := w.files[f := state], seen := w.seen[KeyOf(f, state) := state.content])
    case Replace(f) => w.(path := f)
    case Capture(c, mode) => At(w, c, Opened(mode, w.path))
    case Advance(c, ok, count) => if c in w.calls then AdvanceCall(h, w, c, ok, count) else w
  }

  /** What a read at an offset before the end returns: at least one byte. */
  function Read(content: string, offset: nat, count: nat): string
    requires offset < |content|
  {
    if count == 0 then [content[offset]]
    else if offset + count > |content| then content[offset..]
    else content[offset..offset + count]
  }

  /** Where a call comes, and what the store then holds: `ExactExecutable::capture_path`, then `spawn_exact_current_exe` and
      `publish_attestation`. The file is hashed read by read, each of `count` bytes or what is left, and each of what the file
      holds at that moment; a read that finds nothing more ends it. */
  function Next(h: string -> string, files: map<FileId, FileState>, path: FileId, store: Option<Attestation>, pc: Pc, ok: bool, count: nat)
    : (Pc, Option<Attestation>)
  {
    match pc
    case Opened(mode, f) => (if ok && f in files then Inspected(mode, f, KeyOf(f, files[f])) else Failed, store)
    case Inspected(mode, f, before) =>
      (if mode.ObserveOnly? && ok && store.Some? && Matches(h, store.value, before) then Digested(mode, f, before, store.value.sha256)
       else Hashing(mode, f, before, ""), store)
    case Hashing(mode, f, before, buffer) =>
      (if !ok || f !in files then Failed
       else if |buffer| >= |files[f].content| then Digested(mode, f, before, h(buffer))
       else Hashing(mode, f, before, buffer + Read(files[f].content, |buffer|, count)), store)
    case Digested(mode, f, before, sha256) => (if KeyIn(files, f) == Some(before) then Captured(mode, before, sha256) else Failed, store)
    case Captured(mode, before, sha256) =>
      (if ok && mode.SpawnCapable? && path in files then Spawning(path, before, sha256) else Failed, store)
    case Spawning(f, before, sha256) => (if ok && KeyIn(files, f) == Some(before) then Looked(f, before, sha256) else Failed, store)
    case Looked(f, before, sha256) => (if ok && KeyIn(files, f) == Some(before) then Publishing(before, sha256) else Failed, store)
    case Publishing(before, sha256) => (Captured(SpawnCapable, before, sha256), if ok then Some(AttestationFor(h, before, sha256)) else store)
    case Failed => (Failed, store)
  }

  function AdvanceCall(h: string -> string, w: World, c: nat, ok: bool, count: nat): World
    requires c in w.calls
  {
    var (pc, store) := Next(h, w.files, w.path, w.store, w.calls[c], ok, count);
    At(w.(store := store), c, pc)
  }

  /** No attestation yet, nobody running, and the history knows every file. */
  ghost predicate Init(w: World) {
    && w.store.None? && w.calls == map[]
    && forall f :: f in w.files ==> KeyOf(f, w.files[f]) in w.seen && w.seen[KeyOf(f, w.files[f])] == w.files[f].content
  }

  ghost predicate Reaches(h: string -> string, hyp: Hypothesis, w: World, steps: seq<Step>, v: World)
    decreases |steps|
  {
    if steps == [] then w == v
    else Enabled(hyp, w, steps[0]) && Reaches(h, hyp, Apply(h, w, steps[0]), steps[1..], v)
  }

  // ---------------------------------------------------------------- the invariant

  /** The digest is the hash of the content the key stood for. */
  ghost predicate Right(h: string -> string, w: World, key: Key, sha256: string) {
    key in w.seen && sha256 == h(w.seen[key])
  }

  ghost predicate FileOk(w: World, f: FileId)
    requires f in w.files
  {
    KeyOf(f, w.files[f]) in w.seen && w.seen[KeyOf(f, w.files[f])] == w.files[f].content
  }

  ghost predicate PcOk(h: string -> string, w: World, pc: Pc) {
    match pc
    case Opened(_, _) => true
    case Inspected(_, f, before) => before in w.seen && before.file == f
    case Hashing(_, f, before, buffer) =>
      before in w.seen && before.file == f && (CurrentKey(w, f) == Some(before) ==> buffer <= w.files[f].content)
    case Digested(_, f, before, sha256) =>
      before in w.seen && before.file == f && (Right(h, w, before, sha256) || CurrentKey(w, f) != Some(before))
    case Captured(_, before, sha256) => Right(h, w, before, sha256)
    case Spawning(_, before, sha256) => Right(h, w, before, sha256)
    case Looked(f, before, sha256) => Right(h, w, before, sha256) && before.file == f
    case Publishing(before, sha256) => Right(h, w, before, sha256)
    case Failed => true
  }

  ghost predicate StoreOk(h: string -> string, w: World) {
    w.store.Some? ==> exists key, sha256 :: w.store.value == AttestationFor(h, key, sha256) && Right(h, w, key, sha256)
  }

  ghost predicate Inv(h: string -> string, w: World) {
    && (forall f :: f in w.files ==> FileOk(w, f))
    && (forall c :: c in w.calls ==> PcOk(h, w, w.calls[c]))
    && StoreOk(h, w)
  }

  lemma {:induction false} DecimalIsShort(n: nat)
    ensures |Decimal(n)| <= n + 1
  {
    if n >= 10 {
      DecimalIsShort(n / 10);
    }
  }

  lemma IdentityIsFramable(f: FileId)
    ensures Framable([IDENTITY_TAG, Decimal(f.device), Decimal(f.inode)])
  {
    DecimalIsShort(f.device / 10);
    DecimalIsShort(f.inode / 10);
    assert Power256(8) == 256 * 256 * 256 * 256 * 256 * 256 * 256 * 256 by {
      assert Power256(4) == 256 * 256 * 256 * 256;
    }
  }

  /** A record only matches the key it was made for. */
  lemma MatchingRecordIsOfThisKey(h: string -> string, key: Key, other: Key, sha256: string)
    requires CollisionFree(h)
    ensures Matches(h, AttestationFor(h, other, sha256), key) <==> key == other
  {
    if Matches(h, AttestationFor(h, other, sha256), key) {
      var a := [IDENTITY_TAG, Decimal(key.file.device), Decimal(key.file.inode)];
      var b := [IDENTITY_TAG, Decimal(other.file.device), Decimal(other.file.inode)];
      assert h(Framed(a)) == h(Framed(b));
      IdentityIsFramable(key.file);
      IdentityIsFramable(other.file);
      FramedInjective(a, b);
      assert a[1] == b[1] && a[2] == b[2];
      DecimalInjective(key.file.device, other.file.device);
      DecimalInjective(key.file.inode, other.file.inode);
      DecimalInjective(key.writeStamp, other.writeStamp);
      DecimalInjective(key.changeStamp, other.changeStamp);
    }
  }

  /** An attested digest is right for the file that was inspected. */
  lemma AttestedDigestIsRight(h: string -> string, w: World, key: Key)
    requires CollisionFree(h) && StoreOk(h, w)
    requires w.store.Some? && Matches(h, w.store.value, key)
    ensures Right(h, w, key, w.store.value.sha256)
  {
    var other, sha256 :| w.store.value == AttestationFor(h, other, sha256) && Right(h, w, other, sha256);
    MatchingRecordIsOfThisKey(h, key, other, sha256);
  }

  lemma WriteKeepsInv(h: string -> string, w: World, f: FileId, state: FileState)
    requires Inv(h, w) && Enabled(Quiet, w, Write(f, state))
    ensures Inv(h, Apply(h, w, Write(f, state)))
  {
    var key, v := KeyOf(f, state), Apply(h, w, Write(f, state));
    forall g | g in v.files
      ensures FileOk(v, g)
    {
      assert g != f ==> FileOk(w, g);
    }
    forall c | c in v.calls
      ensures PcOk(h, v, v.calls[c])
    {
      assert PcOk(h, w, w.calls[c]);
    }
    if w.store.Some? {
      var other, sha256 :| w.store.value == AttestationFor(h, other, sha256) && Right(h, w, other, sha256);
      assert Right(h, v, other, sha256);
    }
  }

  /** A read behind a prefix makes a longer prefix; a prefix that is not shorter is the whole. */
  lemma ReadContinues(content: string, buffer: string, count: nat)
    ensures buffer <= content && |buffer| < |content| ==> buffer + Read(content, |buffer|, count) <= content
    ensures buffer <= content && |buffer| >= |content| ==> buffer == content
  {
  }

  /** The advancing call's own state and the store stay right. */
  lemma AdvanceIsRight(h: string -> string, w: World, c: nat, ok: bool, count: nat)
    requires CollisionFree(h) && Inv(h, w) && Enabled(Quiet, w, Advance(c, ok, count))
    ensures var v := AdvanceCall(h, w, c, ok, count);
      PcOk(h, v, v.calls[c]) && StoreOk(h, v)
  {
    var pc, v := w.calls[c], AdvanceCall(h, w, c, ok, count);
    assert PcOk(h, w, pc);
    match pc
    case Opened(_, f) =>
      assert f in w.files ==> FileOk(w, f);
      SameStore(h, w, v);
    case Inspected(_, f, before) =>
      if w.store.Some? && Matches(h, w.store.value, before) {
        AttestedDigestIsRight(h, w, before);
      }
      SameStore(h, w, v);
    case Hashing(_, f, _, buffer) =>
      if f in w.files {
        assert FileOk(w, f);
        ReadContinues(w.files[f].content, buffer, count);
      }
      SameStore(h, w, v);
    case Digested(_, _, _, _) => SameStore(h, w, v);
    case Captured(_, _, _) => SameStore(h, w, v);
    case Spawning(_, _, _) => SameStore(h, w, v);
    case Looked(_, _, _) => SameStore(h, w, v);
    case Publishing(before, sha256) =>
      if ok {
        assert v.store.value == AttestationFor(h, before, sha256) && Right(h, v, before, sha256);
      } else {
        SameStore(h, w, v);
      }
  }

  /** An advancing call changes its own state and the store, nothing else. */
  lemma AdvanceFrame(h: string -> string, w: World, c: nat, ok: bool, count: nat)
    requires c in w.calls
    ensures var v := AdvanceCall(h, w, c, ok, count);
      v.files == w.files && v.seen == w.seen && v.calls.Keys == w.calls.Keys && (forall d :: d in w.calls && d != c ==> v.calls[d] == w.calls[d])
  {
    match w.calls[c]
    case Opened(_, _) =>
    case Inspected(_, _, _) =>
    case Hashing(_, _, _, _) =>
    case Digested(_, _, _, _) =>
    case Captured(_, _, _) =>
    case Spawning(_, _, _) =>
    case Looked(_, _, _) =>
    case Publishing(_, _) =>
    case Failed =>
  }

  lemma OthersKeepInv(h: string -> string, w: World, v: World, c: nat)
    requires Inv(h, w) && v.files == w.files && v.seen == w.seen && v.calls.Keys == w.calls.Keys && c in w.calls
    requires forall d :: d in w.calls && d != c ==> v.calls[d] == w.calls[d]
    requires PcOk(h, v, v.calls[c]) && StoreOk(h, v)
    ensures Inv(h, v)
  {
    forall f | f in v.files
      ensures FileOk(v, f)
    {
      assert FileOk(w, f);
    }
    forall d | d in v.calls
      ensures PcOk(h, v, v.calls[d])
    {
      assert d != c ==> PcOk(h, w, w.calls[d]);
    }
  }

  lemma AdvanceKeepsInv(h: string -> string, w: World, c: nat, ok: bool, count: nat)
    requires CollisionFree(h) && Inv(h, w) && Enabled(Quiet, w, Advance(c, ok, count))
    ensures Inv(h, AdvanceCall(h, w, c, ok, count))
  {
    AdvanceIsRight(h, w, c, ok, count);
    AdvanceFrame(h, w, c, ok, count);
    OthersKeepInv(h, w, AdvanceCall(h, w, c, ok, count), c);
  }

  lemma StepKeepsInv(h: string -> string, w: World, s: Step)
    requires CollisionFree(h) && Inv(h, w) && Enabled(Quiet, w, s)
    ensures Inv(h, Apply(h, w, s))
  {
    match s
    case Write(f, state) => WriteKeepsInv(h, w, f, state);
    case Advance(c, ok, count) => AdvanceKeepsInv(h, w, c, ok, count);
    case Replace(f) =>
      var v := Apply(h, w, s);
      assert forall f :: f in v.files ==> FileOk(w, f);
      assert forall c :: c in v.calls ==> PcOk(h, w, v.calls[c]) && PcOk(h, v, v.calls[c]);
      assert StoreOk(h, w) ==> StoreOk(h, v) by { SameStore(h, w, v); }
    case Capture(c, mode) =>
      var v := Apply(h, w, s);
      assert forall f :: f in v.files ==> FileOk(w, f);
      assert forall d :: d in w.calls ==> PcOk(h, w, w.calls[d]) && PcOk(h, v, w.calls[d]);
      SameStore(h, w, v);
  }

  lemma SameStore(h: string -> string, w: World, v: World)
    requires StoreOk(h, w) && v.store == w.store && v.seen == w.seen
    ensures StoreOk(h, v)
  {
    if w.store.Some? {
      var key, sha256 :| w.store.value == AttestationFor(h, key, sha256) && Right(h, w, key, sha256);
      assert Right(h, v, key, sha256);
    }
  }

  lemma {:induction false} ReachedStatesSatisfyInv(h: string -> string, w: World, steps: seq<Step>, v: World)
    requires CollisionFree(h) && Inv(h, w) && Reaches(h, Quiet, w, steps, v)
    ensures Inv(h, v)
    decreases |steps|
  {
    if steps != [] {
      StepKeepsInv(h, w, steps[0]);
      ReachedStatesSatisfyInv(h, Apply(h, w, steps[0]), steps[1..], v);
    }
  }

  // ---------------------------------------------------------------- the theorems

  ghost predicate Reachable(h: string -> string, hyp: Hypothesis, v: World) {
    exists w, steps :: Init(w) && Reaches(h, hyp, w, steps, v)
  }

  /** `step` lets call `c` return a digest for the file it opened. */
  predicate Returns(h: string -> string, w: World, c: nat, step: Step) {
    && c in w.calls && step.Advance? && step.call == c && w.calls[c].Digested?
    && c in Apply(h, w, step).calls && Apply(h, w, step).calls[c].Captured?
  }

  /** The content whose digest call `c` claims to know. */
  predicate ReturnsTheHash(h: string -> string, w: World, c: nat)
    requires c in w.calls && w.calls[c].Digested?
  {
    var pc := w.calls[c];
    pc.file in w.files && pc.sha256 == h(w.files[pc.file].content)
  }

  /** Whether hashed now or read from the store, a digest that a capture returns is the hash of what the file holds when
      the capture returns. */
  lemma ReturnedDigestIsTheHash(h: string -> string, w: World, c: nat, step: Step)
    requires CollisionFree(h) && Reachable(h, Quiet, w) && Enabled(Quiet, w, step) && Returns(h, w, c, step)
    ensures ReturnsTheHash(h, w, c)
  {
    var w0, steps :| Init(w0) && Reaches(h, Quiet, w0, steps, w);
    ReachedStatesSatisfyInv(h, w0, steps, w);
    assert PcOk(h, w, w.calls[c]);
    assert FileOk(w, w.calls[c].file);
  }

  /** Reading the store gives what hashing the file afresh would give. */
  lemma CacheAgreesWithAFreshHash(h: string -> string, w: World, f: FileId)
    requires CollisionFree(h) && Reachable(h, Quiet, w)
    requires w.store.Some? && f in w.files && Matches(h, w.store.value, KeyOf(f, w.files[f]))
    ensures w.store.value.sha256 == h(w.files[f].content)
  {
    var w0, steps :| Init(w0) && Reaches(h, Quiet, w0, steps, w);
    ReachedStatesSatisfyInv(h, w0, steps, w);
    AttestedDigestIsRight(h, w, KeyOf(f, w.files[f]));
    assert FileOk(w, f);
  }

  // ---------------------------------------------------------------- stamps that come back

  const EXE := FileId(1, 1)
  const FIRST := FileState("a", 1, 1)
  const SECOND := FileState("b", 2, 2)
  const FIRST_KEY := Key(EXE, 1, 1, 1)

  function Start(): World {
    World(map[EXE := FIRST], EXE, None, map[], map[FIRST_KEY := "a"])
  }

  /** The file holds its second content, and the one call is in `pc`. */
  function Between(pc: Pc): World {
    World(map[EXE := SECOND], EXE, None, map[0 := pc], map[FIRST_KEY := "a", Key(EXE, 1, 2, 2) := "b"])
  }

  function PutBack(pc: Pc): World {
    Between(pc).(files := map[EXE := FIRST])
  }

  ghost predicate Moves(h: string -> string, w: World, s: Step, v: World) {
    Enabled(NeverOtherContent, w, s) && Apply(h, w, s) == v
  }

  function Calling(pc: Pc): World {
    Start().(calls := map[0 := pc])
  }

  lemma BeginsToHash(h: string -> string)
    ensures Moves(h, Start(), Capture(0, SpawnCapable), Calling(Opened(SpawnCapable, EXE)))
    ensures Moves(h, Calling(Opened(SpawnCapable, EXE)), Go(0), Calling(Inspected(SpawnCapable, EXE, FIRST_KEY)))
    ensures Moves(h, Calling(Inspected(SpawnCapable, EXE, FIRST_KEY)), Go(0), Calling(Hashing(SpawnCapable, EXE, FIRST_KEY, "")))
  {
  }

  lemma ReadsTheWrongText(h: string -> string)
    ensures Moves(h, Calling(Hashing(SpawnCapable, EXE, FIRST_KEY, "")), Write(EXE, SECOND), Between(Hashing(SpawnCapable, EXE, FIRST_KEY, "")))
    ensures Moves(h, Between(Hashing(SpawnCapable, EXE, FIRST_KEY, "")), Go(0), Between(Hashing(SpawnCapable, EXE, FIRST_KEY, "b")))
  {
    assert Read("b", 0, 1) == "b" && "" + "b" == "b";
  }

  lemma PutsBack(h: string -> string)
    ensures Moves(h, Between(Hashing(SpawnCapable, EXE, FIRST_KEY, "b")), Write(EXE, FIRST), PutBack(Hashing(SpawnCapable, EXE, FIRST_KEY, "b")))
    ensures Moves(h, PutBack(Hashing(SpawnCapable, EXE, FIRST_KEY, "b")), Go(0), PutBack(Digested(SpawnCapable, EXE, FIRST_KEY, h("b"))))
  {
  }

  lemma RestoringRun(h: string -> string)
    ensures Reachable(h, NeverOtherContent, PutBack(Digested(SpawnCapable, EXE, FIRST_KEY, h("b"))))
  {
    hide Moves, Reaches, Reachable;
    var v := PutBack(Digested(SpawnCapable, EXE, FIRST_KEY, h("b")));
    BeginsToHash(h);
    ReadsTheWrongText(h);
    PutsBack(h);
    NoSteps(h, v);
    StepFirst(h, PutBack(Hashing(SpawnCapable, EXE, FIRST_KEY, "b")), Go(0), v, [], v);
    StepFirst(h, Between(Hashing(SpawnCapable, EXE, FIRST_KEY, "b")), Write(EXE, FIRST), PutBack(Hashing(SpawnCapable, EXE, FIRST_KEY, "b")), [Go(0)] + [], v);
    var late := [Write(EXE, FIRST)] + ([Go(0)] + []);
    StepFirst(h, Between(Hashing(SpawnCapable, EXE, FIRST_KEY, "")), Go(0), Between(Hashing(SpawnCapable, EXE, FIRST_KEY, "b")), late, v);
    StepFirst(h, Calling(Hashing(SpawnCapable, EXE, FIRST_KEY, "")), Write(EXE, SECOND), Between(Hashing(SpawnCapable, EXE, FIRST_KEY, "")), [Go(0)] + late, v);
    var reading := [Write(EXE, SECOND)] + ([Go(0)] + late);
    StepFirst(h, Calling(Inspected(SpawnCapable, EXE, FIRST_KEY)), Go(0), Calling(Hashing(SpawnCapable, EXE, FIRST_KEY, "")), reading, v);
    StepFirst(h, Calling(Opened(SpawnCapable, EXE)), Go(0), Calling(Inspected(SpawnCapable, EXE, FIRST_KEY)), [Go(0)] + reading, v);
    StepFirst(h, Start(), Capture(0, SpawnCapable), Calling(Opened(SpawnCapable, EXE)), [Go(0)] + ([Go(0)] + reading), v);
    ReachedFromStart(h, [Capture(0, SpawnCapable)] + ([Go(0)] + ([Go(0)] + reading)), v);
  }

  lemma NoSteps(h: string -> string, w: World)
    ensures Reaches(h, NeverOtherContent, w, [], w)
  {
  }

  lemma ReachedFromStart(h: string -> string, steps: seq<Step>, v: World)
    requires Reaches(h, NeverOtherContent, Start(), steps, v)
    ensures Reachable(h, NeverOtherContent, v)
  {
    assert Init(Start());
  }

  function Go(c: nat): Step {
    Advance(c, true, 1)
  }

  lemma StepFirst(h: string -> string, w: World, s: Step, u: World, steps: seq<Step>, v: World)
    requires Moves(h, w, s, u) && Reaches(h, NeverOtherContent, u, steps, v)
    ensures Reaches(h, NeverOtherContent, w, [s] + steps, v)
  {
    assert ([s] + steps)[1..] == steps;
  }

  /** It is not enough that stamps never stand for two contents: when a file is rewritten and then put back, stamps
      included, while it is hashed, the capture returns the digest of what it held in between. */
  lemma RestoredStampsBreakTheDigest(h: string -> string)
    requires h("a") != h("b")
    ensures exists w, step ::
      Reachable(h, NeverOtherContent, w) && Enabled(NeverOtherContent, w, step) && Returns(h, w, 0, step) && !ReturnsTheHash(h, w, 0)
  {
    var w := PutBack(Digested(SpawnCapable, EXE, FIRST_KEY, h("b")));
    RestoringRun(h);
    hide Reachable;
    assert Enabled(NeverOtherContent, w, Go(0)) && Returns(h, w, 0, Go(0)) && !ReturnsTheHash(h, w, 0);
  }

  // ---------------------------------------------------------------- exactly when a capture is certain to be right

  predicate StepOf(s: Step, c: nat) {
    s.Advance? && s.call == c
  }

  /** Everybody else's steps, in their order. */
  function Others(steps: seq<Step>, c: nat): seq<Step> {
    if steps == [] then [] else (if StepOf(steps[0], c) then [] else [steps[0]]) + Others(steps[1..], c)
  }

  ghost predicate OthersOnly(steps: seq<Step>, c: nat) {
    forall k :: 0 <= k < |steps| ==> !StepOf(steps[k], c)
  }

  /** No step writes other content to the file. */
  ghost predicate ContentKept(steps: seq<Step>, f: FileId, content: string) {
    forall k :: 0 <= k < |steps| && steps[k].Write? && steps[k].file == f ==> steps[k].state.content == content
  }

  /** However the reads of call `c` fall between the others' steps: when they are done, the digest is the hash of what the
      file then holds. */
  ghost predicate Certain(h: string -> string, hyp: Hypothesis, w: World, others: seq<Step>, c: nat) {
    forall steps, v ::
      Others(steps, c) == others && Reaches(h, hyp, w, steps, v) && c in v.calls && v.calls[c].Digested? ==> ReturnsTheHash(h, v, c)
  }

  // If the content is kept, every read continues the same text.

  ghost predicate OnTrack(h: string -> string, w: World, c: nat, f: FileId, content: string) {
    && c in w.calls && f in w.files && w.files[f].content == content
    && match w.calls[c]
       case Opened(_, _) => false
       case Inspected(_, _, _) => false
       case Hashing(_, g, _, buffer) => g == f && buffer <= content
       case Digested(_, g, _, sha256) => g == f && sha256 == h(content)
       case _ => true
  }

  lemma StepOnTrack(h: string -> string, hyp: Hypothesis, w: World, s: Step, c: nat, f: FileId, content: string)
    requires OnTrack(h, w, c, f, content) && Enabled(hyp, w, s)
    requires s.Write? && s.file == f ==> s.state.content == content
    ensures OnTrack(h, Apply(h, w, s), c, f, content)
  {
    if StepOf(s, c) && w.calls[c].Hashing? {
      ReadContinues(content, w.calls[c].buffer, s.count);
    }
  }

  lemma KeptFirst(steps: seq<Step>, c: nat, f: FileId, content: string)
    requires steps != [] && ContentKept(Others(steps, c), f, content)
    ensures steps[0].Write? && steps[0].file == f ==> steps[0].state.content == content
    ensures ContentKept(Others(steps[1..], c), f, content)
  {
    var all, rest := Others(steps, c), Others(steps[1..], c);
    if StepOf(steps[0], c) {
      assert all == rest;
    } else {
      assert all[0] == steps[0];
      assert forall k :: 0 <= k < |rest| ==> rest[k] == all[k + 1];
    }
  }

  lemma {:induction false} RunOnTrack(h: string -> string, hyp: Hypothesis, w: World, steps: seq<Step>, v: World, c: nat, f: FileId, content: string)
    requires OnTrack(h, w, c, f, content) && Reaches(h, hyp, w, steps, v) && ContentKept(Others(steps, c), f, content)
    ensures OnTrack(h, v, c, f, content)
    decreases |steps|
  {
    if steps != [] {
      KeptFirst(steps, c, f, content);
      hide OnTrack, Apply, ContentKept, Others, Enabled;
      StepOnTrack(h, hyp, w, steps[0], c, f, content);
      RunOnTrack(h, hyp, Apply(h, w, steps[0]), steps[1..], v, c, f, content);
    }
  }

  // A run without the call's own steps can take them all in at any moment.

  /** Nobody else's step sees how far a capture of `f` is between its two looks at the metadata. */
  lemma StepIgnores(h: string -> string, hyp: Hypothesis, w: World, s: Step, c: nat, pc: Pc)
    requires Enabled(hyp, w, s) && !StepOf(s, c) && c in w.calls && (forall f :: Digesting(pc, f) <==> Digesting(w.calls[c], f))
    ensures Enabled(hyp, At(w, c, pc), s) && Apply(h, At(w, c, pc), s) == At(Apply(h, w, s), c, pc)
    ensures c in Apply(h, w, s).calls && Apply(h, w, s).calls[c] == w.calls[c]
  {
    if s.Capture? {
      assert w.calls[c := pc][s.call := Opened(s.mode, w.path)] == w.calls[s.call := Opened(s.mode, w.path)][c := pc];
    }
    if s.Advance? {
      AdvanceIgnores(h, w, s.call, s.ok, s.count, c, pc);
    }
  }

  lemma AdvanceIgnores(h: string -> string, w: World, d: nat, ok: bool, count: nat, c: nat, pc: Pc)
    requires c in w.calls && d in w.calls && c != d
    ensures AdvanceCall(h, At(w, c, pc), d, ok, count) == At(AdvanceCall(h, w, d, ok, count), c, pc)
    ensures c in AdvanceCall(h, w, d, ok, count).calls && AdvanceCall(h, w, d, ok, count).calls[c] == w.calls[c]
  {
    hide Next;
    var next := Next(h, w.files, w.path, w.store, w.calls[d], ok, count).0;
    assert w.calls[c := pc][d := next] == w.calls[d := next][c := pc];
  }

  lemma {:induction false} RunIgnores(h: string -> string, hyp: Hypothesis, w: World, steps: seq<Step>, v: World, c: nat, pc: Pc)
    requires Reaches(h, hyp, w, steps, v) && OthersOnly(steps, c) && c in w.calls
    requires forall f :: Digesting(pc, f) <==> Digesting(w.calls[c], f)
    ensures Reaches(h, hyp, At(w, c, pc), steps, At(v, c, pc)) && c in v.calls && v.calls[c] == w.calls[c]
    decreases |steps|
  {
    if steps != [] {
      StepIgnores(h, hyp, w, steps[0], c, pc);
      TailOthersOnly(steps, c);
      hide Apply, Enabled, At, Digesting;
      RunIgnores(h, hyp, Apply(h, w, steps[0]), steps[1..], v, c, pc);
    }
  }

  lemma {:induction false} RunsJoin(h: string -> string, hyp: Hypothesis, u: World, a: seq<Step>, v: World, b: seq<Step>, w: World)
    requires Reaches(h, hyp, u, a, v) && Reaches(h, hyp, v, b, w)
    ensures Reaches(h, hyp, u, a + b, w)
    decreases |a|
  {
    if a == [] {
      assert a + b == b;
    } else {
      assert (a + b)[1..] == a[1..] + b;
      RunsJoin(h, hyp, Apply(h, u, a[0]), a[1..], v, b, w);
    }
  }

  lemma {:induction false} RunSplits(h: string -> string, hyp: Hypothesis, u: World, steps: seq<Step>, w: World, k: nat) returns (v: World)
    requires Reaches(h, hyp, u, steps, w) && k <= |steps|
    ensures Reaches(h, hyp, u, steps[..k], v) && Reaches(h, hyp, v, steps[k..], w)
    decreases |steps|
  {
    if k == 0 {
      v := u;
      assert steps[..0] == [] && steps[0..] == steps;
    } else {
      v := RunSplits(h, hyp, Apply(h, u, steps[0]), steps[1..], w, k - 1);
      assert steps[..k][1..] == steps[1..][..k - 1] && steps[1..][k - 1..] == steps[k..];
    }
  }

  lemma OthersCons(s: Step, steps: seq<Step>, c: nat)
    ensures Others([s] + steps, c) == if StepOf(s, c) then Others(steps, c) else [s] + Others(steps, c)
  {
    assert ([s] + steps)[1..] == steps;
  }

  lemma TailOthersOnly(steps: seq<Step>, c: nat)
    requires OthersOnly(steps, c) && steps != []
    ensures OthersOnly(steps[1..], c) && !StepOf(steps[0], c)
  {
    assert forall k :: 0 <= k < |steps[1..]| ==> steps[1..][k] == steps[k + 1];
  }

  lemma {:induction false} OthersOfOthers(steps: seq<Step>, more: seq<Step>, c: nat)
    requires OthersOnly(steps, c)
    ensures Others(steps + more, c) == steps + Others(more, c)
  {
    hide Others, OthersOnly;
    if steps == [] {
      assert steps + more == more;
    } else {
      TailOthersOnly(steps, c);
      OthersOfOthers(steps[1..], more, c);
      OthersCons(steps[0], steps[1..] + more, c);
      assert steps + more == [steps[0]] + (steps[1..] + more);
      assert steps + Others(more, c) == [steps[0]] + (steps[1..] + Others(more, c));
    }
  }

  function AllAtOnce(content: string, c: nat): seq<Step> {
    if content == "" then [Advance(c, true, 0)] else [Advance(c, true, |content|), Advance(c, true, 0)]
  }

  /** All reads in a row: the digest is the hash of what the file holds at that moment. */
  lemma ReadsAllAtOnce(h: string -> string, hyp: Hypothesis, w: World, c: nat)
    requires c in w.calls && w.calls[c].Hashing? && w.calls[c].buffer == "" && w.calls[c].file in w.files
    ensures var pc, content := w.calls[c], w.files[w.calls[c].file].content;
      && Reaches(h, hyp, w, AllAtOnce(content, c), At(w, c, Digested(pc.mode, pc.file, pc.before, h(content))))
      && Others(AllAtOnce(content, c), c) == []
  {
    var pc, content := w.calls[c], w.files[w.calls[c].file].content;
    var done := Advance(c, true, 0);
    var u := At(w, c, pc.(buffer := content));
    var v := At(w, c, Digested(pc.mode, pc.file, pc.before, h(content)));
    assert w.calls[c := u.calls[c]][c := v.calls[c]] == w.calls[c := v.calls[c]];
    assert [done][1..] == [] && Others([], c) == [];
    assert Reaches(h, hyp, v, [], v);
    if content == "" {
      assert Apply(h, w, done) == v;
    } else {
      var read := Advance(c, true, |content|);
      assert "" + Read(content, 0, |content|) == content;
      assert Apply(h, w, read) == u && Apply(h, u, done) == v;
      assert [read, done][1..] == [done];
      assert Reaches(h, hyp, u, [done], v);
    }
  }

  /** The others go on for `k` steps, then the call reads everything, then the others finish. */
  lemma ReadsAfter(h: string -> string, hyp: Hypothesis, w: World, others: seq<Step>, u: World, c: nat, k: nat) returns (steps: seq<Step>, mid: World)
    requires c in w.calls && w.calls[c].Hashing? && w.calls[c].buffer == "" && w.calls[c].file in w.files
    requires OthersOnly(others, c) && Reaches(h, hyp, w, others, u) && k <= |others|
    ensures Reaches(h, hyp, w, others[..k], mid) && w.calls[c].file in mid.files && Others(steps, c) == others
    ensures var pc := w.calls[c];
      Reaches(h, hyp, w, steps, At(u, c, Digested(pc.mode, pc.file, pc.before, h(mid.files[pc.file].content))))
  {
    mid := RunSplits(h, hyp, w, others, u, k);
    var pc, front, back := w.calls[c], others[..k], others[k..];
    assert OthersOnly(front, c) && OthersOnly(back, c) && front + back == others;
    RunIgnores(h, hyp, w, front, mid, c, pc);
    FilesStay(h, hyp, w, front, mid, pc.file);
    steps := front + (AllAtOnce(mid.files[pc.file].content, c) + back);
    ReadsThenOthers(h, hyp, mid, back, u, c);
    ReadsVanish(mid.files[pc.file].content, back, c);
    hide Reaches, AllAtOnce, OthersOnly, At;
    RunsJoin(h, hyp, w, front, mid, AllAtOnce(mid.files[pc.file].content, c) + back, At(u, c, Digested(pc.mode, pc.file, pc.before, h(mid.files[pc.file].content))));
    OthersOfOthers(back, [], c);
    OthersOfOthers(front, AllAtOnce(mid.files[pc.file].content, c) + back, c);
    assert back + [] == back && Others([], c) == [];
  }

  lemma ReadsThenOthers(h: string -> string, hyp: Hypothesis, mid: World, back: seq<Step>, u: World, c: nat)
    requires c in mid.calls && mid.calls[c].Hashing? && mid.calls[c].buffer == "" && mid.calls[c].file in mid.files
    requires OthersOnly(back, c) && Reaches(h, hyp, mid, back, u)
    ensures var pc, content := mid.calls[c], mid.files[mid.calls[c].file].content;
      Reaches(h, hyp, mid, AllAtOnce(content, c) + back, At(u, c, Digested(pc.mode, pc.file, pc.before, h(content))))
  {
    var pc, content := mid.calls[c], mid.files[mid.calls[c].file].content;
    var done := Digested(pc.mode, pc.file, pc.before, h(content));
    ReadsAllAtOnce(h, hyp, mid, c);
    RunIgnores(h, hyp, mid, back, u, c, done);
    RunsJoin(h, hyp, mid, AllAtOnce(content, c), At(mid, c, done), back, At(u, c, done));
  }

  lemma ReadsVanish(content: string, back: seq<Step>, c: nat)
    ensures Others(AllAtOnce(content, c) + back, c) == Others(back, c)
  {
    var first, last := Advance(c, true, |content|), Advance(c, true, 0);
    OthersCons(last, back, c);
    hide Others;
    if content == "" {
      assert AllAtOnce(content, c) + back == [last] + back;
    } else {
      OthersCons(first, [last] + back, c);
      assert AllAtOnce(content, c) + back == [first] + ([last] + back);
    }
  }

  lemma {:induction false} FilesStay(h: string -> string, hyp: Hypothesis, w: World, steps: seq<Step>, v: World, f: FileId)
    requires Reaches(h, hyp, w, steps, v) && f in w.files
    ensures f in v.files
    decreases |steps|
  {
    if steps != [] {
      FilesStay(h, hyp, Apply(h, w, steps[0]), steps[1..], v, f);
    }
  }

  lemma LastWriteStands(h: string -> string, hyp: Hypothesis, w: World, steps: seq<Step>, v: World)
    requires Reaches(h, hyp, w, steps, v) && steps != [] && steps[|steps| - 1].Write?
    ensures var s := steps[|steps| - 1]; s.file in v.files && v.files[s.file] == s.state
  {
    var last := |steps| - 1;
    var u := RunSplits(h, hyp, w, steps, v, last);
    assert steps[last..] == [steps[last]] && [steps[last]][1..] == [];
  }

  /** A call begins to read, and others do what they do until the capture looks at the file again. Wherever the reads fall, the
      digest is certain to be the hash of what the file then holds exactly if nobody wrote other content meanwhile. Writing
      the same bytes does no harm; writing others does, even if they are taken back. */
  lemma CertainIffContentKept(h: string -> string, hyp: Hypothesis, w: World, others: seq<Step>, u: World, c: nat)
    requires CollisionFree(h) && c in w.calls && w.calls[c].Hashing? && w.calls[c].buffer == "" && w.calls[c].file in w.files
    requires OthersOnly(others, c) && Reaches(h, hyp, w, others, u)
    ensures Certain(h, hyp, w, others, c) <==> ContentKept(others, w.calls[c].file, w.files[w.calls[c].file].content)
  {
    var f, content := w.calls[c].file, w.files[w.calls[c].file].content;
    if ContentKept(others, f, content) {
      forall steps, v | Others(steps, c) == others && Reaches(h, hyp, w, steps, v) && c in v.calls && v.calls[c].Digested?
        ensures ReturnsTheHash(h, v, c)
      {
        RunOnTrack(h, hyp, w, steps, v, c, f, content);
      }
    } else {
      var k :| 0 <= k < |others| && others[k].Write? && others[k].file == f && others[k].state.content != content;
      NotCertain(h, hyp, w, others, u, c, k);
    }
  }

  lemma NotCertain(h: string -> string, hyp: Hypothesis, w: World, others: seq<Step>, u: World, c: nat, k: nat)
    requires CollisionFree(h) && c in w.calls && w.calls[c].Hashing? && w.calls[c].buffer == "" && w.calls[c].file in w.files
    requires OthersOnly(others, c) && Reaches(h, hyp, w, others, u)
    requires k < |others| && others[k].Write? && others[k].file == w.calls[c].file
    requires others[k].state.content != w.files[w.calls[c].file].content
    ensures !Certain(h, hyp, w, others, c)
  {
    hide Reaches, Others, Certain, CollisionFree, OthersOnly;
    var f := w.calls[c].file;
    var early, start := ReadsAfter(h, hyp, w, others, u, c, 0);
    var late, mid := ReadsAfter(h, hyp, w, others, u, c, k + 1);
    assert others[..0] == [];
    NothingHappened(h, hyp, w, start);
    LastWriteStands(h, hyp, w, others[..k + 1], mid);
    FilesStay(h, hyp, w, others, u, f);
    if u.files[f].content == w.files[f].content {
      WrongDigest(h, hyp, w, others, late, u, c, f, mid.files[f].content);
    } else {
      WrongDigest(h, hyp, w, others, early, u, c, f, w.files[f].content);
    }
  }

  lemma NothingHappened(h: string -> string, hyp: Hypothesis, w: World, v: World)
    requires Reaches(h, hyp, w, [], v)
    ensures v == w
  {
  }

  lemma WrongDigest(h: string -> string, hyp: Hypothesis, w: World, others: seq<Step>, steps: seq<Step>, u: World, c: nat, f: FileId, content: string)
    requires CollisionFree(h) && c in w.calls && w.calls[c].Hashing? && f in u.files && u.files[f].content != content
    requires Others(steps, c) == others && Reaches(h, hyp, w, steps, At(u, c, Digested(w.calls[c].mode, f, w.calls[c].before, h(content))))
    ensures !Certain(h, hyp, w, others, c)
  {
    hide Reaches, Others;
    assert !ReturnsTheHash(h, At(u, c, Digested(w.calls[c].mode, f, w.calls[c].before, h(content))), c);
  }
}
