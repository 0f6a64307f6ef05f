/** Staging a verified model file: a temporary is filled and verified, then linked to a destination that must not exist.
    Any number of calls and of other create-only publishers run at once, and calls may die anywhere. */
module ModelStaging {
  import opened Options
  import opened Decimals

  datatype Name = Destination | Partial(attempt: nat)

  /** A link stands for what can be read through it. */
  datatype Node = File(inode: nat) | Symlink(target: Option<string>) | Directory

  datatype Inode = Inode(content: string, foreign: bool)

  /** What the model must be: a size and a digest under `h`. */
  datatype Expected = Expected(h: string -> string, size: nat, sha256: string)

  predicate Good(x: Expected, content: string) {
    |content| == x.size && x.h(content) == x.sha256
  }

  const ATTEMPTS: nat := 32

  /** The name of a temporary. */
  function PartialName(fileName: string, attempt: nat): string {
    "." + fileName + "." + Decimal(attempt) + ".partial"
  }

  lemma PartialNameInjective(fileName: string, a: nat, b: nat)
    requires PartialName(fileName, a) == PartialName(fileName, b)
    ensures a == b
  {
    var front, s, t := "." + fileName + ".", PartialName(fileName, a), PartialName(fileName, b);
    assert s == front + (Decimal(a) + ".partial") && t == front + (Decimal(b) + ".partial");
    assert s[|front|..] == Decimal(a) + ".partial" && t[|front|..] == Decimal(b) + ".partial";
    assert (Decimal(a) + ".partial")[..|Decimal(a)|] == Decimal(a) && (Decimal(b) + ".partial")[..|Decimal(b)|] == Decimal(b);
    DecimalInjective(a, b);
  }

  datatype Outcome = Existing | Published(inode: nat) | Failed(left: Option<nat>)

  /** Where a call stands. `k` is its attempt number, `i` the inode it created, `left` what it put at the destination before
      it failed or died. */
  datatype Pc =
    | Checking
    | ExistingStat
    | ExistingHash(seen: nat)
    | Creating(k: nat)
    | Filling(k: nat, i: nat)
    | TempStat(k: nat, i: nat)
    | TempHash(k: nat, i: nat)
    | DestStat(k: nat, i: nat)
    | Linking(k: nat, i: nat)
    | PublishedStat(k: nat, i: nat)
    | PublishedHash(k: nat, i: nat)
    | RemovingTemp(k: nat, i: nat)
    | Withdrawing(k: nat, i: nat)
    | Cleanup(k: nat, i: nat, published: bool)
    | Done(outcome: Outcome)
    | Dead(left: Option<nat>)

  datatype World = World(entries: map<Name, Node>, inodes: map<nat, Inode>, next: nat, calls: map<nat, Pc>)

  /** `ok` tells whether an operation that may fail for outside reasons succeeds; `content` is what a copy writes. */
  datatype Step =
    | Call(c: nat)
    | Advance(c: nat, ok: bool, content: string)
    | Die(c: nat)
    | ForeignFile(content: string)
    | ForeignNode(node: Node)

  predicate Enabled(w: World, s: Step) {
    match s
    case Call(c) => c !in w.calls
    case Advance(c, _, _) => c in w.calls && !w.calls[c].Done? && !w.calls[c].Dead?
    case Die(c) => c in w.calls && !w.calls[c].Done? && !w.calls[c].Dead?
    case ForeignFile(_) => Destination !in w.entries
    case ForeignNode(node) => Destination !in w.entries && !node.File?
  }

  function At(w: World, c: nat, pc: Pc): World {
    w.(calls := w.calls[c := pc])
  }

  /** What is read through a name. */
  function ReadThrough(w: World, name: Name): Option<string> {
    if name !in w.entries then None else match w.entries[name]
      case File(i) => if i in w.inodes then Some(w.inodes[i].content) else None
      case Symlink(target) => target
      case Directory => None
  }

  /** The first half of `verify_model`: a regular file of the right size. */
  predicate RightSize(x: Expected, w: World, name: Name) {
    name in w.entries && w.entries[name].File? && ReadThrough(w, name).Some? && |ReadThrough(w, name).value| == x.size
  }

  /** The second half: the digest of what is read. */
  predicate RightDigest(x: Expected, w: World, name: Name) {
    ReadThrough(w, name).Some? && x.h(ReadThrough(w, name).value) == x.sha256
  }

  function Apply(x: Expected, w: World, s: Step): World {
    match s
    case Call(c) => At(w, c, Checking)
    case Advance(c, ok, content) => if c in w.calls then AdvanceCall(x, w, c, ok, content) else w
    case Die(c) => if c in w.calls then At(w, c, Dead(PublishedInode(w.calls[c]))) else w
    case ForeignFile(content) =>
      w.(entries := w.entries[Destination := File(w.next)], inodes := w.inodes[w.next := Inode(content, true)], next := w.next + 1)
    case ForeignNode(node) => w.(entries := w.entries[Destination := node])
  }

  /** `stage_model`, one file system operation at a time: up to the verified temporary. */
  function PrepareStep(x: Expected, w: World, c: nat, ok: bool, content: string): World
    requires c in w.calls
  {
    match w.calls[c]
    case Checking =>
      if !ok then At(w, c, Done(Failed(None)))
      else if Destination !in w.entries then At(w, c, Creating(0))
      else if w.entries[Destination].File? then At(w, c, ExistingStat)
      else At(w, c, Done(Failed(None)))
    case ExistingStat =>
      if ok && RightSize(x, w, Destination) then At(w, c, ExistingHash(w.entries[Destination].inode)) else At(w, c, Done(Failed(None)))
    case ExistingHash(seen) =>
      if ok && RightDigest(x, w, Destination) then At(w, c, Done(Existing)) else At(w, c, Done(Failed(None)))
    case Creating(k) =>
      if !ok || k >= ATTEMPTS then At(w, c, Done(Failed(None)))
      else if Partial(k) in w.entries then At(w, c, Creating(k + 1))
      else
        At(w, c, Filling(k, w.next)).(entries := w.entries[Partial(k) := File(w.next)],
           inodes := w.inodes[w.next := Inode("", false)], next := w.next + 1)
    case Filling(k, i) =>
      var filled := w.(inodes := w.inodes[i := Inode(content, false)]);
      if ok && |content| == x.size then At(filled, c, TempStat(k, i)) else At(filled, c, Cleanup(k, i, false))
    case TempStat(k, i) =>
      if ok && RightSize(x, w, Partial(k)) then At(w, c, TempHash(k, i)) else At(w, c, Cleanup(k, i, false))
    case TempHash(k, i) =>
      if ok && RightDigest(x, w, Partial(k)) then At(w, c, DestStat(k, i)) else At(w, c, Cleanup(k, i, false))
    case _ => w
  }

  predicate Preparing(pc: Pc) {
    pc.Checking? || pc.ExistingStat? || pc.ExistingHash? || pc.Creating? || pc.Filling? || pc.TempStat? || pc.TempHash?
  }

  /** From the verified temporary on. */
  function PublishStep(x: Expected, w: World, c: nat, ok: bool): World
    requires c in w.calls
  {
    match w.calls[c]
    case DestStat(k, i) =>
      if ok && Destination !in w.entries then At(w, c, Linking(k, i)) else At(w, c, Cleanup(k, i, false))
    case Linking(k, i) =>
      if ok && Destination !in w.entries && Partial(k) in w.entries then
        At(w, c, PublishedStat(k, i)).(entries := w.entries[Destination := w.entries[Partial(k)]])
      else At(w, c, Cleanup(k, i, false))
    case PublishedStat(k, i) =>
      if ok && RightSize(x, w, Destination) then At(w, c, PublishedHash(k, i)) else At(w, c, Withdrawing(k, i))
    case PublishedHash(k, i) =>
      if ok && RightDigest(x, w, Destination) then At(w, c, RemovingTemp(k, i)) else At(w, c, Withdrawing(k, i))
    case RemovingTemp(k, i) =>
      if ok then At(w, c, Done(Published(i))).(entries := w.entries - {Partial(k)}) else At(w, c, Cleanup(k, i, true))
    case Withdrawing(k, i) =>
      if ok then At(w, c, Cleanup(k, i, false)).(entries := w.entries - {Destination}) else At(w, c, Cleanup(k, i, true))
    case Cleanup(k, i, published) =>
      var left := if published then Some(i) else None;
      if ok then At(w, c, Done(Failed(left))).(entries := w.entries - {Partial(k)}) else At(w, c, Done(Failed(left)))
    case _ => w
  }

  function AdvanceCall(x: Expected, w: World, c: nat, ok: bool, content: string): World
    requires c in w.calls
  {
    if Preparing(w.calls[c]) then PrepareStep(x, w, c, ok, content) else PublishStep(x, w, c, ok)
  }

  /** No temporaries of earlier runs are in use, and whatever stands at the destination is somebody else's. */
  ghost predicate Init(w: World) {
    && w.calls == map[] && (forall i :: i in w.inodes ==> i < w.next && w.inodes[i].foreign)
    && forall name :: name in w.entries && w.entries[name].File? ==> w.entries[name].inode in w.inodes
  }

  ghost predicate Reaches(x: Expected, w: World, steps: seq<Step>, v: World)
    decreases |steps|
  {
    if steps == [] then w == v else Enabled(w, steps[0]) && Reaches(x, Apply(x, w, steps[0]), steps[1..], v)
  }

  ghost predicate Reachable(x: Expected, v: World) {
    exists w, steps :: Init(w) && Reaches(x, w, steps, v)
  }

  // ---------------------------------------------------------------- the invariant

  /** The inode that a call created and still answers for. */
  function Owned(pc: Pc): Option<nat> {
    match pc
    case Done(outcome) => PublishedInode(pc)
    case Dead(left) => left
    case Checking => None
    case ExistingStat => None
    case ExistingHash(_) => None
    case Creating(_) => None
    case _ => Some(pc.i)
  }

  /** The inode that a call put at the destination and did not withdraw. */
  function PublishedInode(pc: Pc): Option<nat> {
    match pc
    case PublishedStat(_, i) => Some(i)
    case PublishedHash(_, i) => Some(i)
    case RemovingTemp(_, i) => Some(i)
    case Withdrawing(_, i) => Some(i)
    case Cleanup(_, i, published) => if published then Some(i) else None
    case Done(outcome) =>
      (match outcome
       case Existing => None
       case Published(i) => Some(i)
       case Failed(left) => left)
    case Dead(left) => left
    case _ => None
  }

  /** The temporary that a call has to remove. */
  function Temporary(pc: Pc): Option<nat> {
    match pc
    case Checking => None
    case ExistingStat => None
    case ExistingHash(_) => None
    case Creating(_) => None
    case Done(_) => None
    case Dead(_) => None
    case _ => Some(pc.k)
  }

  /** The call may still write to its inode. */
  predicate Unsealed(pc: Pc) {
    pc.Filling?
  }

  ghost predicate InodesOk(w: World) {
    && (forall i :: i in w.inodes ==> i < w.next)
    && (forall name :: name in w.entries && w.entries[name].File? ==> w.entries[name].inode in w.inodes)
  }

  /** What the staging promises of the destination at all times. */
  ghost predicate DestinationOk(x: Expected, w: World) {
    Destination in w.entries && w.entries[Destination].File? && w.entries[Destination].inode in w.inodes ==>
      var inode := w.inodes[w.entries[Destination].inode];
      inode.foreign || Good(x, inode.content)
  }

  predicate AtDestination(w: World, i: nat) {
    Destination in w.entries && w.entries[Destination] == File(i)
  }

  ghost predicate PcOk(x: Expected, w: World, pc: Pc) {
    && (Owned(pc).Some? ==> Owned(pc).value in w.inodes && !w.inodes[Owned(pc).value].foreign)
    && (Temporary(pc).Some? ==> Partial(pc.k) in w.entries && w.entries[Partial(pc.k)] == File(pc.i))
    && (PublishedInode(pc).Some? ==> AtDestination(w, PublishedInode(pc).value) && Good(x, w.inodes[PublishedInode(pc).value].content))
    && (pc.Filling? || pc.TempStat? || pc.TempHash? || pc.DestStat? || pc.Linking? ==> !AtDestination(w, pc.i))
    && (pc.TempHash? ==> |w.inodes[pc.i].content| == x.size)
    && (pc.DestStat? || pc.Linking? ==> Good(x, w.inodes[pc.i].content))
    && (pc.ExistingHash? ==> pc.seen in w.inodes && |w.inodes[pc.seen].content| == x.size)
  }

  /** Calls answer for different inodes, and nobody writes to an inode that another call looked at. */
  ghost predicate Separate(a: Pc, b: Pc) {
    && (Owned(a).Some? ==> Owned(a) != Owned(b))
    && (Unsealed(a) && b.ExistingHash? ==> a.i != b.seen)
  }

  ghost predicate Inv(x: Expected, w: World) {
    && InodesOk(w) && DestinationOk(x, w)
    && (forall c :: c in w.calls ==> PcOk(x, w, w.calls[c]))
    && (forall c, d :: c in w.calls && d in w.calls && c != d ==> Separate(w.calls[c], w.calls[d]))
  }

  // ---------------------------------------------------------------- one effect at a time

  /** A call that is not the one that steps. */
  ghost predicate Bystander(x: Expected, w: World, c: nat, pc: Pc) {
    PcOk(x, w, pc) && c in w.calls && Separate(w.calls[c], pc) && Separate(pc, w.calls[c]) && PcOk(x, w, w.calls[c]) && InodesOk(w)
  }

  lemma TemporaryIsOwned(pc: Pc)
    ensures Temporary(pc).Some? ==> Owned(pc) == Some(pc.i) && Temporary(pc) == Some(pc.k)
    ensures PublishedInode(pc).Some? ==> Owned(pc) == PublishedInode(pc)
  {
  }

  /** A fresh inode under a name that was free. */
  lemma CreateKeeps(x: Expected, w: World, v: World, c: nat, pc: Pc, name: Name, inode: Inode)
    requires Bystander(x, w, c, pc) && name !in w.entries
    requires v.entries == w.entries[name := File(w.next)] && v.inodes == w.inodes[w.next := inode]
    ensures PcOk(x, v, pc)
  {
    assert w.next !in w.inodes;
  }

  lemma FillKeeps(x: Expected, w: World, v: World, c: nat, pc: Pc, content: string)
    requires Bystander(x, w, c, pc) && w.calls[c].Filling?
    requires v.entries == w.entries && v.inodes == w.inodes[w.calls[c].i := Inode(content, false)]
    ensures PcOk(x, v, pc)
  {
    TemporaryIsOwned(pc);
  }

  lemma LinkKeeps(x: Expected, w: World, v: World, c: nat, pc: Pc)
    requires Bystander(x, w, c, pc) && w.calls[c].Linking? && Destination !in w.entries
    requires v.entries == w.entries[Destination := File(w.calls[c].i)] && v.inodes == w.inodes
    ensures PcOk(x, v, pc)
  {
    TemporaryIsOwned(pc);
  }

  lemma RemoveTempKeeps(x: Expected, w: World, v: World, c: nat, pc: Pc)
    requires Bystander(x, w, c, pc) && Temporary(w.calls[c]).Some?
    requires v.entries == w.entries - {Partial(w.calls[c].k)} && v.inodes == w.inodes
    ensures PcOk(x, v, pc)
  {
    TemporaryIsOwned(pc);
    TemporaryIsOwned(w.calls[c]);
  }

  lemma WithdrawKeeps(x: Expected, w: World, v: World, c: nat, pc: Pc)
    requires Bystander(x, w, c, pc) && w.calls[c].Withdrawing?
    requires v.entries == w.entries - {Destination} && v.inodes == w.inodes
    ensures PcOk(x, v, pc)
  {
    TemporaryIsOwned(pc);
  }

  lemma SameFilesKeep(x: Expected, w: World, v: World, pc: Pc)
    requires PcOk(x, w, pc) && v.entries == w.entries && v.inodes == w.inodes
    ensures PcOk(x, v, pc)
  {
  }

  lemma OthersKeepWhilePreparing(x: Expected, w: World, c: nat, ok: bool, content: string, pc: Pc)
    requires Bystander(x, w, c, pc) && Preparing(w.calls[c])
    ensures PcOk(x, PrepareStep(x, w, c, ok, content), pc)
  {
    var v := PrepareStep(x, w, c, ok, content);
    hide PcOk, Separate, Bystander, InodesOk;
    match w.calls[c]
    case Creating(k) =>
      if ok && k < ATTEMPTS && Partial(k) !in w.entries {
        CreateKeeps(x, w, v, c, pc, Partial(k), Inode("", false));
      } else {
        StillOk(x, w, v, c, pc);
      }
    case Filling(k, i) => FillKeeps(x, w, v, c, pc, content);
    case _ => StillOk(x, w, v, c, pc);
  }

  lemma OthersKeepWhilePublishing(x: Expected, w: World, c: nat, ok: bool, pc: Pc)
    requires Bystander(x, w, c, pc) && !Preparing(w.calls[c])
    ensures PcOk(x, PublishStep(x, w, c, ok), pc)
  {
    var v := PublishStep(x, w, c, ok);
    hide PcOk, Separate, Bystander, InodesOk;
    match w.calls[c]
    case Linking(k, i) =>
      if ok && Destination !in w.entries && Partial(k) in w.entries {
        OwnTemporary(x, w, c, pc);
        LinkKeeps(x, w, v, c, pc);
      } else {
        StillOk(x, w, v, c, pc);
      }
    case RemovingTemp(k, i) =>
      if ok { RemoveTempKeeps(x, w, v, c, pc); } else { StillOk(x, w, v, c, pc); }
    case Withdrawing(k, i) =>
      if ok { WithdrawKeeps(x, w, v, c, pc); } else { StillOk(x, w, v, c, pc); }
    case Cleanup(k, i, published) =>
      if ok { RemoveTempKeeps(x, w, v, c, pc); } else { StillOk(x, w, v, c, pc); }
    case _ => StillOk(x, w, v, c, pc);
  }

  /** Every other call is still fine after call `c` advanced. */
  lemma OthersKeep(x: Expected, w: World, c: nat, ok: bool, content: string, pc: Pc)
    requires c in w.calls && Bystander(x, w, c, pc)
    ensures PcOk(x, AdvanceCall(x, w, c, ok, content), pc)
  {
    hide PcOk, Bystander, PrepareStep, PublishStep;
    if Preparing(w.calls[c]) {
      OthersKeepWhilePreparing(x, w, c, ok, content, pc);
    } else {
      OthersKeepWhilePublishing(x, w, c, ok, pc);
    }
  }

  lemma StillOk(x: Expected, w: World, v: World, c: nat, pc: Pc)
    requires Bystander(x, w, c, pc) && v.entries == w.entries && v.inodes == w.inodes
    ensures PcOk(x, v, pc)
  {
    SameFilesKeep(x, w, v, pc);
  }

  lemma OwnTemporary(x: Expected, w: World, c: nat, pc: Pc)
    requires Bystander(x, w, c, pc) && Temporary(w.calls[c]).Some?
    ensures Partial(w.calls[c].k) in w.entries && w.entries[Partial(w.calls[c].k)] == File(w.calls[c].i)
  {
  }

  /** What a step has to leave for the invariant, apart from the other calls. */
  ghost predicate Kept(x: Expected, w: World, v: World, c: nat) {
    && v.calls.Keys == w.calls.Keys && c in v.calls && (forall d :: d in w.calls && d != c ==> v.calls[d] == w.calls[d])
    && PcOk(x, v, v.calls[c]) && DestinationOk(x, v) && InodesOk(v)
  }

  lemma LookingKeeps(x: Expected, w: World, c: nat, ok: bool, content: string)
    requires InodesOk(w) && DestinationOk(x, w) && c in w.calls && PcOk(x, w, w.calls[c])
    requires w.calls[c].Checking? || w.calls[c].ExistingStat? || w.calls[c].ExistingHash?
    ensures Kept(x, w, PrepareStep(x, w, c, ok, content), c)
  {
  }

  lemma CreatingKeeps(x: Expected, w: World, c: nat, ok: bool, content: string)
    requires InodesOk(w) && DestinationOk(x, w) && c in w.calls && PcOk(x, w, w.calls[c])
    requires w.calls[c].Creating?
    ensures Kept(x, w, PrepareStep(x, w, c, ok, content), c)
  {
    assert w.next !in w.inodes;
  }

  lemma FillingKeeps(x: Expected, w: World, c: nat, ok: bool, content: string)
    requires InodesOk(w) && DestinationOk(x, w) && c in w.calls && PcOk(x, w, w.calls[c])
    requires w.calls[c].Filling?
    ensures Kept(x, w, PrepareStep(x, w, c, ok, content), c)
  {
  }

  lemma VerifyingKeeps(x: Expected, w: World, c: nat, ok: bool, content: string)
    requires InodesOk(w) && DestinationOk(x, w) && c in w.calls && PcOk(x, w, w.calls[c])
    requires w.calls[c].TempStat? || w.calls[c].TempHash?
    ensures Kept(x, w, PrepareStep(x, w, c, ok, content), c)
  {
  }

  lemma PreparingKeeps(x: Expected, w: World, c: nat, ok: bool, content: string)
    requires InodesOk(w) && DestinationOk(x, w) && c in w.calls && PcOk(x, w, w.calls[c]) && Preparing(w.calls[c])
    ensures Kept(x, w, PrepareStep(x, w, c, ok, content), c)
  {
    hide PrepareStep, Kept, InodesOk, DestinationOk, PcOk;
    var pc := w.calls[c];
    if pc.Creating? {
      CreatingKeeps(x, w, c, ok, content);
    } else if pc.Filling? {
      FillingKeeps(x, w, c, ok, content);
    } else if pc.TempStat? || pc.TempHash? {
      VerifyingKeeps(x, w, c, ok, content);
    } else {
      LookingKeeps(x, w, c, ok, content);
    }
  }

  lemma LinkingKeeps(x: Expected, w: World, c: nat, ok: bool)
    requires InodesOk(w) && DestinationOk(x, w) && c in w.calls && PcOk(x, w, w.calls[c])
    requires w.calls[c].DestStat? || w.calls[c].Linking?
    ensures Kept(x, w, PublishStep(x, w, c, ok), c)
  {
  }

  lemma ConfirmingKeeps(x: Expected, w: World, c: nat, ok: bool)
    requires InodesOk(w) && DestinationOk(x, w) && c in w.calls && PcOk(x, w, w.calls[c])
    requires w.calls[c].PublishedStat? || w.calls[c].PublishedHash?
    ensures Kept(x, w, PublishStep(x, w, c, ok), c)
  {
  }

  lemma RemovingKeeps(x: Expected, w: World, c: nat, ok: bool)
    requires InodesOk(w) && DestinationOk(x, w) && c in w.calls && PcOk(x, w, w.calls[c])
    requires w.calls[c].RemovingTemp? || w.calls[c].Cleanup?
    ensures Kept(x, w, PublishStep(x, w, c, ok), c)
  {
  }

  lemma WithdrawingKeeps(x: Expected, w: World, c: nat, ok: bool)
    requires InodesOk(w) && DestinationOk(x, w) && c in w.calls && PcOk(x, w, w.calls[c])
    requires w.calls[c].Withdrawing? || w.calls[c].Done? || w.calls[c].Dead?
    ensures Kept(x, w, PublishStep(x, w, c, ok), c)
  {
  }

  lemma PublishingKeeps(x: Expected, w: World, c: nat, ok: bool)
    requires InodesOk(w) && DestinationOk(x, w) && c in w.calls && PcOk(x, w, w.calls[c]) && !Preparing(w.calls[c])
    ensures Kept(x, w, PublishStep(x, w, c, ok), c)
  {
    hide PublishStep, Kept, InodesOk, DestinationOk, PcOk;
    var pc := w.calls[c];
    if pc.DestStat? || pc.Linking? {
      LinkingKeeps(x, w, c, ok);
    } else if pc.PublishedStat? || pc.PublishedHash? {
      ConfirmingKeeps(x, w, c, ok);
    } else if pc.RemovingTemp? || pc.Cleanup? {
      RemovingKeeps(x, w, c, ok);
    } else {
      WithdrawingKeeps(x, w, c, ok);
    }
  }

  /** A step leaves a call with the inode it had, with none, or with a fresh one; only a look at the destination adds an
      inode that is relied on. */
  ghost predicate SameInode(w: World, v: World, c: nat) {
    && c in w.calls && c in v.calls
    && (Owned(v.calls[c]) == Owned(w.calls[c]) || Owned(v.calls[c]).None? || Owned(v.calls[c]) == Some(w.next))
    && (Unsealed(v.calls[c]) ==> Owned(v.calls[c]) == Some(w.next))
    && (v.calls[c].ExistingHash? ==> AtDestination(w, v.calls[c].seen))
  }

  lemma PreparingSameInode(x: Expected, w: World, c: nat, ok: bool, content: string)
    requires c in w.calls && Preparing(w.calls[c])
    ensures SameInode(w, PrepareStep(x, w, c, ok, content), c)
  {
  }

  lemma PublishingSameInode(x: Expected, w: World, c: nat, ok: bool)
    requires c in w.calls && !Preparing(w.calls[c])
    ensures SameInode(w, PublishStep(x, w, c, ok), c)
  {
  }

  lemma SeparateBySameInode(x: Expected, w: World, v: World, c: nat, pc: Pc)
    requires Bystander(x, w, c, pc) && SameInode(w, v, c)
    ensures Separate(v.calls[c], pc) && Separate(pc, v.calls[c])
  {
    assert w.next !in w.inodes;
  }

  lemma AdvanceKeepsCalls(x: Expected, w: World, c: nat, ok: bool, content: string)
    requires c in w.calls
    ensures c in AdvanceCall(x, w, c, ok, content).calls
  {
  }

  /** What an advancing call answers for is what it answered for before, or fresh. */
  lemma AdvancingIsSeparate(x: Expected, w: World, c: nat, ok: bool, content: string, pc: Pc)
    requires c in w.calls && Bystander(x, w, c, pc)
    ensures var v := AdvanceCall(x, w, c, ok, content);
      c in v.calls && Separate(v.calls[c], pc) && Separate(pc, v.calls[c])
  {
    AdvanceKeepsCalls(x, w, c, ok, content);
    hide Separate, Bystander, PrepareStep, PublishStep, SameInode;
    if Preparing(w.calls[c]) {
      PreparingSameInode(x, w, c, ok, content);
    } else {
      PublishingSameInode(x, w, c, ok);
    }
    SeparateBySameInode(x, w, AdvanceCall(x, w, c, ok, content), c, pc);
  }

  lemma AdvancingKeeps(x: Expected, w: World, c: nat, ok: bool, content: string)
    requires InodesOk(w) && DestinationOk(x, w) && c in w.calls && PcOk(x, w, w.calls[c])
    ensures Kept(x, w, AdvanceCall(x, w, c, ok, content), c)
  {
    hide Kept, InodesOk, DestinationOk, PcOk, PrepareStep, PublishStep;
    if Preparing(w.calls[c]) {
      PreparingKeeps(x, w, c, ok, content);
    } else {
      PublishingKeeps(x, w, c, ok);
    }
  }

  lemma AdvanceKeepsInv(x: Expected, w: World, c: nat, ok: bool, content: string)
    requires Inv(x, w) && c in w.calls
    ensures Inv(x, AdvanceCall(x, w, c, ok, content))
  {
    hide AdvanceCall, PcOk, Separate, InodesOk, DestinationOk;
    var v := AdvanceCall(x, w, c, ok, content);
    AdvancingKeeps(x, w, c, ok, content);
    forall d | d in w.calls && d != c
      ensures PcOk(x, v, v.calls[d]) && Separate(v.calls[c], v.calls[d]) && Separate(v.calls[d], v.calls[c])
    {
      assert Bystander(x, w, c, w.calls[d]);
      OthersKeep(x, w, c, ok, content, w.calls[d]);
      AdvancingIsSeparate(x, w, c, ok, content, w.calls[d]);
    }
    forall d, e | d in v.calls && e in v.calls && d != e
      ensures Separate(v.calls[d], v.calls[e])
    {
      if d != c && e != c {
        assert Separate(w.calls[d], w.calls[e]);
      }
    }
  }

  lemma CallKeepsInv(x: Expected, w: World, c: nat, pc: Pc)
    requires Inv(x, w) && (pc == Checking || (c in w.calls && pc == Dead(PublishedInode(w.calls[c]))))
    ensures Inv(x, At(w, c, pc))
  {
    var v := At(w, c, pc);
    assert InodesOk(v) && DestinationOk(x, v);
    forall d | d in v.calls
      ensures PcOk(x, v, v.calls[d])
    {
      if d != c { SameFilesKeep(x, w, v, w.calls[d]); }
    }
  }

  /** A foreign publisher only adds what was not there. */
  lemma ForeignKeepsInv(x: Expected, w: World, s: Step)
    requires Inv(x, w) && Enabled(w, s) && (s.ForeignFile? || s.ForeignNode?)
    ensures Inv(x, Apply(x, w, s))
  {
    var v := Apply(x, w, s);
    assert w.next !in w.inodes;
    assert InodesOk(v) && DestinationOk(x, v);
    forall c | c in v.calls
      ensures PcOk(x, v, v.calls[c])
    {
      assert PcOk(x, w, w.calls[c]);
      TemporaryIsOwned(w.calls[c]);
    }
    forall c, d | c in v.calls && d in v.calls && c != d
      ensures Separate(v.calls[c], v.calls[d])
    {
      assert Separate(w.calls[c], w.calls[d]);
    }
  }

  lemma StepKeepsInv(x: Expected, w: World, s: Step)
    requires Inv(x, w) && Enabled(w, s)
    ensures Inv(x, Apply(x, w, s))
  {
    hide Inv, AdvanceCall;
    match s
    case Call(c) => CallKeepsInv(x, w, c, Checking);
    case Advance(c, ok, content) => AdvanceKeepsInv(x, w, c, ok, content);
    case Die(c) => CallKeepsInv(x, w, c, Dead(PublishedInode(w.calls[c])));
    case ForeignFile(_) => ForeignKeepsInv(x, w, s);
    case ForeignNode(_) => ForeignKeepsInv(x, w, s);
  }

  lemma {:induction false} ReachedStatesSatisfyInv(x: Expected, w: World, steps: seq<Step>, v: World)
    requires Inv(x, w) && Reaches(x, w, steps, v)
    ensures Inv(x, v)
    decreases |steps|
  {
    hide Inv;
    if steps != [] {
      StepKeepsInv(x, w, steps[0]);
      ReachedStatesSatisfyInv(x, Apply(x, w, steps[0]), steps[1..], v);
    }
  }

  lemma ReachableSatisfiesInv(x: Expected, v: World)
    requires Reachable(x, v)
    ensures Inv(x, v)
  {
    var w, steps :| Init(w) && Reaches(x, w, steps, v);
    assert Inv(x, w);
    ReachedStatesSatisfyInv(x, w, steps, v);
  }

  // ---------------------------------------------------------------- the theorems

  ghost predicate ForeignAt(w: World) {
    Destination in w.entries && (w.entries[Destination].File? ==>
      w.entries[Destination].inode in w.inodes && w.inodes[w.entries[Destination].inode].foreign)
  }

  /** At all times the destination is absent, somebody else's, or exactly a file of the expected size and digest. */
  lemma DestinationIsAbsentForeignOrGood(x: Expected, w: World)
    requires Reachable(x, w)
    ensures Destination !in w.entries || ForeignAt(w) || (RightSize(x, w, Destination) && RightDigest(x, w, Destination))
  {
    ReachableSatisfiesInv(x, w);
    assert InodesOk(w) && DestinationOk(x, w);
  }

  /** Whatever another publisher put there is never touched again. */
  lemma ForeignDestinationIsUntouched(x: Expected, w: World, s: Step)
    requires Reachable(x, w) && Enabled(w, s) && ForeignAt(w)
    ensures var v := Apply(x, w, s);
      ForeignAt(v) && v.entries[Destination] == w.entries[Destination] && ReadThrough(v, Destination) == ReadThrough(w, Destination)
  {
    ReachableSatisfiesInv(x, w);
    assert w.next !in w.inodes && InodesOk(w);
    if s.Advance? {
      assert PcOk(x, w, w.calls[s.c]);
      ForeignSurvives(x, w, s.c, s.ok, s.content);
    }
  }

  lemma ForeignSurvives(x: Expected, w: World, c: nat, ok: bool, content: string)
    requires ForeignAt(w) && c in w.calls && PcOk(x, w, w.calls[c]) && InodesOk(w)
    ensures var v := AdvanceCall(x, w, c, ok, content);
      ForeignAt(v) && v.entries[Destination] == w.entries[Destination] && ReadThrough(v, Destination) == ReadThrough(w, Destination)
  {
    TemporaryIsOwned(w.calls[c]);
    assert w.next !in w.inodes;
  }

  /** A call that returned success after publishing: its file is at the destination, and stays good. */
  lemma SuccessMeansTheFileIsThere(x: Expected, w: World, c: nat)
    requires Reachable(x, w) && c in w.calls && w.calls[c].Done? && w.calls[c].outcome.Published?
    ensures AtDestination(w, w.calls[c].outcome.inode) && RightSize(x, w, Destination) && RightDigest(x, w, Destination)
  {
    ReachableSatisfiesInv(x, w);
    assert PcOk(x, w, w.calls[c]);
    assert PublishedInode(w.calls[c]) == Some(w.calls[c].outcome.inode);
  }

  /** At no time do two publications exist that were not withdrawn: neither of two calls that succeeded, nor of one that
      succeeded and one that failed or died after linking. */
  lemma NoDoublePublication(x: Expected, w: World, c: nat, d: nat)
    requires Reachable(x, w) && c in w.calls && d in w.calls
    requires PublishedInode(w.calls[c]).Some? && PublishedInode(w.calls[d]).Some?
    ensures c == d
  {
    ReachableSatisfiesInv(x, w);
    assert PcOk(x, w, w.calls[c]) && PcOk(x, w, w.calls[d]);
    TemporaryIsOwned(w.calls[c]);
    TemporaryIsOwned(w.calls[d]);
    assert c != d ==> Separate(w.calls[c], w.calls[d]);
  }

  /** A call that accepts what it found read the expected digest through the destination; and if the file it took the size
      of is still there, that file is a regular one of the expected size and digest. */
  lemma AcceptedFileIsValid(x: Expected, w: World, s: Step)
    requires Reachable(x, w) && Enabled(w, s) && s.Advance? && w.calls[s.c].ExistingHash?
    requires Apply(x, w, s).calls[s.c] == Done(Existing)
    ensures RightDigest(x, w, Destination)
    ensures AtDestination(w, w.calls[s.c].seen) ==> RightSize(x, w, Destination)
  {
    ReachableSatisfiesInv(x, w);
    assert PcOk(x, w, w.calls[s.c]);
  }

  /** When a call ends without a failing removal, its temporary's name is free again. */
  lemma CleanupRemovesTheTemporary(x: Expected, w: World, s: Step)
    requires Reachable(x, w) && Enabled(w, s) && s.Advance? && s.ok && Temporary(w.calls[s.c]).Some?
    requires Apply(x, w, s).calls[s.c].Done?
    ensures Apply(x, w, s).entries == w.entries - {Partial(w.calls[s.c].k)}
    ensures Partial(w.calls[s.c].k) in w.entries && w.entries[Partial(w.calls[s.c].k)] == File(w.calls[s.c].i)
  {
    ReachableSatisfiesInv(x, w);
    assert PcOk(x, w, w.calls[s.c]);
  }
}
