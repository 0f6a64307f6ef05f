/** What one staging call comes to when nobody else moves and nothing fails. */
module ModelStagingAlone {
  import opened Options
  import opened ModelStaging

  /** The call takes up to `n` steps, each of which goes well; a copy writes `content`. Then it is done. */
  ghost predicate Stages(x: Expected, w: World, c: nat, content: string, n: nat, v: World)
    decreases n
  {
    c in w.calls &&
    if w.calls[c].Done? then v == w
    else n > 0 && Enabled(w, Advance(c, true, content)) && Stages(x, Apply(x, w, Advance(c, true, content)), c, content, n - 1, v)
  }

  lemma {:induction false} StagesIsARun(x: Expected, w: World, c: nat, content: string, n: nat, v: World) returns (steps: seq<Step>)
    requires Stages(x, w, c, content, n, v)
    ensures Reaches(x, w, steps, v) && forall k :: 0 <= k < |steps| ==> steps[k] == Advance(c, true, content)
    decreases n
  {
    hide Apply, Enabled;
    if w.calls[c].Done? {
      steps := [];
    } else {
      var rest := StagesIsARun(x, Apply(x, w, Advance(c, true, content)), c, content, n - 1, v);
      steps := [Advance(c, true, content)] + rest;
      assert steps[1..] == rest;
    }
  }

  lemma Moves(w: World, c: nat, pc: Pc, next: Pc)
    ensures At(At(w, c, pc), c, next) == At(w, c, next)
  {
    assert w.calls[c := pc][c := next] == w.calls[c := next];
  }

  ghost predicate Goes(x: Expected, w: World, c: nat, pc: Pc, content: string, u: World, next: Pc) {
    !pc.Done? && !pc.Dead? && AdvanceCall(x, At(w, c, pc), c, true, content) == At(u, c, next)
  }

  lemma StagesOn(x: Expected, w: World, c: nat, pc: Pc, content: string, u: World, next: Pc, n: nat, v: World)
    requires Goes(x, w, c, pc, content, u, next) && Stages(x, At(u, c, next), c, content, n, v)
    ensures Stages(x, At(w, c, pc), c, content, n + 1, v)
  {
  }

  lemma Ended(x: Expected, w: World, c: nat, content: string, outcome: Outcome, n: nat)
    ensures Stages(x, At(w, c, Done(outcome)), c, content, n, At(w, c, Done(outcome)))
  {
  }

  // ---------------------------------------------------------------- from the filled temporary on

  /** The temporary of attempt `k` holds `content`, the destination is free. */
  ghost predicate Filled(w: World, k: nat, i: nat, content: string) {
    && Partial(k) in w.entries && w.entries[Partial(k)] == File(i) && Destination !in w.entries
    && i in w.inodes && w.inodes[i].content == content
  }

  ghost predicate Linked(w: World, k: nat, i: nat, content: string) {
    && Partial(k) in w.entries && Destination in w.entries && w.entries[Destination] == File(i)
    && i in w.inodes && w.inodes[i].content == content
  }

  lemma LinkedGoes(x: Expected, w: World, c: nat, k: nat, i: nat, content: string)
    requires Linked(w, k, i, content) && Good(x, content)
    ensures Goes(x, w, c, PublishedStat(k, i), content, w, PublishedHash(k, i))
    ensures Goes(x, w, c, PublishedHash(k, i), content, w, RemovingTemp(k, i))
    ensures Goes(x, w, c, RemovingTemp(k, i), content, w.(entries := w.entries - {Partial(k)}), Done(Published(i)))
  {
    Moves(w, c, PublishedStat(k, i), PublishedHash(k, i));
    Moves(w, c, PublishedHash(k, i), RemovingTemp(k, i));
    Moves(w.(entries := w.entries - {Partial(k)}), c, RemovingTemp(k, i), Done(Published(i)));
  }

  lemma FilledGoes(x: Expected, w: World, c: nat, k: nat, i: nat, content: string)
    requires Filled(w, k, i, content) && Good(x, content)
    ensures Goes(x, w, c, TempStat(k, i), content, w, TempHash(k, i))
    ensures Goes(x, w, c, TempHash(k, i), content, w, DestStat(k, i))
    ensures Goes(x, w, c, DestStat(k, i), content, w, Linking(k, i))
    ensures Goes(x, w, c, Linking(k, i), content, w.(entries := w.entries[Destination := File(i)]), PublishedStat(k, i))
  {
    Moves(w, c, TempStat(k, i), TempHash(k, i));
    Moves(w, c, TempHash(k, i), DestStat(k, i));
    Moves(w, c, DestStat(k, i), Linking(k, i));
    Moves(w.(entries := w.entries[Destination := File(i)]), c, Linking(k, i), PublishedStat(k, i));
  }

  lemma PublishesLinked(x: Expected, w: World, c: nat, k: nat, i: nat, content: string)
    requires Linked(w, k, i, content) && Good(x, content)
    ensures Stages(x, At(w, c, PublishedStat(k, i)), c, content, 3, At(w.(entries := w.entries - {Partial(k)}), c, Done(Published(i))))
  {
    var clean := w.(entries := w.entries - {Partial(k)});
    var v := At(clean, c, Done(Published(i)));
    LinkedGoes(x, w, c, k, i, content);
    Ended(x, clean, c, content, Published(i), 0);
    hide *;
    StagesOn(x, w, c, RemovingTemp(k, i), content, clean, Done(Published(i)), 0, v);
    StagesOn(x, w, c, PublishedHash(k, i), content, w, RemovingTemp(k, i), 1, v);
    StagesOn(x, w, c, PublishedStat(k, i), content, w, PublishedHash(k, i), 2, v);
  }

  lemma PublishesFilled(x: Expected, w: World, c: nat, k: nat, i: nat, content: string)
    requires Filled(w, k, i, content) && Good(x, content)
    ensures Stages(x, At(w, c, TempStat(k, i)), c, content, 7,
                   At(w.(entries := w.entries[Destination := File(i)] - {Partial(k)}), c, Done(Published(i))))
  {
    var linked := w.(entries := w.entries[Destination := File(i)]);
    var v := At(linked.(entries := linked.entries - {Partial(k)}), c, Done(Published(i)));
    assert Linked(linked, k, i, content);
    PublishesLinked(x, linked, c, k, i, content);
    FilledGoes(x, w, c, k, i, content);
    assert v == At(w.(entries := w.entries[Destination := File(i)] - {Partial(k)}), c, Done(Published(i)));
    hide *;
    StagesOn(x, w, c, Linking(k, i), content, linked, PublishedStat(k, i), 3, v);
    StagesOn(x, w, c, DestStat(k, i), content, w, Linking(k, i), 4, v);
    StagesOn(x, w, c, TempHash(k, i), content, w, DestStat(k, i), 5, v);
    StagesOn(x, w, c, TempStat(k, i), content, w, TempHash(k, i), 6, v);
  }

  lemma CleansUp(x: Expected, w: World, c: nat, k: nat, i: nat, content: string, n: nat)
    ensures Stages(x, At(w, c, Cleanup(k, i, false)), c, content, n + 1, At(w.(entries := w.entries - {Partial(k)}), c, Done(Failed(None))))
  {
    var clean := w.(entries := w.entries - {Partial(k)});
    Moves(clean, c, Cleanup(k, i, false), Done(Failed(None)));
    Ended(x, clean, c, content, Failed(None), n);
    StagesOn(x, w, c, Cleanup(k, i, false), content, clean, Done(Failed(None)), n, At(clean, c, Done(Failed(None))));
  }

  lemma BadGoes(x: Expected, w: World, c: nat, k: nat, i: nat, content: string)
    requires Filled(w, k, i, content) && |content| == x.size && !Good(x, content)
    ensures Goes(x, w, c, TempStat(k, i), content, w, TempHash(k, i))
    ensures Goes(x, w, c, TempHash(k, i), content, w, Cleanup(k, i, false))
  {
    Moves(w, c, TempStat(k, i), TempHash(k, i));
    Moves(w, c, TempHash(k, i), Cleanup(k, i, false));
  }

  /** A temporary whose content is not the expected one is removed again. */
  lemma RefusesFilled(x: Expected, w: World, c: nat, k: nat, i: nat, content: string)
    requires Filled(w, k, i, content) && |content| == x.size && !Good(x, content)
    ensures Stages(x, At(w, c, TempStat(k, i)), c, content, 7, At(w.(entries := w.entries - {Partial(k)}), c, Done(Failed(None))))
  {
    BadGoes(x, w, c, k, i, content);
    CleansUp(x, w, c, k, i, content, 4);
    hide *;
    var v := At(w.(entries := w.entries - {Partial(k)}), c, Done(Failed(None)));
    StagesOn(x, w, c, TempHash(k, i), content, w, Cleanup(k, i, false), 5, v);
    StagesOn(x, w, c, TempStat(k, i), content, w, TempHash(k, i), 6, v);
  }

  // ---------------------------------------------------------------- from the start on

  /** The world with the copy in a new inode, which nothing names yet. */
  function Copied(w: World, content: string): World {
    w.(inodes := w.inodes[w.next := Inode(content, false)], next := w.next + 1)
  }

  /** Where the call ends that fills the temporary of attempt `k`. */
  ghost function Result(x: Expected, w: World, c: nat, content: string): World {
    var copied := Copied(w, content);
    if Good(x, content) then At(copied.(entries := w.entries[Destination := File(w.next)]), c, Done(Published(w.next)))
    else At(copied, c, Done(Failed(None)))
  }

  lemma FillGoes(x: Expected, w: World, c: nat, k: nat, content: string)
    requires Partial(k) !in w.entries && Destination !in w.entries && k < ATTEMPTS
    ensures var named := Copied(w, "").(entries := w.entries[Partial(k) := File(w.next)]);
      var filled := Copied(w, content).(entries := w.entries[Partial(k) := File(w.next)]);
      && Goes(x, w, c, Creating(k), content, named, Filling(k, w.next))
      && Goes(x, named, c, Filling(k, w.next), content, filled, if |content| == x.size then TempStat(k, w.next) else Cleanup(k, w.next, false))
      && Filled(filled, k, w.next, content)
  {
    var named := Copied(w, "").(entries := w.entries[Partial(k) := File(w.next)]);
    var filled := Copied(w, content).(entries := w.entries[Partial(k) := File(w.next)]);
    Moves(named, c, Creating(k), Filling(k, w.next));
    Moves(filled, c, Filling(k, w.next), if |content| == x.size then TempStat(k, w.next) else Cleanup(k, w.next, false));
    assert named.inodes[w.next := Inode(content, false)] == filled.inodes;
  }

  lemma CreatesAndFills(x: Expected, w: World, c: nat, k: nat, content: string)
    requires Partial(k) !in w.entries && Destination !in w.entries && k < ATTEMPTS
    ensures Stages(x, At(w, c, Creating(k)), c, content, 9, Result(x, w, c, content))
  {
    var i := w.next;
    var named := Copied(w, "").(entries := w.entries[Partial(k) := File(i)]);
    var filled := Copied(w, content).(entries := w.entries[Partial(k) := File(i)]);
    var next := if |content| == x.size then TempStat(k, i) else Cleanup(k, i, false);
    var v := Result(x, w, c, content);
    FillGoes(x, w, c, k, content);
    assert filled.entries - {Partial(k)} == w.entries;
    assert filled.entries[Destination := File(i)] - {Partial(k)} == w.entries[Destination := File(i)];
    if Good(x, content) {
      PublishesFilled(x, filled, c, k, i, content);
    } else if |content| == x.size {
      RefusesFilled(x, filled, c, k, i, content);
    } else {
      CleansUp(x, filled, c, k, i, content, 6);
    }
    assert Stages(x, At(filled, c, next), c, content, 7, v);
    hide *;
    StagesOn(x, named, c, Filling(k, i), content, filled, next, 7, v);
    StagesOn(x, w, c, Creating(k), content, named, Filling(k, i), 8, v);
  }

  lemma TakenGoes(x: Expected, w: World, c: nat, j: nat, content: string)
    requires j < ATTEMPTS && Partial(j) in w.entries
    ensures Goes(x, w, c, Creating(j), content, w, Creating(j + 1))
  {
    Moves(w, c, Creating(j), Creating(j + 1));
  }

  /** From attempt `j` on, the first free one. */
  lemma {:induction false} TriesOn(x: Expected, w: World, c: nat, j: nat, k: nat, content: string)
    requires j <= k < ATTEMPTS && Partial(k) !in w.entries && Destination !in w.entries && forall l: nat :: j <= l < k ==> Partial(l) in w.entries
    ensures Stages(x, At(w, c, Creating(j)), c, content, 9 + (k - j), Result(x, w, c, content))
    decreases k - j
  {
    hide *;
    if j == k {
      CreatesAndFills(x, w, c, k, content);
    } else {
      TakenGoes(x, w, c, j, content);
      TriesOn(x, w, c, j + 1, k, content);
      StagesOn(x, w, c, Creating(j), content, w, Creating(j + 1), 9 + (k - (j + 1)), Result(x, w, c, content));
    }
  }

  lemma OutOfAttempts(x: Expected, w: World, c: nat, content: string)
    ensures Stages(x, At(w, c, Creating(ATTEMPTS)), c, content, 1, At(w, c, Done(Failed(None))))
  {
    Moves(w, c, Creating(ATTEMPTS), Done(Failed(None)));
    Ended(x, w, c, content, Failed(None), 0);
    StagesOn(x, w, c, Creating(ATTEMPTS), content, w, Done(Failed(None)), 0, At(w, c, Done(Failed(None))));
  }

  lemma {:induction false} TriesInVain(x: Expected, w: World, c: nat, j: nat, content: string)
    requires j <= ATTEMPTS && forall l: nat :: j <= l < ATTEMPTS ==> Partial(l) in w.entries
    ensures Stages(x, At(w, c, Creating(j)), c, content, ATTEMPTS - j + 1, At(w, c, Done(Failed(None))))
    decreases ATTEMPTS - j
  {
    hide *;
    if j == ATTEMPTS {
      OutOfAttempts(x, w, c, content);
    } else {
      TakenGoes(x, w, c, j, content);
      TriesInVain(x, w, c, j + 1, content);
      StagesOn(x, w, c, Creating(j), content, w, Creating(j + 1), ATTEMPTS - (j + 1) + 1, At(w, c, Done(Failed(None))));
    }
  }

  ghost predicate SomeFree(w: World) {
    exists k: nat :: k < ATTEMPTS && Partial(k) !in w.entries
  }

  lemma {:induction false} FirstFree(w: World, k: nat) returns (first: nat)
    requires k < ATTEMPTS && Partial(k) !in w.entries
    ensures first <= k && Partial(first) !in w.entries && forall l: nat :: l < first ==> Partial(l) in w.entries
    decreases k
  {
    if l: nat :| l < k && Partial(l) !in w.entries {
      first := FirstFree(w, l);
    } else {
      first := k;
    }
  }

  /** On an absent destination a call publishes good content, in a new inode and without a trace of its temporary, exactly if
      one of its 32 temporary names is free; content that is not the expected one leaves no name. */
  lemma StageOnAbsent(x: Expected, w: World, c: nat, content: string)
    requires c !in w.calls && Destination !in w.entries
    ensures Enabled(w, Call(c))
    ensures Stages(x, Apply(x, w, Call(c)), c, content, 42, if SomeFree(w) then Result(x, w, c, content) else At(w, c, Done(Failed(None))))
  {
    var v := if SomeFree(w) then Result(x, w, c, content) else At(w, c, Done(Failed(None)));
    Moves(w, c, Checking, Creating(0));
    if SomeFree(w) {
      var some: nat :| some < ATTEMPTS && Partial(some) !in w.entries;
      var k := FirstFree(w, some);
      TriesOn(x, w, c, 0, k, content);
      hide Result, SomeFree;
      StagesLonger(x, At(w, c, Creating(0)), c, content, 9 + k, 41, v);
    } else {
      TriesInVain(x, w, c, 0, content);
      StagesLonger(x, At(w, c, Creating(0)), c, content, ATTEMPTS + 1, 41, v);
    }
    StagesOn(x, w, c, Checking, content, w, Creating(0), 41, v);
  }

  lemma {:induction false} StagesLonger(x: Expected, w: World, c: nat, content: string, n: nat, m: nat, v: World)
    requires Stages(x, w, c, content, n, v) && n <= m
    ensures Stages(x, w, c, content, m, v)
    decreases n
  {
    hide Apply, Enabled;
    if !w.calls[c].Done? {
      StagesLonger(x, Apply(x, w, Advance(c, true, content)), c, content, n - 1, m - 1, v);
    }
  }

  /** Whatever stands at the destination stays; the call accepts it exactly if it is a regular file with the expected content. */
  lemma StageOnExisting(x: Expected, w: World, c: nat, content: string)
    requires c !in w.calls && Destination in w.entries
    ensures Enabled(w, Call(c))
    ensures Stages(x, Apply(x, w, Call(c)), c, content, 3,
      At(w, c, Done(if w.entries[Destination].File? && ReadThrough(w, Destination).Some? && Good(x, ReadThrough(w, Destination).value)
                    then Existing else Failed(None))))
  {
    var d := w.entries[Destination];
    if d.File? {
      Moves(w, c, Checking, ExistingStat);
      if RightSize(x, w, Destination) {
        var accepted := if RightDigest(x, w, Destination) then Existing else Failed(None);
        var v := At(w, c, Done(accepted));
        Moves(w, c, ExistingStat, ExistingHash(d.inode));
        Moves(w, c, ExistingHash(d.inode), Done(accepted));
        StagesOn(x, w, c, ExistingHash(d.inode), content, w, Done(accepted), 0, v);
        StagesOn(x, w, c, ExistingStat, content, w, ExistingHash(d.inode), 1, v);
        StagesOn(x, w, c, Checking, content, w, ExistingStat, 2, v);
      } else {
        Moves(w, c, ExistingStat, Done(Failed(None)));
        var v := At(w, c, Done(Failed(None)));
        StagesOn(x, w, c, ExistingStat, content, w, Done(Failed(None)), 1, v);
        StagesOn(x, w, c, Checking, content, w, ExistingStat, 2, v);
      }
    } else {
      Moves(w, c, Checking, Done(Failed(None)));
      StagesOn(x, w, c, Checking, content, w, Done(Failed(None)), 2, At(w, c, Done(Failed(None))));
    }
  }
}
