/**
  When an upload of bytes that are stored already, or are being stored, is told to retry. Both of
  its checks compare the stored file's identity with what it saw at lookup, and another upload
  moves that identity on by storing the object or by dropping its own staged name.
 */
module UploadRaces {
  import opened Wrappers
  import opened ContentStore

  /** What an upload can see of the object under a digest: nothing, or the stamp of its file. */
  function Seen(w: World, digest: nat): Option<nat> {
    if digest in w.objects && w.objects[digest] in w.inodes then Some(w.inodes[w.objects[digest]].stamp) else None
  }

  // -- the two checks

  /** Re-hashing the existing object fails exactly when its file's stamp has moved on since the lookup. */
  lemma RereadFailsExactlyWhenRaced(hash: Bytes -> nat, w: World, p: nat)
    requires CollisionFree(hash) && Inv(hash, w) && Enabled(w, ReadExisting(p))
    ensures Next(hash, w, ReadExisting(p)).puts[p].Failed? <==> Seen(w, hash(w.puts[p].data)) != Some(w.puts[p].initial.stamp)
  {
    assert Noted(hash, w, w.puts[p]);
  }

  /**
    A link that is flushed fails exactly when the bytes are stored already and either they were
    not when the upload looked, or the stored file's stamp has moved on since.
   */
  lemma LinkFailsExactlyWhenRaced(hash: Bytes -> nat, w: World, p: nat)
    requires Inv(hash, w) && Enabled(w, Link(p, true))
    ensures var put := w.puts[p];
            var seen := if put.found.Some? then Some(put.found.value.stamp) else None;
            Next(hash, w, Link(p, true)).puts[p].Failed? <==> Seen(w, hash(put.data)) != seen
  {
    assert Noted(hash, w, w.puts[p]);
  }

  // -- the whole upload

  predicate Others(steps: seq<Step>, p: nat) {
    forall s | s in steps :: s.put != p
  }

  lemma {:induction false} OthersLeaveThePut(hash: Bytes -> nat, w: World, steps: seq<Step>, p: nat)
    requires p in w.puts && Others(steps, p)
    ensures p in Play(hash, w, steps).puts && Play(hash, w, steps).puts[p] == w.puts[p]
    decreases |steps|
  {
    if steps != [] {
      assert steps[0].put != p;
      OthersLeaveThePut(hash, if Enabled(w, steps[0]) then Next(hash, w, steps[0]) else w, steps[1..], p);
    }
  }

  /** An object once seen stays, and its stamp never goes back. */
  lemma StepMovesOn(hash: Bytes -> nat, w: World, s: Step, digest: nat)
    requires Inv(hash, w) && Enabled(w, s) && Seen(w, digest).Some?
    ensures Seen(Next(hash, w, s), digest).Some? && Seen(w, digest).value <= Seen(Next(hash, w, s), digest).value
  {
    StepIsSound(hash, w, s);
    StepStaysStamped(hash, w, s);
  }

  lemma StepKeepsInv(hash: Bytes -> nat, w: World, s: Step)
    requires Inv(hash, w) && Enabled(w, s)
    ensures Inv(hash, Next(hash, w, s))
  {
    PlayKeepsInv(hash, w, [s]);
    PlayFirst(hash, w, s, []);
    assert [s] + [] == [s];
  }

  lemma {:induction false} StampsMoveOn(hash: Bytes -> nat, w: World, steps: seq<Step>, digest: nat)
    requires Inv(hash, w) && Seen(w, digest).Some?
    ensures Seen(Play(hash, w, steps), digest).Some? && Seen(w, digest).value <= Seen(Play(hash, w, steps), digest).value
    decreases |steps|
  {
    if steps != [] {
      if Enabled(w, steps[0]) {
        StepMovesOn(hash, w, steps[0], digest);
        StepKeepsInv(hash, w, steps[0]);
        StampsMoveOn(hash, Next(hash, w, steps[0]), steps[1..], digest);
      } else {
        StampsMoveOn(hash, w, steps[1..], digest);
      }
    }
  }

  /** The rest of an upload from its lookup, with other uploads' steps in between: the world at its link, and after it. */
  function AtLink(hash: Bytes -> nat, w: World, p: nat, between: seq<Step>, later: seq<Step>): World
    requires p in w.puts && w.puts[p].Sealed?
  {
    var reread := Play(hash, Next(hash, w, LookUp(p)), between);
    Play(hash, if Enabled(reread, ReadExisting(p)) then Next(hash, reread, ReadExisting(p)) else reread, later)
  }

  function Finished(hash: Bytes -> nat, w: World, p: nat, between: seq<Step>, later: seq<Step>): World
    requires p in w.puts && w.puts[p].Sealed?
  {
    var linking := AtLink(hash, w, p, between, later);
    if Enabled(linking, Link(p, true)) then Next(hash, linking, Link(p, true)) else linking
  }

  /**
    The whole upload, from any reachable state and with any steps of others in between, is refused
    exactly when what can be seen of its object at the link is not what it saw at the lookup.
   */
  lemma UploadFailsExactlyWhenRaced(hash: Bytes -> nat, w: World, p: nat, between: seq<Step>, later: seq<Step>)
    requires CollisionFree(hash) && Inv(hash, w) && p in w.puts && w.puts[p].Sealed?
    requires Others(between, p) && Others(later, p)
    ensures var done := Finished(hash, w, p, between, later);
            var digest := hash(w.puts[p].data);
            && p in done.puts && (done.puts[p].Failed? || done.puts[p].Done?)
            && (done.puts[p].Failed? <==> Seen(AtLink(hash, w, p, between, later), digest) != Seen(w, digest))
  {
    var digest := hash(w.puts[p].data);
    var w1 := Next(hash, w, LookUp(p));
    StepKeepsInv(hash, w, LookUp(p));
    var w2 := Play(hash, w1, between);
    PlayKeepsInv(hash, w1, between);
    OthersLeaveThePut(hash, w1, between, p);
    if Seen(w, digest).None? {
      assert w2.puts[p] == Looked(w.puts[p].data, w.puts[p].ino, None);
      FreshUploadAtLink(hash, w2, p, later);
    } else {
      assert Seen(w1, digest) == Seen(w, digest);
      StampsMoveOn(hash, w1, between, digest);
      KnownUploadAtLink(hash, w2, p, later, Seen(w, digest).value);
    }
  }

  lemma FreshUploadAtLink(hash: Bytes -> nat, w: World, p: nat, later: seq<Step>)
    requires Inv(hash, w) && p in w.puts && w.puts[p].Looked? && w.puts[p].found.None? && Others(later, p)
    ensures var linking := Play(hash, w, later);
            && Enabled(linking, Link(p, true))
            && (Next(hash, linking, Link(p, true)).puts[p].Failed? <==> Seen(linking, hash(w.puts[p].data)).Some?)
            && !Next(hash, linking, Link(p, true)).puts[p].Looked?
  {
    PlayKeepsInv(hash, w, later);
    OthersLeaveThePut(hash, w, later, p);
    var linking := Play(hash, w, later);
    assert Private(linking, linking.puts[p]);
    LinkFailsExactlyWhenRaced(hash, linking, p);
  }

  lemma KnownUploadAtLink(hash: Bytes -> nat, w: World, p: nat, later: seq<Step>, stamp: nat)
    requires CollisionFree(hash) && Inv(hash, w) && p in w.puts && w.puts[p].Looking? && w.puts[p].initial.stamp == stamp
    requires var seen := Seen(w, hash(w.puts[p].data)); seen.Some? && stamp <= seen.value
    requires Others(later, p)
    ensures Enabled(w, ReadExisting(p))
    ensures var digest := hash(w.puts[p].data);
            var linking := Play(hash, Next(hash, w, ReadExisting(p)), later);
            var done := if Enabled(linking, Link(p, true)) then Next(hash, linking, Link(p, true)) else linking;
            && p in done.puts && (done.puts[p].Failed? || done.puts[p].Done?)
            && (done.puts[p].Failed? <==> Seen(linking, digest) != Some(stamp))
  {
    var digest := hash(w.puts[p].data);
    assert Noted(hash, w, w.puts[p]);
    RereadFailsExactlyWhenRaced(hash, w, p);
    var w' := Next(hash, w, ReadExisting(p));
    StepKeepsInv(hash, w, ReadExisting(p));
    PlayKeepsInv(hash, w', later);
    OthersLeaveThePut(hash, w', later, p);
    assert Seen(w', digest) == Seen(w, digest);
    StampsMoveOn(hash, w', later, digest);
    var linking := Play(hash, w', later);
    if w'.puts[p].Looked? {
      assert Private(linking, linking.puts[p]);
      LinkFailsExactlyWhenRaced(hash, linking, p);
    }
  }

  // -- when no run can refuse an upload

  /** The object is stored, and every upload still at work stages another file. */
  predicate Settled(w: World, digest: nat) {
    digest in w.objects && forall q | q in w.puts && !w.puts[q].Closed? :: w.puts[q].ino != w.objects[digest]
  }

  ghost predicate NeverRefused(hash: Bytes -> nat, w: World, p: nat) {
    forall steps :: p in Play(hash, w, steps).puts && !Play(hash, w, steps).puts[p].Failed?
  }

  /** An upload of a settled object, so far: whatever it noted is what can be seen. */
  predicate OnTrack(hash: Bytes -> nat, w: World, p: nat) {
    && p in w.puts
    && var put := w.puts[p];
       var seen := Seen(w, hash(put.data));
       match put
       case Sealed(_, _) => true
       case Looking(_, _, initial) => seen == Some(initial.stamp)
       case Looked(_, _, found) => found.Some? && seen == Some(found.value.stamp)
       case Done(_, _, deduplicated) => deduplicated
       case Closed(_, ok) => ok
       case _ => false
  }

  /** In a settled state no step of anyone touches the object's file. */
  lemma SettledStaysSettled(hash: Bytes -> nat, w: World, s: Step, digest: nat)
    requires Inv(hash, w) && Enabled(w, s) && Settled(w, digest)
    ensures Settled(Next(hash, w, s), digest) && Seen(Next(hash, w, s), digest) == Seen(w, digest)
  {
    StepIsSound(hash, w, s);
    if s.put in w.puts {
      assert Private(w, w.puts[s.put]);
    }
  }

  lemma StaysOnTrack(hash: Bytes -> nat, w: World, s: Step, p: nat)
    requires CollisionFree(hash) && Inv(hash, w) && Enabled(w, s) && OnTrack(hash, w, p) && Settled(w, hash(w.puts[p].data))
    ensures OnTrack(hash, Next(hash, w, s), p) && Next(hash, w, s).puts[p].data == w.puts[p].data
  {
    SettledStaysSettled(hash, w, s, hash(w.puts[p].data));
    if s == ReadExisting(p) {
      RereadFailsExactlyWhenRaced(hash, w, p);
    }
    assert Noted(hash, w, w.puts[p]);
  }

  lemma {:induction false} SettledIsSafe(hash: Bytes -> nat, w: World, p: nat, steps: seq<Step>)
    requires CollisionFree(hash) && Inv(hash, w) && OnTrack(hash, w, p) && Settled(w, hash(w.puts[p].data))
    ensures OnTrack(hash, Play(hash, w, steps), p)
    decreases |steps|
  {
    if steps != [] {
      if Enabled(w, steps[0]) {
        StaysOnTrack(hash, w, steps[0], p);
        SettledStaysSettled(hash, w, steps[0], hash(w.puts[p].data));
        StepKeepsInv(hash, w, steps[0]);
        SettledIsSafe(hash, Next(hash, w, steps[0]), p, steps[1..]);
      } else {
        SettledIsSafe(hash, w, p, steps[1..]);
      }
    }
  }

  /** The object is stored by an upload that has yet to drop its staged name: it drops it while the other rereads. */
  lemma UnsettledRereadIsRefused(hash: Bytes -> nat, w: World, p: nat, q: nat) returns (steps: seq<Step>)
    requires CollisionFree(hash) && Inv(hash, w) && p in w.puts && w.puts[p].Sealed? && hash(w.puts[p].data) in w.objects
    requires q in w.puts && !w.puts[q].Closed? && w.puts[q].ino == w.objects[hash(w.puts[p].data)]
    ensures p in Play(hash, w, steps).puts && Play(hash, w, steps).puts[p].Failed?
  {
    assert Private(w, w.puts[q]) && Private(w, w.puts[p]);
    assert w.objects[hash(w.puts[p].data)] in w.objects.Values;
    var w1 := Next(hash, w, LookUp(p));
    StepKeepsInv(hash, w, LookUp(p));
    var w2 := Next(hash, w1, Discard(q));
    StepKeepsInv(hash, w1, Discard(q));
    RereadFailsExactlyWhenRaced(hash, w2, p);
    steps := [LookUp(p)] + ([Discard(q)] + ([ReadExisting(p)] + []));
    PlayFirst(hash, w, LookUp(p), [Discard(q)] + ([ReadExisting(p)] + []));
    PlayFirst(hash, w1, Discard(q), [ReadExisting(p)] + []);
    PlayFirst(hash, w2, ReadExisting(p), []);
  }

  lemma BoundOf(names: set<nat>) returns (bound: nat)
    ensures forall n | n in names :: n < bound
  {
    if names == {} {
      bound := 0;
    } else {
      var n :| n in names;
      var rest := BoundOf(names - {n});
      bound := if rest > n then rest else n + 1;
      assert forall m | m in names :: m == n || m in names - {n};
    }
  }

  /** The steps with which a new upload stores its bytes. */
  function Stores(q: nat, data: Bytes): seq<Step> {
    [Open(q, data)] + ([Write(q, |data|)] + ([Seal(q, None)] + ([LookUp(q)] + ([Link(q, true)] + []))))
  }

  lemma NewUploadStores(hash: Bytes -> nat, w: World, q: nat, data: Bytes)
    requires Inv(hash, w) && q !in w.puts && hash(data) !in w.objects
    ensures Seen(Play(hash, w, Stores(q, data)), hash(data)).Some?
  {
    var w1 := Next(hash, w, Open(q, data));
    var w2 := Next(hash, w1, Write(q, |data|));
    assert data[0..|data|] == data;
    var w3 := Next(hash, w2, Seal(q, None));
    var w4 := Next(hash, w3, LookUp(q));
    PlayFirst(hash, w, Open(q, data), [Write(q, |data|)] + ([Seal(q, None)] + ([LookUp(q)] + ([Link(q, true)] + []))));
    PlayFirst(hash, w1, Write(q, |data|), [Seal(q, None)] + ([LookUp(q)] + ([Link(q, true)] + [])));
    PlayFirst(hash, w2, Seal(q, None), [LookUp(q)] + ([Link(q, true)] + []));
    PlayFirst(hash, w3, LookUp(q), [Link(q, true)] + []);
    PlayFirst(hash, w4, Link(q, true), []);
  }

  lemma StoresIsAnothers(q: nat, data: Bytes, p: nat)
    requires p != q
    ensures Others(Stores(q, data), p)
  {
  }

  lemma BeatenUploadIsRefused(hash: Bytes -> nat, w: World, p: nat, others: seq<Step>)
    requires Inv(hash, w) && p in w.puts && w.puts[p].Sealed? && hash(w.puts[p].data) !in w.objects && Others(others, p)
    requires Seen(Play(hash, Next(hash, w, LookUp(p)), others), hash(w.puts[p].data)).Some?
    ensures var end := Play(hash, w, [LookUp(p)] + (others + [Link(p, true)])); p in end.puts && end.puts[p].Failed?
  {
    var w1 := Next(hash, w, LookUp(p));
    StepKeepsInv(hash, w, LookUp(p));
    FreshUploadAtLink(hash, w1, p, others);
    PlayFirst(hash, w, LookUp(p), others + [Link(p, true)]);
    PlayAppend(hash, w1, others, [Link(p, true)]);
    assert [Link(p, true)] + [] == [Link(p, true)];
    PlayFirst(hash, Play(hash, w1, others), Link(p, true), []);
  }

  /** The object is not stored yet: another upload of the same bytes can come first. */
  lemma MissingObjectIsRefused(hash: Bytes -> nat, w: World, p: nat) returns (steps: seq<Step>)
    requires Inv(hash, w) && p in w.puts && w.puts[p].Sealed? && hash(w.puts[p].data) !in w.objects
    ensures p in Play(hash, w, steps).puts && Play(hash, w, steps).puts[p].Failed?
  {
    var data := w.puts[p].data;
    var q := BoundOf(w.puts.Keys);
    var others := Stores(q, data);
    StoresIsAnothers(q, data, p);
    StepKeepsInv(hash, w, LookUp(p));
    NewUploadStores(hash, Next(hash, w, LookUp(p)), q, data);
    BeatenUploadIsRefused(hash, w, p, others);
    steps := [LookUp(p)] + (others + [Link(p, true)]);
  }

  /**
    What an upload can look at before it goes on: no run whatsoever refuses it if and only if its
    object is stored already and no upload at work holds the object's file as its staged one.
   */
  lemma NeverRefusedExactlyWhenSettled(hash: Bytes -> nat, w: World, p: nat)
    requires CollisionFree(hash) && Inv(hash, w) && p in w.puts && w.puts[p].Sealed?
    ensures NeverRefused(hash, w, p) <==> Settled(w, hash(w.puts[p].data))
  {
    var digest := hash(w.puts[p].data);
    if Settled(w, digest) {
      forall steps
        ensures p in Play(hash, w, steps).puts && !Play(hash, w, steps).puts[p].Failed?
      {
        SettledIsSafe(hash, w, p, steps);
      }
    } else if digest in w.objects {
      var q :| q in w.puts && !w.puts[q].Closed? && w.puts[q].ino == w.objects[digest];
      var steps := UnsettledRereadIsRefused(hash, w, p, q);
      assert Play(hash, w, steps).puts[p].Failed?;
    } else {
      var steps := MissingObjectIsRefused(hash, w, p);
      assert Play(hash, w, steps).puts[p].Failed?;
    }
  }

  // -- one such race, written out

  const SECOND_HALF := [Seal(1, None)] + ([LookUp(1)] + ([ReadExisting(1)] + ([Discard(0)] + ([Link(1, true)] + []))))

  /** Two uploads of the same bytes; the first drops its staged name while the second is about to link. */
  const RACE := [Open(0, [])] + ([Seal(0, None)] + ([LookUp(0)] + ([Link(0, true)] + ([Open(1, [])] + SECOND_HALF))))

  /** An upload of bytes that are stored already, and stay stored, can still be told to retry. */
  lemma SameBytesCanConflict(hash: Bytes -> nat)
    ensures var w := Play(hash, FRESH, RACE);
            && 1 in w.puts && w.puts[1].Failed? && w.puts[1].data == []
            && Read(hash, w, hash([])) == Some([])
  {
    PlayFirst(hash, FRESH, Open(0, []), [Seal(0, None)] + ([LookUp(0)] + ([Link(0, true)] + ([Open(1, [])] + SECOND_HALF))));
    var w1 := Next(hash, FRESH, Open(0, []));
    PlayFirst(hash, w1, Seal(0, None), [LookUp(0)] + ([Link(0, true)] + ([Open(1, [])] + SECOND_HALF)));
    var w2 := Next(hash, w1, Seal(0, None));
    PlayFirst(hash, w2, LookUp(0), [Link(0, true)] + ([Open(1, [])] + SECOND_HALF));
    var w3 := Next(hash, w2, LookUp(0));
    PlayFirst(hash, w3, Link(0, true), [Open(1, [])] + SECOND_HALF);
    var w4 := Next(hash, w3, Link(0, true));
    PlayFirst(hash, w4, Open(1, []), SECOND_HALF);
    var w5 := Next(hash, w4, Open(1, []));
    assert w5.objects == map[hash([]) := 0] && w5.puts == map[0 := Done([], 0, false), 1 := Writing([], 1, 0)];
    assert w5.inodes == map[0 := Inode([], 3), 1 := Inode([], 4)];
    SecondUploadConflicts(hash, w5);
  }

  lemma SecondUploadConflicts(hash: Bytes -> nat, w5: World)
    requires w5 == World(map[0 := Inode([], 3), 1 := Inode([], 4)], map[hash([]) := 0],
                         map[0 := Done([], 0, false), 1 := Writing([], 1, 0)], 2, 5)
    ensures var w := Play(hash, w5, SECOND_HALF);
            && 1 in w.puts && w.puts[1].Failed? && w.puts[1].data == []
            && Read(hash, w, hash([])) == Some([])
  {
    PlayFirst(hash, w5, Seal(1, None), [LookUp(1)] + ([ReadExisting(1)] + ([Discard(0)] + ([Link(1, true)] + []))));
    var w6 := Next(hash, w5, Seal(1, None));
    PlayFirst(hash, w6, LookUp(1), [ReadExisting(1)] + ([Discard(0)] + ([Link(1, true)] + [])));
    var w7 := Next(hash, w6, LookUp(1));
    PlayFirst(hash, w7, ReadExisting(1), [Discard(0)] + ([Link(1, true)] + []));
    var w8 := Next(hash, w7, ReadExisting(1));
    PlayFirst(hash, w8, Discard(0), [Link(1, true)] + []);
    assert w8.objects[hash([])] == 0;
    var w9 := Next(hash, w8, Discard(0));
    PlayFirst(hash, w9, Link(1, true), []);
  }
}
