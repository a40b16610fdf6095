/**
  The append-only content-addressed store. An upload is staged in a private file while it is
  hashed, an object already stored under its digest is re-hashed, and publication links the
  staged file under its digest without ever replacing what is there. Uploads run concurrently;
  every filesystem call of every upload is a step of its own.
 */
module ContentStore {
  import opened Wrappers

  type Bytes = seq<bv8>

  const IO_CHUNK_BYTES: nat := 1024 * 1024
  const DEFAULT_MAX_OBJECT_BYTES: nat := 5 * 1024 * 1024 * 1024

  // -- staging one stream

  datatype Staging = Staged(content: Bytes, digest: nat) | BadLimit | TooLarge | WrongDigest

  function Total(chunks: seq<Bytes>): nat {
    if chunks == [] then 0 else |chunks[0]| + Total(chunks[1..])
  }

  function Prefix(data: Bytes, n: nat): Bytes {
    if n <= |data| then data[..n] else data
  }

  function Joined(chunks: seq<Bytes>): (r: Bytes)
    ensures |r| == Total(chunks)
  {
    if chunks == [] then [] else chunks[0] + Joined(chunks[1..])
  }

  lemma {:induction false} JoinedLast(chunks: seq<Bytes>, n: nat)
    requires n < |chunks|
    ensures Joined(chunks[..n + 1]) == Joined(chunks[..n]) + chunks[n]
    ensures Total(chunks[..n + 1]) <= Total(chunks)
    decreases |chunks|
  {
    if n == 0 {
      assert chunks[..1] == [chunks[0]] && chunks[..0] == [];
      assert chunks[..1][1..] == [];
    } else {
      JoinedLast(chunks[1..], n - 1);
      assert chunks[..n + 1][1..] == chunks[1..][..n];
      assert chunks[..n][1..] == chunks[1..][..n - 1];
    }
  }

  lemma Appended(writes: seq<Bytes>, part: Bytes)
    ensures Joined(writes + [part]) == Joined(writes) + part
  {
    JoinedLast(writes + [part], |writes|);
    assert (writes + [part])[..|writes|] == writes;
    assert (writes + [part])[..|writes| + 1] == writes + [part];
  }

  predicate Bounded(writes: seq<Bytes>) {
    forall w | w in writes :: 0 < |w| <= IO_CHUNK_BYTES
  }

  lemma NextPart(before: Bytes, chunk: Bytes, offset: nat, end: nat)
    requires offset <= end <= |chunk|
    ensures before + chunk[..offset] + chunk[offset..end] == before + chunk[..end]
  {
    assert chunk[..offset] + chunk[offset..end] == chunk[..end];
  }

  /** One chunk, in writes of at most IO_CHUNK_BYTES. */
  method WriteChunk(writes: seq<Bytes>, chunk: Bytes) returns (r: seq<Bytes>)
    requires Bounded(writes)
    ensures Bounded(r) && Joined(r) == Joined(writes) + chunk
  {
    r := writes;
    var offset := 0;
    while offset < |chunk|
      invariant 0 <= offset
      invariant Bounded(r) && Joined(r) == Joined(writes) + Prefix(chunk, offset)
    {
      var end := if offset + IO_CHUNK_BYTES < |chunk| then offset + IO_CHUNK_BYTES else |chunk|;
      var part := chunk[offset..end];
      NextPart(Joined(writes), chunk, offset, end);
      Appended(r, part);
      r := r + [part];
      offset := offset + IO_CHUNK_BYTES;
    }
    assert Prefix(chunk, offset) == chunk;
  }

  /**
    Write and hash a stream. It is accepted exactly when the limit is lawful, the stream fits it
    and the digest is the expected one; then the staged file holds every byte in order.
   */
  method Stage(hash: Bytes -> nat, chunks: seq<Bytes>, maxBytes: int, expected: Option<nat>)
    returns (r: Staging, writes: seq<Bytes>)
    ensures r.BadLimit? <==> !(0 < maxBytes <= DEFAULT_MAX_OBJECT_BYTES)
    ensures r.TooLarge? <==> !r.BadLimit? && Total(chunks) > maxBytes
    ensures r.WrongDigest? <==>
              !r.BadLimit? && !r.TooLarge? && expected.Some? && expected.value != hash(Joined(chunks))
    ensures r.Staged? ==> r.content == Joined(chunks) == Joined(writes) && r.digest == hash(r.content)
    ensures Bounded(writes)
  {
    writes := [];
    if !(0 < maxBytes <= DEFAULT_MAX_OBJECT_BYTES) {
      return BadLimit, writes;
    }
    var size := 0;
    var i := 0;
    while i < |chunks|
      invariant 0 <= i <= |chunks|
      invariant Bounded(writes) && Joined(writes) == Joined(chunks[..i])
      invariant size == Total(chunks[..i]) <= maxBytes
    {
      JoinedLast(chunks, i);
      size := size + |chunks[i]|;
      if size > maxBytes {
        return TooLarge, writes;
      }
      writes := WriteChunk(writes, chunks[i]);
      i := i + 1;
    }
    assert chunks[..|chunks|] == chunks;
    var content := Joined(writes);
    var digest := hash(content);
    if expected.Some? && expected.value != digest {
      return WrongDigest, writes;
    }
    return Staged(content, digest), writes;
  }

  // -- concurrent uploads

  /** A file; `stamp` stands for the times that any change of content or link count moves on. */
  datatype Inode = Inode(content: Bytes, stamp: nat)

  datatype Identity = Identity(ino: nat, size: nat, stamp: nat)

  datatype Put =
    | Writing(data: Bytes, ino: nat, written: nat)
    | Sealed(data: Bytes, ino: nat)
    | Looking(data: Bytes, ino: nat, initial: Identity)
    | Looked(data: Bytes, ino: nat, found: Option<Identity>)
    | Done(data: Bytes, ino: nat, deduplicated: bool)
    | Failed(data: Bytes, ino: nat)
    | Closed(data: Bytes, ok: bool)

  datatype World = World(inodes: map<nat, Inode>, objects: map<nat, nat>, puts: map<nat, Put>, next: nat, clock: nat)

  datatype Step =
    | Open(put: nat, data: Bytes)
    | Write(put: nat, count: nat)
    | Seal(put: nat, expected: Option<nat>)
    | LookUp(put: nat)
    | ReadExisting(put: nat)
    | Link(put: nat, synced: bool)            // without `synced` the link is made and flushing it raises
    | Discard(put: nat)

  function IdentityOf(w: World, ino: nat): Identity
    requires ino in w.inodes
  {
    Identity(ino, |w.inodes[ino].content|, w.inodes[ino].stamp)
  }

  predicate Enabled(w: World, s: Step) {
    match s
    case Open(p, _) => p !in w.puts
    case Write(p, count) => p in w.puts && w.puts[p].Writing? && w.puts[p].ino in w.inodes && w.puts[p].written + count <= |w.puts[p].data|
    case Seal(p, _) => p in w.puts && w.puts[p].Writing? && w.puts[p].ino in w.inodes && w.puts[p].written == |w.puts[p].data|
    case LookUp(p) => p in w.puts && w.puts[p].Sealed?
    case ReadExisting(p) => p in w.puts && w.puts[p].Looking? && w.puts[p].initial.ino in w.inodes
    case Link(p, _) => p in w.puts && w.puts[p].Looked? && w.puts[p].ino in w.inodes
    case Discard(p) => p in w.puts && (w.puts[p].Done? || w.puts[p].Failed?)
  }

  function Touch(w: World, ino: nat): map<nat, Inode>
    requires ino in w.inodes
  {
    w.inodes[ino := w.inodes[ino].(stamp := w.clock)]
  }

  function Next(hash: Bytes -> nat, w: World, s: Step): World
    requires Enabled(w, s)
  {
    var t := w.(clock := w.clock + 1);
    match s
    case Open(p, data) =>
      t.(inodes := w.inodes[w.next := Inode([], w.clock)], puts := w.puts[p := Writing(data, w.next, 0)], next := w.next + 1)
    case Write(p, count) =>
      var put := w.puts[p];
      var upto := put.written + count;
      t.(inodes := w.inodes[put.ino := Inode(w.inodes[put.ino].content + put.data[put.written..upto], w.clock)],
         puts := w.puts[p := put.(written := upto)])
    case Seal(p, expected) =>
      var put := w.puts[p];
      var digest := hash(w.inodes[put.ino].content);
      t.(puts := w.puts[p := if expected.Some? && expected.value != digest then Failed(put.data, put.ino) else Sealed(put.data, put.ino)])
    case LookUp(p) =>
      var put := w.puts[p];
      var digest := hash(put.data);
      t.(puts := w.puts[p := if digest in w.objects && w.objects[digest] in w.inodes
                             then Looking(put.data, put.ino, IdentityOf(w, w.objects[digest]))
                             else Looked(put.data, put.ino, None)])
    case ReadExisting(p) =>
      var put := w.puts[p];
      var existing := put.initial.ino;
      var digest := hash(put.data);
      var sound := put.initial.size == |put.data| && IdentityOf(w, existing) == put.initial && hash(w.inodes[existing].content) == digest;
      t.(puts := w.puts[p := if sound then Looked(put.data, put.ino, Some(put.initial)) else Failed(put.data, put.ino)])
    case Link(p, synced) =>
      var put := w.puts[p];
      var digest := hash(put.data);
      if digest !in w.objects then
        t.(inodes := Touch(w, put.ino), objects := w.objects[digest := put.ino],
           puts := w.puts[p := if synced then Done(put.data, put.ino, false) else Failed(put.data, put.ino)])
      else if w.objects[digest] in w.inodes && put.found == Some(IdentityOf(w, w.objects[digest])) then
        t.(puts := w.puts[p := Done(put.data, put.ino, true)])
      else t.(puts := w.puts[p := Failed(put.data, put.ino)])
    case Discard(p) =>
      var put := w.puts[p];
      t.(inodes := if put.ino !in w.inodes then w.inodes
                   else if put.ino in w.objects.Values then Touch(w, put.ino)
                   else w.inodes - {put.ino},
         puts := w.puts[p := Closed(put.data, put.Done?)])
  }

  function Play(hash: Bytes -> nat, w: World, steps: seq<Step>): World
    decreases |steps|
  {
    if steps == [] then w else Play(hash, if Enabled(w, steps[0]) then Next(hash, w, steps[0]) else w, steps[1..])
  }

  const FRESH := World(map[], map[], map[], 0, 0)

  /** Reading an object back re-hashes it. */
  function Read(hash: Bytes -> nat, w: World, digest: nat): Option<Bytes> {
    if digest in w.objects && w.objects[digest] in w.inodes && hash(w.inodes[w.objects[digest]].content) == digest
    then Some(w.inodes[w.objects[digest]].content) else None
  }

  // -- invariants

  /** An upload's private file: its own, and holding what was written so far. */
  predicate Private(w: World, put: Put) {
    && (put.Writing? || put.Sealed? || put.Looking? || put.Looked? ==>
          && put.ino in w.inodes && put.ino < w.next && put.ino !in w.objects.Values
          && w.inodes[put.ino].content == (if put.Writing? then Prefix(put.data, put.written) else put.data))
    && (put.Done? && put.deduplicated ==> put.ino !in w.objects.Values)
    && (put.Done? || put.Failed? ==> put.ino < w.next)
  }

  predicate Apart(w: World) {
    forall p, q | p in w.puts && q in w.puts && p != q && !w.puts[p].Closed? && !w.puts[q].Closed? ::
      w.puts[p].ino != w.puts[q].ino
  }

  predicate Sound(hash: Bytes -> nat, w: World) {
    forall d | d in w.objects :: w.objects[d] in w.inodes && w.objects[d] < w.next && hash(w.inodes[w.objects[d]].content) == d
  }

  /** A finished or closed upload's digest is stored. */
  predicate Stored(hash: Bytes -> nat, w: World) {
    forall p | p in w.puts && (w.puts[p].Done? || (w.puts[p].Closed? && w.puts[p].ok)) :: hash(w.puts[p].data) in w.objects
  }

  predicate Recorded(hash: Bytes -> nat, w: World, put: Put, id: Identity) {
    hash(put.data) in w.objects && id.ino == w.objects[hash(put.data)] && id.ino in w.inodes && id.size == |w.inodes[id.ino].content|
  }

  /** What an upload noted about an existing object names the object stored under its digest. */
  predicate Noted(hash: Bytes -> nat, w: World, put: Put) {
    && (put.Looking? ==> Recorded(hash, w, put, put.initial))
    && (put.Looked? && put.found.Some? ==> Recorded(hash, w, put, put.found.value))
  }

  /** Every change of a file leaves a stamp earlier than the clock. */
  predicate Stamped(w: World) {
    forall i | i in w.inodes :: w.inodes[i].stamp < w.clock
  }

  predicate Inv(hash: Bytes -> nat, w: World) {
    && (forall p | p in w.puts :: Noted(hash, w, w.puts[p]))
    && Sound(hash, w) && Stored(hash, w) && Apart(w) && Stamped(w) && forall p | p in w.puts :: Private(w, w.puts[p])
  }

  lemma StepIsSound(hash: Bytes -> nat, w: World, s: Step)
    requires Inv(hash, w) && Enabled(w, s)
    ensures Sound(hash, Next(hash, w, s)) && Stored(hash, Next(hash, w, s))
    ensures forall d | d in w.objects ::
              && d in Next(hash, w, s).objects && Next(hash, w, s).objects[d] == w.objects[d]
              && Next(hash, w, s).inodes[w.objects[d]].content == w.inodes[w.objects[d]].content
  {
  }

  lemma StepStaysApart(hash: Bytes -> nat, w: World, s: Step)
    requires Inv(hash, w) && Enabled(w, s)
    ensures Apart(Next(hash, w, s))
  {
  }

  /** Stamps only move on. */
  lemma StepStaysStamped(hash: Bytes -> nat, w: World, s: Step)
    requires Inv(hash, w) && Enabled(w, s)
    ensures Stamped(Next(hash, w, s))
    ensures forall i | i in w.inodes && i in Next(hash, w, s).inodes :: w.inodes[i].stamp <= Next(hash, w, s).inodes[i].stamp
  {
  }

  lemma StepStaysPrivate(hash: Bytes -> nat, w: World, s: Step, p: nat)
    requires Inv(hash, w) && Enabled(w, s) && p in Next(hash, w, s).puts
    ensures Private(Next(hash, w, s), Next(hash, w, s).puts[p])
  {
    var w' := Next(hash, w, s);
    if s.put != p {
      assert w'.puts[p] == w.puts[p] && Private(w, w.puts[p]);
    }
  }

  lemma StepStaysNoted(hash: Bytes -> nat, w: World, s: Step, p: nat)
    requires Inv(hash, w) && Enabled(w, s) && p in Next(hash, w, s).puts
    ensures Noted(hash, Next(hash, w, s), Next(hash, w, s).puts[p])
  {
    var w' := Next(hash, w, s);
    StepIsSound(hash, w, s);
    if s.put != p {
      assert w'.puts[p] == w.puts[p];
      NotedStays(hash, w, w', w.puts[p]);
    } else if s.ReadExisting? {
      assert Noted(hash, w, w.puts[p]);
    }
  }

  lemma NotedStays(hash: Bytes -> nat, w: World, w': World, put: Put)
    requires Noted(hash, w, put) && Sound(hash, w) && Sound(hash, w')
    requires forall d | d in w.objects ::
               d in w'.objects && w'.objects[d] == w.objects[d] && w'.inodes[w.objects[d]].content == w.inodes[w.objects[d]].content
    ensures Noted(hash, w', put)
  {
  }

  lemma StepKeepsInv(hash: Bytes -> nat, w: World, s: Step)
    requires Inv(hash, w) && Enabled(w, s)
    ensures Inv(hash, Next(hash, w, s))
  {
    var w' := Next(hash, w, s);
    StepIsSound(hash, w, s);
    StepStaysApart(hash, w, s);
    StepStaysStamped(hash, w, s);
    forall p | p in w'.puts
      ensures Private(w', w'.puts[p]) && Noted(hash, w', w'.puts[p])
    {
      StepStaysNoted(hash, w, s, p);
      StepStaysPrivate(hash, w, s, p);
    }
  }

  lemma {:induction false} PlayKeepsInv(hash: Bytes -> nat, w: World, steps: seq<Step>)
    requires Inv(hash, w)
    ensures Inv(hash, Play(hash, w, steps))
    ensures forall d | d in w.objects ::
              && d in Play(hash, w, steps).objects && Play(hash, w, steps).objects[d] == w.objects[d]
              && Read(hash, Play(hash, w, steps), d) == Read(hash, w, d)
    decreases |steps|
  {
    if steps != [] {
      if Enabled(w, steps[0]) {
        StepIsSound(hash, w, steps[0]);
        StepKeepsInv(hash, w, steps[0]);
        PlayKeepsInv(hash, Next(hash, w, steps[0]), steps[1..]);
      } else {
        PlayKeepsInv(hash, w, steps[1..]);
      }
    }
  }

  lemma {:induction false} PlayAppend(hash: Bytes -> nat, w: World, before: seq<Step>, after: seq<Step>)
    ensures Play(hash, w, before + after) == Play(hash, Play(hash, w, before), after)
    decreases |before|
  {
    if before == [] {
      assert before + after == after;
    } else {
      assert (before + after)[1..] == before[1..] + after;
      PlayAppend(hash, if Enabled(w, before[0]) then Next(hash, w, before[0]) else w, before[1..], after);
    }
  }

  /** However uploads interleave, every stored object reads back, and reads back the same forever after. */
  lemma ObjectsNeverChange(hash: Bytes -> nat, before: seq<Step>, after: seq<Step>, digest: nat)
    requires digest in Play(hash, FRESH, before).objects
    ensures Read(hash, Play(hash, FRESH, before), digest).Some?
    ensures hash(Read(hash, Play(hash, FRESH, before), digest).value) == digest
    ensures Read(hash, Play(hash, FRESH, before + after), digest) == Read(hash, Play(hash, FRESH, before), digest)
  {
    PlayKeepsInv(hash, FRESH, before);
    PlayAppend(hash, FRESH, before, after);
    PlayKeepsInv(hash, Play(hash, FRESH, before), after);
  }

  ghost predicate CollisionFree(hash: Bytes -> nat) {
    forall a: Bytes, b: Bytes :: hash(a) == hash(b) ==> a == b
  }

  /** An upload that succeeded, whether it stored its bytes or found them, reads back its own bytes. */
  lemma SuccessfulPutReadsBack(hash: Bytes -> nat, steps: seq<Step>, p: nat)
    requires CollisionFree(hash) && p in Play(hash, FRESH, steps).puts
    requires var put := Play(hash, FRESH, steps).puts[p]; put.Done? || (put.Closed? && put.ok)
    ensures var w := Play(hash, FRESH, steps);
            Read(hash, w, hash(w.puts[p].data)) == Some(w.puts[p].data)
  {
    PlayKeepsInv(hash, FRESH, steps);
  }

  /** Only a link adds an object, and the object is that upload's own bytes, even if flushing the link raises. */
  lemma OnlyLinksPublish(hash: Bytes -> nat, steps: seq<Step>, s: Step, digest: nat)
    requires Enabled(Play(hash, FRESH, steps), s)
    requires digest in Next(hash, Play(hash, FRESH, steps), s).objects && digest !in Play(hash, FRESH, steps).objects
    ensures var w := Next(hash, Play(hash, FRESH, steps), s);
            && s.Link? && digest == hash(w.puts[s.put].data) && w.puts[s.put].Done? == s.synced
            && Read(hash, w, digest) == Some(w.puts[s.put].data)
  {
    PlayKeepsInv(hash, FRESH, steps);
  }

  lemma PlayFirst(hash: Bytes -> nat, w: World, s: Step, rest: seq<Step>)
    requires Enabled(w, s)
    ensures Play(hash, w, [s] + rest) == Play(hash, Next(hash, w, s), rest)
  {
    assert ([s] + rest)[1..] == rest;
  }

  // -- uploads with a declared digest, and what is left behind

  /** An upload that failed, and one closed without success, publish nothing more. */
  predicate Lost(put: Put) {
    put.Failed? || (put.Closed? && !put.ok)
  }

  lemma {:induction false} LostStaysLost(hash: Bytes -> nat, w: World, steps: seq<Step>, p: nat)
    requires p in w.puts && Lost(w.puts[p])
    ensures var end := Play(hash, w, steps); p in end.puts && Lost(end.puts[p]) && end.puts[p].data == w.puts[p].data
    decreases |steps|
  {
    if steps != [] {
      LostStaysLost(hash, if Enabled(w, steps[0]) then Next(hash, w, steps[0]) else w, steps[1..], p);
    }
  }

  /** A declared digest is held to: the upload goes on exactly if its bytes have it, and otherwise never succeeds. */
  lemma DeclaredDigestIsHeld(hash: Bytes -> nat, w: World, p: nat, expected: nat, later: seq<Step>)
    requires Inv(hash, w) && Enabled(w, Seal(p, Some(expected)))
    ensures var sealed := Next(hash, w, Seal(p, Some(expected)));
      var end := Play(hash, sealed, later);
      && (sealed.puts[p].Sealed? <==> hash(w.puts[p].data) == expected)
      && (hash(w.puts[p].data) != expected ==> p in end.puts && Lost(end.puts[p]))
  {
    assert Private(w, w.puts[p]);
    assert w.inodes[w.puts[p].ino].content == w.puts[p].data;
    var sealed := Next(hash, w, Seal(p, Some(expected)));
    if hash(w.puts[p].data) != expected {
      LostStaysLost(hash, sealed, later, p);
    }
  }

  /** Every file is a stored object or the staged file of an upload at work. */
  predicate NoLeftovers(w: World) {
    forall i | i in w.inodes :: i in w.objects.Values || exists p :: p in w.puts && !w.puts[p].Closed? && w.puts[p].ino == i
  }

  lemma StepLeavesNothing(hash: Bytes -> nat, w: World, s: Step)
    requires Inv(hash, w) && NoLeftovers(w) && Enabled(w, s)
    ensures NoLeftovers(Next(hash, w, s))
  {
    var w' := Next(hash, w, s);
    forall i | i in w'.inodes
      ensures i in w'.objects.Values || exists p :: p in w'.puts && !w'.puts[p].Closed? && w'.puts[p].ino == i
    {
      if i !in w.inodes {
        assert s.put in w'.puts && w'.puts[s.put].ino == i;
      } else if i in w.objects.Values {
        var d :| d in w.objects && w.objects[d] == i;
        StepIsSound(hash, w, s);
        assert w'.objects[d] == i;
      } else {
        var p :| p in w.puts && !w.puts[p].Closed? && w.puts[p].ino == i;
        assert p in w'.puts;
        assert s.Discard? && s.put == p ==> i !in w'.inodes;
        assert w'.puts[p].Closed? || w'.puts[p].ino == i;
      }
    }
  }

  /** A store that uploads have come and gone from holds objects, and nothing else of theirs. */
  lemma {:induction false} UploadsLeaveNothing(hash: Bytes -> nat, w: World, steps: seq<Step>)
    requires Inv(hash, w) && NoLeftovers(w)
    ensures NoLeftovers(Play(hash, w, steps))
    decreases |steps|
  {
    if steps != [] {
      if Enabled(w, steps[0]) {
        StepLeavesNothing(hash, w, steps[0]);
        StepKeepsInv(hash, w, steps[0]);
        UploadsLeaveNothing(hash, Next(hash, w, steps[0]), steps[1..]);
      } else {
        UploadsLeaveNothing(hash, w, steps[1..]);
      }
    }
  }
}
