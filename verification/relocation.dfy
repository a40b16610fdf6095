/**
  Moving a support root to another place on the same volume: the destination's own entries
  are staged aside, the root is renamed over, its metadata rewritten, the staged entries
  merged in one by one, and the runtime started from the new place. Any step may fail; the
  reverse then undoes whatever prefix was done.

  A directory is its top-level entries. An entry keeps its identity when it is renamed or
  when files inside it are rewritten.
 */
module Relocation {
  import opened Wrappers

  const HANDOFF := "relocation-handoff.json"

  /** A top-level entry: its identity and the bytes of the files below it. */
  datatype Node = Node(id: nat, files: map<string, string>)

  type Dir = map<string, Node>

  /** A metadata file below a top-level entry. */
  datatype File = File(top: string, rest: string)

  type Snapshot = map<File, string>

  datatype Roots = Roots(current: Option<Dir>, destination: Option<Dir>, aux: Option<Dir>)

  /** What a rename or a write meets; a late failure comes after the effect, from the flush that follows. */
  datatype Luck = Ok | Raise | RaiseLate

  predicate Happens(l: Luck) { l != Raise }

  datatype Rewrite = Rewrite(file: File, bytes: string, luck: Luck)

  /** Everything outside the relocation's control, step by step. */
  datatype Plan = Plan(
    stage: Luck, move: Luck, rewrites: seq<Rewrite>, handoff: Luck, merge: string -> Luck,
    started: bool, running: Dir, verified: Luck, unstage: bool,
    stopped: bool, unmerge: string -> Luck, back: Luck, backAux: Luck, restore: File -> Luck, restarted: bool)

  datatype Verdict = Relocated | RolledBack | RollbackFailed | Refused

  function WriteFile(d: Dir, f: File, bytes: string): Dir
    requires f.top in d
  {
    d[f.top := d[f.top].(files := d[f.top].files[f.rest := bytes])]
  }

  /** Every entry of `names`, the handoff file aside, is in `d` under its name with its identity. */
  predicate Carries(d: Dir, names: Dir) {
    forall n | n in names && n != HANDOFF :: n in d && d[n].id == names[n].id
  }

  /** Every entry of `names`, the handoff file aside, is in `d` as it was. */
  predicate Holds(d: Dir, names: Dir) {
    forall n | n in names && n != HANDOFF :: n in d && d[n] == names[n]
  }

  /** The runtime started from the new root may write below its own entries and add entries; it leaves the others alone. */
  predicate Respects(before: Dir, after: Dir, others: Dir) {
    && (forall n | n in before :: n in after && after[n].id == before[n].id)
    && (forall n | n in before && n in others :: after[n] == before[n])
    && (forall n | n in after && n !in before :: n !in others)
  }

  predicate Restored(d: Dir, snapshot: Snapshot) {
    forall f | f in snapshot :: f.top in d && f.rest in d[f.top].files && d[f.top].files[f.rest] == snapshot[f]
  }

  /** Both roots are back: every entry under its original name, and the metadata as snapshotted. */
  predicate Undone(start: Roots, end: Roots, snapshot: Snapshot)
    requires start.current.Some?
  {
    && end.current.Some? && Carries(end.current.value, start.current.value) && Restored(end.current.value, snapshot)
    && end.aux.None? && end.destination.Some? == start.destination.Some?
    && (start.destination.Some? ==>
          end.destination.value.Keys == start.destination.value.Keys && Holds(end.destination.value, start.destination.value))
  }

  /** No entry of either root is lost, wherever the run stopped. */
  predicate NothingLost(start: Roots, end: Roots)
    requires start.current.Some?
  {
    && (forall n | n in start.current.value && n != HANDOFF ::
          || (end.current.Some? && n in end.current.value && end.current.value[n].id == start.current.value[n].id)
          || (end.destination.Some? && n in end.destination.value && end.destination.value[n].id == start.current.value[n].id))
    && (start.destination.Some? ==>
          forall n | n in start.destination.value && n != HANDOFF ::
            || (end.destination.Some? && n in end.destination.value && end.destination.value[n] == start.destination.value[n])
            || (end.aux.Some? && n in end.aux.value && end.aux.value[n] == start.destination.value[n]))
  }

  predicate AllMerge(entries: set<string>, luck: string -> Luck) {
    forall n | n in entries :: luck(n) == Ok
  }

  function Entries(root: Option<Dir>): set<string> {
    if root.Some? then root.value.Keys else {}
  }

  /** Every forward step goes well. */
  predicate Succeeds(start: Roots, plan: Plan) {
    && plan.move == Ok && (forall r | r in plan.rewrites :: r.luck == Ok) && plan.handoff == Ok
    && (start.destination.Some? ==> plan.stage == Ok && plan.unstage) && AllMerge(Entries(start.destination), plan.merge)
    && plan.started && plan.verified == Ok
  }

  /** Every reverse step goes well. */
  predicate Reverses(start: Roots, snapshot: Snapshot, plan: Plan) {
    && plan.stopped && AllMerge(Entries(start.destination), plan.unmerge)
    && plan.back == Ok && plan.backAux == Ok
    && (forall f | f in snapshot :: plan.restore(f) == Ok) && plan.restarted
  }

  /** What the cutover has done so far. */
  datatype Progress = Progress(roots: Roots, moved: bool, staged: bool, merged: seq<string>)

  predicate Distinct(names: seq<string>) {
    forall i, j | 0 <= i < j < |names| :: names[i] != names[j]
  }

  /** The destination's own entries, some merged into the moved root and the others still staged aside. */
  predicate Split(was: Dir, into: Dir, aux: Dir, merged: seq<string>) {
    && Distinct(merged)
    && (forall n | n in was :: n in merged || n in aux)
    && (forall n | n in aux :: n in was && n !in merged && (n == HANDOFF || aux[n] == was[n]))
    && (forall n | n in merged :: n in was && n in into && (n == HANDOFF || into[n] == was[n]))
  }

  /** The names after any prefix of the cutover. */
  predicate Consistent(start: Roots, p: Progress)
    requires start.current.Some?
  {
    && (p.staged ==> start.destination.Some?)
    && p.staged == p.roots.aux.Some?
    && if !p.moved then
         && p.roots.current == start.current && p.merged == []
         && (if p.staged then p.roots.destination.None? && p.roots.aux == start.destination
             else p.roots.destination == start.destination)
       else
         && p.roots.current.None? && p.roots.destination.Some?
         && Carries(p.roots.destination.value, start.current.value)
         && (if p.staged
             then Split(start.destination.value, p.roots.destination.value, p.roots.aux.value, p.merged)
             else start.destination.None? && p.merged == [])
  }

  /** Entries of the two roots do not share a name. */
  predicate Separate(start: Roots) {
    && start.current.Some? && start.aux.None?
    && (start.destination.Some? ==> start.current.value.Keys !! start.destination.value.Keys)
  }

  lemma MergeOne(was: Dir, into: Dir, aux: Dir, merged: seq<string>, entry: string)
    requires Split(was, into, aux, merged) && entry in aux
    ensures Split(was, into[entry := aux[entry]], aux - {entry}, merged + [entry])
  {}

  lemma UnmergeOne(was: Dir, into: Dir, aux: Dir, merged: seq<string>)
    requires Split(was, into, aux, merged) && merged != []
    ensures var n := |merged| - 1; Split(was, into - {merged[n]}, aux[merged[n] := into[merged[n]]], merged[..n])
  {
    var n := |merged| - 1;
    assert merged == merged[..n] + [merged[n]];
  }

  lemma UnmergedIsWhole(was: Dir, into: Dir, aux: Dir)
    requires Split(was, into, aux, [])
    ensures aux.Keys == was.Keys && Holds(aux, was)
  {}

  /** The moved root's own entries are in `after` as they were in `before`. */
  predicate Keeps(start: Roots, before: Dir, after: Dir)
    requires start.current.Some?
  {
    forall n | n in start.current.value && n != HANDOFF && n in before :: n in after && after[n] == before[n]
  }

  /** The staged entries, one rename each, in whatever order they are listed. */
  method Merge(start: Roots, p: Progress, plan: Plan) returns (ok: bool, q: Progress)
    requires Separate(start) && Consistent(start, p) && p.moved && p.staged && p.merged == []
    ensures Consistent(start, q) && q.moved && q.staged
    ensures ok ==> q.roots.aux == Some(map[])
    ensures ok <==> AllMerge(Entries(start.destination), plan.merge)
    ensures Keeps(start, p.roots.destination.value, q.roots.destination.value)
  {
    var into, aux, merged := p.roots.destination.value, p.roots.aux.value, p.merged;
    while aux != map[]
      invariant Split(start.destination.value, into, aux, merged) && Carries(into, start.current.value)
      invariant Keeps(start, p.roots.destination.value, into)
      invariant forall n | n in merged :: plan.merge(n) == Ok
      decreases aux.Keys
    {
      var entry :| entry in aux;
      var luck := plan.merge(entry);
      if !Happens(luck) { return false, Progress(Roots(None, Some(into), Some(aux)), true, true, merged); }
      MergeOne(start.destination.value, into, aux, merged, entry);
      into, aux, merged := into[entry := aux[entry]], aux - {entry}, merged + [entry];
      if luck != Ok { return false, Progress(Roots(None, Some(into), Some(aux)), true, true, merged); }
    }
    return true, Progress(Roots(None, Some(into), Some(aux)), true, true, merged);
  }

  predicate FlushedFrom(plan: Plan, names: seq<string>, k: int) {
    forall i | 0 <= k <= i < |names| :: plan.unmerge(names[i]) == Ok
  }

  lemma FlushedStep(plan: Plan, names: seq<string>, k: nat)
    requires 0 < k <= |names|
    ensures FlushedFrom(plan, names, k - 1) <==> FlushedFrom(plan, names, k) && plan.unmerge(names[k - 1]) == Ok
  {
  }

  /** The merged entries back to the staging directory, last first. */
  method Unmerge(start: Roots, p: Progress, plan: Plan) returns (ok: bool, flushed: bool, q: Progress)
    requires Separate(start) && Consistent(start, p) && p.moved && p.staged
    ensures Consistent(start, q) && q.moved && q.staged
    ensures ok ==> q.merged == []
    ensures ok && flushed <==> FlushedFrom(plan, p.merged, 0)
    ensures Keeps(start, p.roots.destination.value, q.roots.destination.value)
  {
    var into, aux, merged := p.roots.destination.value, p.roots.aux.value, p.merged;
    flushed := true;
    while merged != []
      invariant Split(start.destination.value, into, aux, merged) && Carries(into, start.current.value)
      invariant Keeps(start, p.roots.destination.value, into)
      invariant merged <= p.merged
      invariant flushed <==> FlushedFrom(plan, p.merged, |merged|)
      decreases |merged|
    {
      var n := |merged| - 1;
      var luck := plan.unmerge(merged[n]);
      FlushedStep(plan, p.merged, n + 1);
      if !Happens(luck) { return false, flushed, Progress(Roots(None, Some(into), Some(aux)), true, true, merged); }
      UnmergeOne(start.destination.value, into, aux, merged);
      into, aux, merged := into - {merged[n]}, aux[merged[n] := into[merged[n]]], merged[..n];
      if luck != Ok { flushed := false; }
    }
    return true, flushed, Progress(Roots(None, Some(into), Some(aux)), true, true, merged);
  }

  lemma ConsistentLosesNothing(start: Roots, p: Progress)
    requires Separate(start) && Consistent(start, p)
    ensures NothingLost(start, p.roots)
  {}

  /** The metadata files lie below entries of the moved root. */
  predicate Below(files: set<File>, d: Dir) {
    forall f | f in files :: f.top in d && f.top != HANDOFF
  }

  function Rewritten(d: Dir, rewrites: seq<Rewrite>): Dir {
    if rewrites == [] then d
    else
      var last := rewrites[|rewrites| - 1];
      var before := Rewritten(d, rewrites[..|rewrites| - 1]);
      if last.file.top in before then WriteFile(before, last.file, last.bytes) else before
  }

  /** The bytes the last of these rewrites of a file gives it. */
  function LastBytes(rewrites: seq<Rewrite>, f: File): Option<string> {
    if rewrites == [] then None
    else if rewrites[|rewrites| - 1].file == f then Some(rewrites[|rewrites| - 1].bytes)
    else LastBytes(rewrites[..|rewrites| - 1], f)
  }

  function BytesAt(d: Dir, f: File): Option<string> {
    if f.top in d && f.rest in d[f.top].files then Some(d[f.top].files[f.rest]) else None
  }

  /** The same entries as `was`, with every file as the rewrites leave it: the rewritten ones with their last bytes, the others as they were. */
  ghost predicate Repathed(was: Dir, rewrites: seq<Rewrite>, now: Dir) {
    && now.Keys == was.Keys && (forall n | n in was :: now[n].id == was[n].id)
    && (forall f :: BytesAt(now, f) == if LastBytes(rewrites, f).Some? then LastBytes(rewrites, f) else BytesAt(was, f))
  }

  lemma {:induction false} RewrittenIsRepathed(was: Dir, rewrites: seq<Rewrite>)
    requires forall r | r in rewrites :: r.file.top in was
    ensures Repathed(was, rewrites, Rewritten(was, rewrites))
    decreases |rewrites|
  {
    if rewrites != [] {
      var n := |rewrites| - 1;
      RewrittenIsRepathed(was, rewrites[..n]);
      assert rewrites[n] in rewrites;
      WriteTouchesOne(Rewritten(was, rewrites[..n]), rewrites[n].file, rewrites[n].bytes);
    }
  }

  lemma WriteTouchesOne(d: Dir, f: File, bytes: string)
    requires f.top in d
    ensures WriteFile(d, f, bytes).Keys == d.Keys && (forall n | n in d :: WriteFile(d, f, bytes)[n].id == d[n].id)
    ensures forall g :: BytesAt(WriteFile(d, f, bytes), g) == if g == f then Some(bytes) else BytesAt(d, g)
  {
  }

  /** Catalog first, then the profiles; the paths in them now name the new root. */
  method RewriteMetadata(start: Roots, into: Dir, rewrites: seq<Rewrite>) returns (ok: bool, after: Dir)
    requires Separate(start) && Carries(into, start.current.value)
    requires Below(set r | r in rewrites :: r.file, start.current.value)
    ensures Carries(after, start.current.value)
    ensures ok <==> forall r | r in rewrites :: r.luck == Ok
    ensures ok ==> after == Rewritten(into, rewrites)
  {
    after := into;
    for i := 0 to |rewrites|
      invariant Carries(after, start.current.value) && after == Rewritten(into, rewrites[..i])
      invariant forall k | 0 <= k < i :: rewrites[k].luck == Ok
    {
      var r := rewrites[i];
      assert rewrites[..i + 1][..i] == rewrites[..i];
      assert r.file in (set q | q in rewrites :: q.file);
      if Happens(r.luck) { after := WriteFile(after, r.file, r.bytes); }
      if r.luck != Ok { return false, after; }
    }
    assert rewrites[..|rewrites|] == rewrites;
    ok := true;
  }

  /** Both roots' entries are under the destination and nothing is left elsewhere. */
  predicate Joined(start: Roots, end: Roots)
    requires start.current.Some?
  {
    && end.current.None? && end.aux.None? && end.destination.Some?
    && Carries(end.destination.value, start.current.value)
    && (start.destination.Some? ==> Holds(end.destination.value, start.destination.value))
  }

  /** What the runtime is started from: the moved root with its metadata repathed, and the destination's own entries. */
  ghost predicate ReadyToRun(start: Roots, plan: Plan, ready: Dir)
    requires start.current.Some?
  {
    && (exists moved :: Repathed(start.current.value, plan.rewrites, moved) && Keeps(start, moved, ready))
    && (start.destination.Some? ==> Holds(ready, start.destination.value))
  }

  /** What a started runtime leaves of it; the handoff file is rewritten when the start is recorded. */
  predicate RanFrom(start: Roots, plan: Plan, ready: Dir, end: Dir) {
    var others := if start.destination.Some? then start.destination.value else map[];
    end == (if Respects(ready, plan.running, others) then plan.running else ready)[HANDOFF := Node(0, map[])]
  }

  lemma AssembledIsReady(start: Roots, plan: Plan, ready: Dir)
    requires Separate(start) && Below(set r | r in plan.rewrites :: r.file, start.current.value)
    requires Keeps(start, Rewritten(start.current.value, plan.rewrites), ready)
    requires start.destination.Some? ==> Holds(ready, start.destination.value)
    ensures ReadyToRun(start, plan, ready)
  {
    forall r | r in plan.rewrites ensures r.file.top in start.current.value {
      assert r.file in (set q | q in plan.rewrites :: q.file);
    }
    RewrittenIsRepathed(start.current.value, plan.rewrites);
  }

  /** The moved root and the destination's own entries in one place. */
  method Assemble(start: Roots, plan: Plan) returns (ok: bool, p: Progress)
    requires Separate(start) && Below(set r | r in plan.rewrites :: r.file, start.current.value)
    ensures Consistent(start, p)
    ensures ok ==> p.moved && p.staged == start.destination.Some? && (p.staged ==> p.roots.aux == Some(map[]))
    ensures ok ==> Keeps(start, Rewritten(start.current.value, plan.rewrites), p.roots.destination.value)
    ensures ok <==>
      && (start.destination.Some? ==> plan.stage == Ok) && plan.move == Ok
      && (forall r | r in plan.rewrites :: r.luck == Ok) && plan.handoff == Ok
      && AllMerge(Entries(start.destination), plan.merge)
  {
    ok, p := TakeOver(start, plan);
    if ok && p.staged {
      ok, p := Merge(start, p, plan);
    }
  }

  method Cutover(start: Roots, plan: Plan) returns (ok: bool, p: Progress, ghost ready: Dir)
    requires Separate(start) && Below(set r | r in plan.rewrites :: r.file, start.current.value)
    ensures !ok ==> Consistent(start, p)
    ensures ok ==> Joined(start, p.roots)
    ensures ok ==> ReadyToRun(start, plan, ready) && RanFrom(start, plan, ready, p.roots.destination.value)
    ensures ok <==> Succeeds(start, plan)
  {
    ready := map[];
    ok, p := Assemble(start, plan);
    if !ok { return; }
    ready := p.roots.destination.value;
    AssembledIsReady(start, plan, ready);
    ok, p := Settle(start, p, plan);
  }

  /** Stage the destination aside, move the root in, and rewrite the paths its metadata names. */
  method TakeOver(start: Roots, plan: Plan) returns (ok: bool, p: Progress)
    requires Separate(start) && Below(set r | r in plan.rewrites :: r.file, start.current.value)
    ensures Consistent(start, p) && p.merged == []
    ensures ok ==> p.moved && p.staged == start.destination.Some?
    ensures ok ==> p.roots.destination == Some(Rewritten(start.current.value, plan.rewrites)[HANDOFF := Node(0, map[])])
    ensures ok <==>
      && (start.destination.Some? ==> plan.stage == Ok) && plan.move == Ok
      && (forall r | r in plan.rewrites :: r.luck == Ok) && plan.handoff == Ok
  {
    p := Progress(start, false, false, []);
    if start.destination.Some? {
      if !Happens(plan.stage) { return false, p; }
      p := Progress(Roots(start.current, None, start.destination), false, true, []);
      if plan.stage != Ok { return false, p; }
    }
    if !Happens(plan.move) { return false, p; }
    p := Progress(Roots(None, start.current, p.roots.aux), true, p.staged, []);
    if plan.move != Ok { return false, p; }

    var rewritten, into := RewriteMetadata(start, p.roots.destination.value, plan.rewrites);
    p := p.(roots := p.roots.(destination := Some(into)));
    if !rewritten { return false, p; }
    if Happens(plan.handoff) { p := p.(roots := p.roots.(destination := Some(into[HANDOFF := Node(0, map[])]))); }
    ok := plan.handoff == Ok;
  }

  /** Start the runtime from the new root, record that it answered, and drop the staging directory. */
  method Settle(start: Roots, before: Progress, plan: Plan) returns (ok: bool, p: Progress)
    requires Separate(start) && Consistent(start, before) && before.moved && before.staged == start.destination.Some?
    requires before.staged ==> before.roots.aux == Some(map[])
    ensures !ok ==> Consistent(start, p)
    ensures ok ==> Joined(start, p.roots)
    ensures ok ==> RanFrom(start, plan, before.roots.destination.value, p.roots.destination.value)
    ensures ok <==> plan.started && plan.verified == Ok && (start.destination.Some? ==> plan.unstage)
  {
    p := before;
    var into := p.roots.destination.value;
    if Respects(into, plan.running, if start.destination.Some? then start.destination.value else map[]) {
      p := p.(roots := p.roots.(destination := Some(plan.running)));
    }
    if !plan.started { return false, p; }
    into := p.roots.destination.value;
    if Happens(plan.verified) { p := p.(roots := p.roots.(destination := Some(into[HANDOFF := Node(0, map[])]))); }
    if plan.verified != Ok { return false, p; }
    if p.staged {
      if !plan.unstage { return false, p; }
      p := p.(roots := p.roots.(aux := None), staged := false);
    }
    ok := true;
  }

  /** The moved root's entries hold the same bytes in both, except in these files. */
  ghost predicate SameOutside(start: Roots, before: Dir, after: Dir, files: set<File>)
    requires start.current.Some?
  {
    forall f: File | f.top in start.current.value && f.top != HANDOFF && f !in files :: BytesAt(after, f) == BytesAt(before, f)
  }

  /** The moved root as the cutover left it. */
  function Own(p: Progress): Dir
    requires if p.moved then p.roots.destination.Some? else p.roots.current.Some?
  {
    if p.moved then p.roots.destination.value else p.roots.current.value
  }

  method RestoreMetadata(start: Roots, d: Dir, snapshot: Snapshot, plan: Plan) returns (ok: bool, after: Dir)
    requires Separate(start) && Carries(d, start.current.value) && Below(snapshot.Keys, start.current.value)
    ensures Carries(after, start.current.value)
    ensures ok ==> Restored(after, snapshot)
    ensures ok <==> forall f | f in snapshot :: plan.restore(f) == Ok
    ensures SameOutside(start, d, after, snapshot.Keys)
  {
    after := d;
    var todo := snapshot.Keys;
    while todo != {}
      invariant todo <= snapshot.Keys && Carries(after, start.current.value) && SameOutside(start, d, after, snapshot.Keys)
      invariant forall f | f in snapshot && f !in todo :: BytesAt(after, f) == Some(snapshot[f]) && plan.restore(f) == Ok
    {
      var f :| f in todo;
      WriteTouchesOne(after, f, snapshot[f]);
      if Happens(plan.restore(f)) { after := WriteFile(after, f, snapshot[f]); }
      if plan.restore(f) != Ok { return false, after; }
      todo := todo - {f};
    }
    ok := true;
  }

  /** The reverse of this prefix goes well: what was done is undone and flushed, the metadata restored, the owner started. */
  predicate ReversesFrom(p: Progress, snapshot: Snapshot, plan: Plan) {
    && (p.moved ==> plan.stopped && plan.back == Ok && (p.staged ==> FlushedFrom(plan, p.merged, 0)))
    && (p.staged ==> plan.backAux == Ok)
    && (forall f | f in snapshot :: plan.restore(f) == Ok) && plan.restarted
  }

  /**
    The reverse of any prefix of the cutover. One that completes has put both roots back; one
    that does not has still lost nothing.
   */
  method Rollback(start: Roots, snapshot: Snapshot, p: Progress, plan: Plan) returns (verdict: Verdict, end: Roots)
    requires Separate(start) && Consistent(start, p) && Below(snapshot.Keys, start.current.value)
    ensures NothingLost(start, end)
    ensures verdict == RolledBack || verdict == RollbackFailed
    ensures verdict == RolledBack ==> Undone(start, end, snapshot)
    ensures verdict == RolledBack ==> SameOutside(start, Own(p), end.current.value, snapshot.Keys)
    ensures verdict == RolledBack <==> ReversesFrom(p, snapshot, plan)
    ensures Reverses(start, snapshot, plan) ==> verdict == RolledBack
  {
    var q, flushed := p, true;
    ConsistentLosesNothing(start, q);
    if q.moved && q.roots.destination.Some? && q.roots.current.None? {
      if !plan.stopped { return RollbackFailed, q.roots; }
      if q.staged {
        var unmerged;
        unmerged, flushed, q := Unmerge(start, q, plan);
        ConsistentLosesNothing(start, q);
        if !unmerged { return RollbackFailed, q.roots; }
        UnmergedIsWhole(start.destination.value, q.roots.destination.value, q.roots.aux.value);
      }
      if !Happens(plan.back) { return RollbackFailed, q.roots; }
      flushed := flushed && plan.back == Ok;
      q := Progress(Roots(q.roots.destination, None, q.roots.aux), false, q.staged, []);
    }
    if q.staged && q.roots.aux.Some? && q.roots.destination.None? {
      if !Happens(plan.backAux) { return RollbackFailed, q.roots; }
      flushed := flushed && plan.backAux == Ok;
      q := Progress(Roots(q.roots.current, q.roots.aux, None), false, false, []);
    }
    if q.roots.current.None? { return RollbackFailed, q.roots; }
    var restored, current := RestoreMetadata(start, q.roots.current.value, snapshot, plan);
    end := q.roots.(current := Some(current));
    verdict := if restored && flushed && plan.restarted then RolledBack else RollbackFailed;
  }

  /** One relocation: it joins the roots, or it undoes itself, or it stops with every entry still in place. */
  method Relocate(start: Roots, snapshot: Snapshot, plan: Plan) returns (verdict: Verdict, end: Roots)
    requires start.aux.None?
    requires start.current.Some? ==>
      Below(snapshot.Keys, start.current.value) && Below(set r | r in plan.rewrites :: r.file, start.current.value)
    ensures verdict == Refused <==> !Separate(start)
    ensures verdict == Refused ==> end == start
    ensures verdict == Relocated <==> Separate(start) && Succeeds(start, plan)
    ensures verdict == Relocated ==>
      && Joined(start, end)
      && exists ready :: ReadyToRun(start, plan, ready) && RanFrom(start, plan, ready, end.destination.value)
    ensures verdict == RolledBack ==> Undone(start, end, snapshot)
    ensures verdict == RollbackFailed ==> NothingLost(start, end) && !Reverses(start, snapshot, plan)
  {
    if start.current.None? { return Refused, start; }
    if start.destination.Some? && !(start.current.value.Keys !! start.destination.value.Keys) { return Refused, start; }
    var ok, p, ready := Cutover(start, plan);
    if ok { return Relocated, p.roots; }
    verdict, end := Rollback(start, snapshot, p, plan);
  }
}
