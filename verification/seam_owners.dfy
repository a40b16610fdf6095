/**
  Which picture owners meet at a seam. The code sweeps each track's owners once, in order of
  start, remembering the one that reaches furthest; the definition pairs each later owner with
  its earliest predecessor of maximal end.
 */
module SeamOwners {
  import opened Wrappers

  datatype Owner = Owner(primary: bool, track: string, startFrame: int, endFrame: int, path: string)

  // -- a stable sort by start frame, then end frame

  predicate Before(a: Owner, b: Owner) {
    a.startFrame < b.startFrame || (a.startFrame == b.startFrame && a.endFrame < b.endFrame)
  }

  predicate SameKey(a: Owner, b: Owner) {
    a.startFrame == b.startFrame && a.endFrame == b.endFrame
  }

  function Insert(s: seq<Owner>, x: Owner): (r: seq<Owner>)
    ensures |r| == |s| + 1
    ensures multiset(r) == multiset(s) + multiset{x}
  {
    if s == [] then [x]
    else
      var n := |s| - 1;
      assert s == s[..n] + [s[n]];
      if Before(x, s[n]) then Insert(s[..n], x) + [s[n]] else s + [x]
  }

  function Sorted(rows: seq<Owner>): seq<Owner> {
    if rows == [] then [] else Insert(Sorted(rows[..|rows| - 1]), rows[|rows| - 1])
  }

  predicate InOrder(s: seq<Owner>) {
    forall i, j | 0 <= i < j < |s| :: !Before(s[j], s[i])
  }

  /** The members that compare equal to one owner, in their order. */
  function Equals(s: seq<Owner>, key: Owner): seq<Owner> {
    if s == [] then []
    else Equals(s[..|s| - 1], key) + if SameKey(s[|s| - 1], key) then [s[|s| - 1]] else []
  }

  lemma {:induction false} InsertKeepsOrder(s: seq<Owner>, x: Owner)
    requires InOrder(s)
    ensures InOrder(Insert(s, x))
    decreases |s|
  {
    if s != [] {
      var n := |s| - 1;
      if Before(x, s[n]) {
        InsertKeepsOrder(s[..n], x);
        var r := Insert(s[..n], x);
        forall i | 0 <= i < |r|
          ensures !Before(s[n], r[i])
        {
          assert r[i] in multiset(r);
          assert r[i] in multiset(s[..n]) || r[i] == x;
        }
      } else {
        forall i | 0 <= i < |s|
          ensures !Before(x, s[i])
        {
          assert i < n ==> !Before(s[n], s[i]);
        }
      }
    }
  }

  lemma EqualsAppend(s: seq<Owner>, x: Owner, key: Owner)
    ensures Equals(s + [x], key) == Equals(s, key) + if SameKey(x, key) then [x] else []
  {
    assert (s + [x])[..|s|] == s;
  }

  lemma {:induction false} InsertIsStable(s: seq<Owner>, x: Owner, key: Owner)
    ensures Equals(Insert(s, x), key) == Equals(s, key) + if SameKey(x, key) then [x] else []
    decreases |s|
  {
    if s == [] {
      assert [] + [x] == [x];
      EqualsAppend([], x, key);
    } else {
      var n := |s| - 1;
      if Before(x, s[n]) {
        InsertIsStable(s[..n], x, key);
        EqualsAppend(Insert(s[..n], x), s[n], key);
        assert Insert(s, x) == Insert(s[..n], x) + [s[n]];
        Associates(Equals(s[..n], key), [x], []);
        Associates(Equals(s[..n], key), [s[n]], []);
      } else {
        EqualsAppend(s, x, key);
      }
    }
  }

  lemma {:induction false} SortedIsPermutation(rows: seq<Owner>)
    ensures multiset(Sorted(rows)) == multiset(rows)
    decreases |rows|
  {
    if rows != [] {
      var n := |rows| - 1;
      SortedIsPermutation(rows[..n]);
      assert rows == rows[..n] + [rows[n]];
    }
  }

  lemma {:induction false} SortedIsInOrder(rows: seq<Owner>)
    ensures InOrder(Sorted(rows))
    ensures var s := Sorted(rows);
      forall i, j | 0 <= i < j < |s| ::
        s[i].startFrame < s[j].startFrame || (s[i].startFrame == s[j].startFrame && s[i].endFrame <= s[j].endFrame)
    decreases |rows|
  {
    if rows != [] {
      var n := |rows| - 1;
      SortedIsInOrder(rows[..n]);
      InsertKeepsOrder(Sorted(rows[..n]), rows[n]);
    }
  }

  /** Owners with the same start and end keep their given order. */
  lemma {:induction false} SortedIsStable(rows: seq<Owner>, key: Owner)
    ensures Equals(Sorted(rows), key) == Equals(rows, key)
    decreases |rows|
  {
    if rows != [] {
      var n := |rows| - 1;
      SortedIsStable(rows[..n], key);
      InsertIsStable(Sorted(rows[..n]), rows[n], key);
    }
  }

  // -- the definition

  /** The primary owners of one track, in their given order. */
  function Lane(owners: seq<Owner>, track: string): seq<Owner> {
    if owners == [] then []
    else
      var n := |owners| - 1;
      Lane(owners[..n], track) + if owners[n].primary && owners[n].track == track then [owners[n]] else []
  }

  /** Tracks in order of their first primary owner. */
  function Tracks(owners: seq<Owner>): seq<string> {
    if owners == [] then []
    else
      var n := |owners| - 1;
      var known := Tracks(owners[..n]);
      if owners[n].primary && owners[n].track !in known then known + [owners[n].track] else known
  }

  /** Row `j` is the earliest of the first n rows with the largest end frame. */
  predicate Furthest(rows: seq<Owner>, n: nat, j: nat) {
    && j < n <= |rows|
    && (forall i | 0 <= i < n :: rows[i].endFrame <= rows[j].endFrame)
    && (forall i | 0 <= i < j :: rows[i].endFrame < rows[j].endFrame)
  }

  lemma FurthestIsUnique(rows: seq<Owner>, n: nat, j: nat, k: nat)
    requires Furthest(rows, n, j) && Furthest(rows, n, k)
    ensures j == k
  {
    assert rows[j].endFrame <= rows[k].endFrame && rows[k].endFrame <= rows[j].endFrame;
  }

  function FurthestIndex(rows: seq<Owner>, n: nat): (j: nat)
    requires 0 < n <= |rows|
    ensures j < n
  {
    if n == 1 then 0
    else
      var j := FurthestIndex(rows, n - 1);
      if rows[n - 1].endFrame > rows[j].endFrame then n - 1 else j
  }

  /** The index the sweep arrives at is the one and only furthest row. */
  lemma {:induction false} FurthestIndexIsFurthest(rows: seq<Owner>, n: nat, j: nat)
    requires 0 < n <= |rows|
    ensures Furthest(rows, n, j) <==> j == FurthestIndex(rows, n)
  {
    if n > 1 {
      FurthestIndexIsFurthest(rows, n - 1, FurthestIndex(rows, n - 1));
    }
    if Furthest(rows, n, j) {
      FurthestIsUnique(rows, n, j, FurthestIndex(rows, n));
    }
  }

  /** The pairs one track contributes at a frame: each of its first n rows that starts there, except its first row. */
  function Pairs(rows: seq<Owner>, n: nat, frame: int): seq<Owner>
    requires n <= |rows|
  {
    if n <= 1 then []
    else Pairs(rows, n - 1, frame)
         + if rows[n - 1].startFrame == frame then [rows[FurthestIndex(rows, n - 1)], rows[n - 1]] else []
  }

  function PairsOn(owners: seq<Owner>, tracks: seq<string>, frame: int): seq<Owner> {
    if tracks == [] then []
    else
      var n := |tracks| - 1;
      var rows := Sorted(Lane(owners, tracks[n]));
      PairsOn(owners, tracks[..n], frame) + Pairs(rows, |rows|, frame)
  }

  /** The owners that meet at a frame. */
  function Meeting(owners: seq<Owner>, frame: int): seq<Owner> {
    PairsOn(owners, Tracks(owners), frame)
  }

  // -- the sweep

  function At(selected: map<int, seq<Owner>>, frame: int): seq<Owner> {
    if frame in selected then selected[frame] else []
  }

  predicate NoEmptyLists(selected: map<int, seq<Owner>>) {
    forall frame | frame in selected :: selected[frame] != []
  }

  function Noted(selected: map<int, seq<Owner>>, furthest: Option<Owner>, row: Owner): map<int, seq<Owner>> {
    if furthest.None? then selected
    else selected[row.startFrame := At(selected, row.startFrame) + [furthest.value, row]]
  }

  ghost predicate Swept(selected: map<int, seq<Owner>>, before: map<int, seq<Owner>>, rows: seq<Owner>, n: nat)
    requires n <= |rows|
  {
    forall frame :: At(selected, frame) == At(before, frame) + Pairs(rows, n, frame)
  }

  lemma Associates(a: seq<Owner>, b: seq<Owner>, c: seq<Owner>)
    ensures a + b + c == a + (b + c)
    ensures a + [] == a
  {
  }

  lemma NotedAt(selected: map<int, seq<Owner>>, was: seq<Owner>, rows: seq<Owner>, n: nat, furthest: Option<Owner>, frame: int)
    requires n < |rows| && At(selected, frame) == was + Pairs(rows, n, frame)
    requires furthest == FurthestSoFar(rows, n)
    ensures At(Noted(selected, furthest, rows[n]), frame) == was + Pairs(rows, n + 1, frame)
  {
    if n > 0 && rows[n].startFrame == frame {
      Associates(was, Pairs(rows, n, frame), [rows[FurthestIndex(rows, n)], rows[n]]);
    } else {
      Associates(Pairs(rows, n, frame), [], []);
    }
  }

  lemma NotedIsSwept(selected: map<int, seq<Owner>>, before: map<int, seq<Owner>>, rows: seq<Owner>, n: nat, furthest: Option<Owner>)
    requires n < |rows| && Swept(selected, before, rows, n)
    requires furthest == FurthestSoFar(rows, n)
    ensures Swept(Noted(selected, furthest, rows[n]), before, rows, n + 1)
  {
    forall frame
      ensures At(Noted(selected, furthest, rows[n]), frame) == At(before, frame) + Pairs(rows, n + 1, frame)
    {
      NotedAt(selected, At(before, frame), rows, n, furthest, frame);
    }
  }

  lemma NothingSwept(before: map<int, seq<Owner>>, rows: seq<Owner>)
    ensures Swept(before, before, rows, 0)
  {
    forall frame
      ensures At(before, frame) == At(before, frame) + Pairs(rows, 0, frame)
    {
      Associates(At(before, frame), [], []);
    }
  }

  lemma NotedIsNeverEmpty(selected: map<int, seq<Owner>>, furthest: Option<Owner>, row: Owner)
    requires NoEmptyLists(selected)
    ensures NoEmptyLists(Noted(selected, furthest, row))
  {
  }

  function Further(furthest: Option<Owner>, row: Owner): Option<Owner> {
    if furthest.None? || row.endFrame > furthest.value.endFrame then Some(row) else furthest
  }

  function FurthestSoFar(rows: seq<Owner>, n: nat): Option<Owner>
    requires n <= |rows|
  {
    if n == 0 then None else Some(rows[FurthestIndex(rows, n)])
  }

  lemma FurthestAdvances(rows: seq<Owner>, n: nat)
    requires n < |rows|
    ensures FurthestSoFar(rows, n + 1) == Further(FurthestSoFar(rows, n), rows[n])
  {
  }

  /** One pass over a track's sorted rows. */
  method SweepTrack(before: map<int, seq<Owner>>, rows: seq<Owner>) returns (selected: map<int, seq<Owner>>)
    requires NoEmptyLists(before)
    ensures NoEmptyLists(selected) && Swept(selected, before, rows, |rows|)
  {
    selected := before;
    var furthest := None;
    var n := 0;
    NothingSwept(before, rows);
    while n < |rows|
      invariant 0 <= n <= |rows|
      invariant NoEmptyLists(selected) && Swept(selected, before, rows, n)
      invariant furthest == FurthestSoFar(rows, n)
    {
      NotedIsSwept(selected, before, rows, n, furthest);
      NotedIsNeverEmpty(selected, furthest, rows[n]);
      selected := Noted(selected, furthest, rows[n]);
      FurthestAdvances(rows, n);
      furthest := Further(furthest, rows[n]);
      n := n + 1;
    }
  }

  /** Group the primary owners by track, keeping the order in which tracks appear. */
  method GroupByTrack(owners: seq<Owner>) returns (order: seq<string>, groups: map<string, seq<Owner>>)
    ensures order == Tracks(owners) && groups.Keys == (set t | t in order)
    ensures forall t | t in order :: groups[t] == Lane(owners, t)
  {
    order, groups := [], map[];
    var i := 0;
    while i < |owners|
      invariant 0 <= i <= |owners|
      invariant order == Tracks(owners[..i])
      invariant forall t :: t in groups <==> t in order
      invariant forall t :: (if t in groups then groups[t] else []) == Lane(owners[..i], t)
    {
      var owner := owners[i];
      assert owners[..i + 1][..i] == owners[..i];
      if owner.primary {
        if owner.track !in groups {
          order := order + [owner.track];
          groups := groups[owner.track := []];
        }
        groups := groups[owner.track := groups[owner.track] + [owner]];
      }
      i := i + 1;
    }
    assert owners[..|owners|] == owners;
  }

  ghost predicate Indexed(selected: map<int, seq<Owner>>, owners: seq<Owner>, tracks: seq<string>) {
    forall frame :: At(selected, frame) == PairsOn(owners, tracks, frame)
  }

  lemma PairsOnLast(owners: seq<Owner>, order: seq<string>, g: nat, frame: int)
    requires g < |order|
    ensures var rows := Sorted(Lane(owners, order[g]));
            PairsOn(owners, order[..g + 1], frame) == PairsOn(owners, order[..g], frame) + Pairs(rows, |rows|, frame)
  {
    assert order[..g + 1][..g] == order[..g];
  }

  lemma SweptIsIndexed(was: map<int, seq<Owner>>, selected: map<int, seq<Owner>>, owners: seq<Owner>, order: seq<string>, g: nat)
    requires g < |order| && Indexed(was, owners, order[..g])
    requires var rows := Sorted(Lane(owners, order[g])); Swept(selected, was, rows, |rows|)
    ensures Indexed(selected, owners, order[..g + 1])
  {
    var rows := Sorted(Lane(owners, order[g]));
    forall frame
      ensures At(selected, frame) == PairsOn(owners, order[..g + 1], frame)
    {
      PairsOnLast(owners, order, g, frame);
    }
  }

  /** The one-pass index holds, at every frame, exactly the owners that meet there, and no other key. */
  method BoundaryIntentOwners(owners: seq<Owner>) returns (selected: map<int, seq<Owner>>)
    ensures forall frame :: At(selected, frame) == Meeting(owners, frame)
    ensures forall frame :: frame in selected <==> Meeting(owners, frame) != []
  {
    var order, groups := GroupByTrack(owners);
    selected := map[];
    var g := 0;
    while g < |order|
      invariant 0 <= g <= |order|
      invariant NoEmptyLists(selected) && Indexed(selected, owners, order[..g])
    {
      var swept := SweepTrack(selected, Sorted(groups[order[g]]));
      SweptIsIndexed(selected, swept, owners, order, g);
      selected := swept;
      g := g + 1;
    }
    assert order[..|order|] == order;
    assert forall frame :: At(selected, frame) == PairsOn(owners, order, frame);
  }

  // -- what the index means

  /** Owner `o` takes part in the cut that row n of its sorted track makes at `frame`. */
  predicate AtCut(rows: seq<Owner>, n: nat, frame: int, o: Owner) {
    && 1 <= n < |rows| && rows[n].startFrame == frame
    && (o == rows[n] || o == rows[FurthestIndex(rows, n)])
  }

  lemma {:induction false} PairsAreCuts(rows: seq<Owner>, n: nat, frame: int, o: Owner)
    requires n <= |rows|
    ensures o in Pairs(rows, n, frame) <==> exists k: nat :: k < n && AtCut(rows, k, frame, o)
  {
    if n > 1 {
      PairsAreCuts(rows, n - 1, frame, o);
      if o in Pairs(rows, n, frame) && o !in Pairs(rows, n - 1, frame) {
        assert AtCut(rows, n - 1, frame, o);
      }
    }
  }

  ghost predicate Cuts(owners: seq<Owner>, track: string, frame: int, o: Owner) {
    exists k: nat :: AtCut(Sorted(Lane(owners, track)), k, frame, o)
  }

  lemma TrackPairs(owners: seq<Owner>, track: string, frame: int, o: Owner)
    ensures var rows := Sorted(Lane(owners, track));
            o in Pairs(rows, |rows|, frame) <==> Cuts(owners, track, frame, o)
  {
    var rows := Sorted(Lane(owners, track));
    PairsAreCuts(rows, |rows|, frame, o);
  }

  ghost predicate CutsOn(owners: seq<Owner>, tracks: seq<string>, frame: int, o: Owner) {
    exists t :: t in tracks && Cuts(owners, t, frame, o)
  }

  lemma CutsOnLast(owners: seq<Owner>, tracks: seq<string>, frame: int, o: Owner)
    requires tracks != []
    ensures var n := |tracks| - 1;
            CutsOn(owners, tracks, frame, o) <==> CutsOn(owners, tracks[..n], frame, o) || Cuts(owners, tracks[n], frame, o)
  {
    var n := |tracks| - 1;
    assert tracks == tracks[..n] + [tracks[n]];
    if CutsOn(owners, tracks[..n], frame, o) {
      var t :| t in tracks[..n] && Cuts(owners, t, frame, o);
      assert t in tracks;
    }
  }

  lemma {:induction false} PairsOnTracks(owners: seq<Owner>, tracks: seq<string>, frame: int, o: Owner)
    ensures o in PairsOn(owners, tracks, frame) <==> CutsOn(owners, tracks, frame, o)
    decreases |tracks|
  {
    if tracks != [] {
      PairsOnTracks(owners, tracks[..|tracks| - 1], frame, o);
      TrackPairs(owners, tracks[|tracks| - 1], frame, o);
      CutsOnLast(owners, tracks, frame, o);
    }
  }

  lemma {:induction false} LaneIsTracked(owners: seq<Owner>, track: string)
    ensures track in Tracks(owners) <==> Lane(owners, track) != []
    decreases |owners|
  {
    if owners != [] {
      LaneIsTracked(owners[..|owners| - 1], track);
    }
  }

  lemma {:induction false} LaneMembers(owners: seq<Owner>, track: string, o: Owner)
    ensures o in Lane(owners, track) <==> o in owners && o.primary && o.track == track
    decreases |owners|
  {
    if owners != [] {
      var n := |owners| - 1;
      LaneMembers(owners[..n], track, o);
      assert owners == owners[..n] + [owners[n]];
    }
  }

  lemma SortedLaneMembers(owners: seq<Owner>, track: string, i: nat)
    requires i < |Sorted(Lane(owners, track))|
    ensures var o := Sorted(Lane(owners, track))[i]; o in owners && o.primary && o.track == track
  {
    var lane := Lane(owners, track);
    SortedIsPermutation(lane);
    var o := Sorted(lane)[i];
    assert o in multiset(Sorted(lane));
    LaneMembers(owners, track, o);
  }

  /**
    An owner is indexed at a frame exactly when its own track has a cut there: some row of that
    track other than the first starts at the frame, and the owner is that row or the earliest
    earlier row of maximal end.
   */
  lemma MeetingIsLocalToTheTrack(owners: seq<Owner>, frame: int, o: Owner)
    ensures o in Meeting(owners, frame) <==> Cuts(owners, o.track, frame, o)
    ensures o in Meeting(owners, frame) ==> o in owners && o.primary
  {
    PairsOnTracks(owners, Tracks(owners), frame, o);
    if o in Meeting(owners, frame) {
      var t :| t in Tracks(owners) && Cuts(owners, t, frame, o);
      var k: nat :| AtCut(Sorted(Lane(owners, t)), k, frame, o);
      SortedLaneMembers(owners, t, k);
      SortedLaneMembers(owners, t, FurthestIndex(Sorted(Lane(owners, t)), k));
    }
    if k: nat :| AtCut(Sorted(Lane(owners, o.track)), k, frame, o) {
      LaneIsTracked(owners, o.track);
      SortedIsPermutation(Lane(owners, o.track));
      assert |multiset(Sorted(Lane(owners, o.track)))| > 0;
    }
  }
}
