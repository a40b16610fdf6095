/** What a timeline shows at each time, before and after flattening, and what the flattened ids and assets are. */
module ShotMeaning {
  import opened Wrappers
  import opened AssetIdentity
  import opened OccurrenceNames
  import opened ShotFlattening

  // -- what the fields of an authored clip mean

  /** What a numeric field says: its default when absent, and nothing when it is not a finite number. */
  function Authored(field: Option<Num>, default: real): Option<real> {
    match field
    case None => Some(default)
    case Some(Finite(v)) => Some(v)
    case Some(NotFinite) => None
  }

  /** Source bounds come as a pair that encloses a window, or not at all. */
  predicate Bounded(c: Clip) {
    && c.sourceFrom.Some? == c.sourceTo.Some?
    && (c.sourceFrom.Some? ==> c.sourceFrom.value.Finite? && c.sourceTo.value.Finite? && c.sourceFrom.value.v < c.sourceTo.value.v)
  }

  /** How much source a clip plays: its hold, else its milliseconds, else, when that is nothing, its source window. */
  function Length(c: Clip): Option<real>
    requires Bounded(c)
  {
    var stated := if c.hold.Some? then Authored(c.hold, 0.0)
                  else if c.durationMs == Some(NotFinite) then None
                  else Some(Authored(c.durationMs, 0.0).value / 1000.0);
    if stated == Some(0.0) && c.sourceFrom.Some? then Some(c.sourceTo.value.v - c.sourceFrom.value.v) else stated
  }

  predicate WellTimed(c: Clip) {
    && Authored(c.at, 0.0).Some? && Authored(c.speed, 1.0).Some? && Authored(c.speed, 1.0).value > 0.0
    && Bounded(c) && Length(c).Some? && Length(c).value > 0.0
  }

  /** How far into its source a clip is at time `t` of its own timeline. */
  function Played(c: Clip, t: real): real
    requires WellTimed(c)
  {
    (t - Authored(c.at, 0.0).value) * Authored(c.speed, 1.0).value
  }

  /** The clip has begun and has not played all of its source. */
  predicate Runs(c: Clip, t: real) {
    WellTimed(c) && 0.0 <= Played(c, t) < Length(c).value
  }

  function Position(c: Clip, t: real): Option<real>
    requires WellTimed(c)
  {
    if c.sourceFrom.Some? then Some(c.sourceFrom.value.v + Played(c, t)) else None
  }

  // -- what is on screen

  /** A clip on screen: everything about it but its placement, and where in its source it is. */
  datatype Picture = Picture(face: Clip, position: Option<real>)

  function Face(c: Clip): Clip {
    c.(at := None, hold := None, durationMs := None, sourceFrom := None, sourceTo := None)
  }

  function Show(c: Clip, t: real): seq<Picture> {
    if Runs(c, t) then [Picture(Face(c), Position(c, t))] else []
  }

  /** The pictures of a flat list of clips, in clip order. */
  function Screen(clips: seq<Clip>, t: real): seq<Picture> {
    if clips == [] then [] else Show(clips[0], t) + Screen(clips[1..], t)
  }

  /** A shot clip names a shot and a timeline and is held for a while. */
  predicate Windowed(shot: Clip) {
    && shot.params.Some? && shot.params.value.shotId != "" && shot.params.value.timelineId != ""
    && Authored(shot.at, 0.0).Some? && Authored(shot.hold, 0.0).Some? && Authored(shot.hold, 0.0).value > 0.0
  }

  /** A shot clip is on from its own `at` for its own `hold`. */
  predicate ShotRuns(shot: Clip, t: real) {
    Windowed(shot) && Authored(shot.at, 0.0).value <= t && t - Authored(shot.at, 0.0).value < Authored(shot.hold, 0.0).value
  }

  /** A child as an occurrence of the shot shows it: named for both, and on its own track unless it has none. */
  function InShot(shot: Clip, ordinal: nat, c: Clip): Clip
    requires Windowed(shot)
  {
    var name := shot.params.value.shotId;
    Face(c).(id := ChildId(ordinal, name, c.id), track := if c.track.Some? then c.track else shot.track,
             shotId := Some(name), occurrenceId := Some(OccurrenceId(ordinal, name)), sourceClipId := Some(c.id))
  }

  /** A child clip at child time `u`. */
  function ShowChild(shot: Clip, ordinal: nat, c: Clip, u: real): seq<Picture>
    requires Windowed(shot)
  {
    if Runs(c, u) then [Picture(InShot(shot, ordinal, c), Position(c, u))] else []
  }

  function ShowChildren(shot: Clip, ordinal: nat, children: seq<Clip>, u: real): seq<Picture>
    requires Windowed(shot)
  {
    if children == [] then [] else ShowChild(shot, ordinal, children[0], u) + ShowChildren(shot, ordinal, children[1..], u)
  }

  /** A shot while it is on: its children at the time since it began. */
  function PlayShot(shot: Clip, ordinal: nat, load: Loader, t: real): seq<Picture> {
    if !ShotRuns(shot, t) then []
    else
      var child := load(shot.params.value.timelineId);
      if child.None? then [] else ShowChildren(shot, ordinal, child.value.clips, t - Authored(shot.at, 0.0).value)
  }

  /** The nested timeline played as authored. */
  function Play(clips: seq<Clip>, ordinal: nat, load: Loader, t: real): seq<Picture> {
    if clips == [] then []
    else if clips[0].clipType != Shot then Show(clips[0], t) + Play(clips[1..], ordinal, load, t)
    else PlayShot(clips[0], ordinal, load, t) + Play(clips[1..], ordinal + 1, load, t)
  }

  // -- the numbers the expansion reads are the authored ones

  lemma TimingIsAuthored(c: Clip)
    ensures TimingOf(c).Some? <==> WellTimed(c)
    ensures WellTimed(c) ==>
      TimingOf(c) == Some(Timing(Authored(c.at, 0.0).value, Length(c).value, Authored(c.speed, 1.0).value,
                                 if c.sourceFrom.Some? then Some(c.sourceFrom.value.v) else None))
  {
  }

  lemma FrameIsAuthored(shot: Clip, ordinal: nat)
    ensures FrameOf(shot, ordinal).Some? <==> Windowed(shot)
    ensures Windowed(shot) ==>
      FrameOf(shot, ordinal) == Some(Frame(Authored(shot.at, 0.0).value, Authored(shot.hold, 0.0).value, ordinal,
                                           shot.params.value.shotId, shot.track))
  {
  }

  /** Beginning and not having played all is being between start and end. */
  lemma PlayingIsBetween(at: real, hold: real, speed: real, t: real)
    requires speed > 0.0
    ensures 0.0 <= (t - at) * speed < hold <==> at <= t < at + hold / speed
  {
    var rest := t - at;
    assert (hold / speed) * speed == hold;
    if rest < hold / speed {
      assert rest * speed < (hold / speed) * speed;
    } else {
      assert rest * speed >= (hold / speed) * speed;
    }
    if rest < 0.0 {
      assert rest * speed < 0.0;
    }
  }

  lemma RunsBetween(c: Clip, t: real)
    ensures Runs(c, t) <==> TimingOf(c).Some? && TimingOf(c).value.at <= t < End(TimingOf(c).value)
  {
    TimingIsAuthored(c);
    if WellTimed(c) {
      PlayingIsBetween(Authored(c.at, 0.0).value, Length(c).value, Authored(c.speed, 1.0).value, t);
    }
  }

  // -- one child

  lemma Rescale(duration: real, speed: real)
    requires duration > 0.0 && speed > 0.0
    ensures SourceTime(duration, speed) > 0.0 && SourceTime(duration, speed) / speed == duration
  {}

  lemma Shift(a: real, b: real, speed: real)
    ensures SourceTime(a, speed) + SourceTime(b, speed) == SourceTime(a + b, speed)
  {}

  /** A trimmed clip occupies exactly the visible window and begins at the trimmed source position. */
  lemma TrimmedTiming(f: Frame, c: Clip)
    requires TimingOf(c).Some? && VisibleAt(f, TimingOf(c).value) < VisibleEnd(f, TimingOf(c).value)
    ensures var m := TimingOf(c).value;
      var out := TimingOf(Trimmed(f, c, m));
      && out.Some? && out.value.at == VisibleAt(f, m) && End(out.value) == VisibleEnd(f, m)
      && out.value.speed == m.speed && out.value.sourceFrom.Some? == m.sourceFrom.Some?
      && (m.sourceFrom.Some? ==>
            out.value.sourceFrom.value == m.sourceFrom.value + SourceTime(VisibleAt(f, m) - (f.at + m.at), m.speed))
  {
    var m := TimingOf(c).value;
    var duration := VisibleEnd(f, m) - VisibleAt(f, m);
    Rescale(duration, m.speed);
    var out := Trimmed(f, c, m);
    assert SourceHold(out) == Finite(SourceTime(duration, m.speed)) || (out.hold.None? && out.durationMs.None?);
  }

  /** Where a clip is in its source, from its timing. */
  lemma PositionOf(c: Clip, t: real)
    requires WellTimed(c)
    ensures TimingOf(c).Some?
    ensures var m := TimingOf(c).value;
      Position(c, t) == if m.sourceFrom.Some? then Some(m.sourceFrom.value + SourceTime(t - m.at, m.speed)) else None
  {
    TimingIsAuthored(c);
    var m := TimingOf(c).value;
    assert Played(c, t) == SourceTime(t - m.at, m.speed);
  }

  /** Trimming moves a clip's start along its source exactly as it moves it along the timeline. */
  lemma TrimKeepsPosition(f: Frame, c: Clip, t: real)
    requires WellTimed(c) && TimingOf(c).Some? && VisibleAt(f, TimingOf(c).value) < VisibleEnd(f, TimingOf(c).value)
    ensures WellTimed(Trimmed(f, c, TimingOf(c).value))
    ensures Position(Trimmed(f, c, TimingOf(c).value), t) == Position(c, t - f.at)
  {
    var m := TimingOf(c).value;
    var out := Trimmed(f, c, m);
    TrimmedTiming(f, c);
    TimingIsAuthored(out);
    PositionOf(out, t);
    PositionOf(c, t - f.at);
    if m.sourceFrom.Some? {
      Shift(VisibleAt(f, m) - (f.at + m.at), t - VisibleAt(f, m), m.speed);
    }
  }

  /** One child: on screen for exactly the part of its run inside the shot's, at its authored source position. */
  lemma ChildIsPreserved(shot: Clip, ordinal: nat, assets: Assets, c: Clip, t: real)
    requires Windowed(shot) && FrameOf(shot, ordinal).Some? && ExpandChild(FrameOf(shot, ordinal).value, assets, c).Some?
    ensures Screen(ExpandChild(FrameOf(shot, ordinal).value, assets, c).value, t)
         == if ShotRuns(shot, t) then ShowChild(shot, ordinal, c, t - Authored(shot.at, 0.0).value) else []
  {
    FrameIsAuthored(shot, ordinal);
    TimingIsAuthored(c);
    var f, m := FrameOf(shot, ordinal).value, TimingOf(c).value;
    RunsBetween(c, t - f.at);
    if VisibleAt(f, m) < VisibleEnd(f, m) {
      var out := Trimmed(f, c, m);
      TrimmedTiming(f, c);
      TrimKeepsPosition(f, c, t);
      RunsBetween(out, t);
      assert ExpandChild(f, assets, c).value == [out];
      assert Screen([out], t) == Show(out, t) + Screen([], t);
      assert Face(out) == InShot(shot, ordinal, c);
    }
  }

  /**
    The emitted fields themselves: the clip starts at its visible start, its source bounds are the
    positions it has at the two ends of its visible window, and any hold it carries is their distance.
   */
  lemma EmittedFields(f: Frame, c: Clip)
    requires WellTimed(c) && TimingOf(c).Some? && VisibleAt(f, TimingOf(c).value) < VisibleEnd(f, TimingOf(c).value)
    ensures var m := TimingOf(c).value;
      var out := Trimmed(f, c, m);
      var start, end := VisibleAt(f, m), VisibleEnd(f, m);
      && out.at == Some(Finite(start)) && out.durationMs == None && out.speed == c.speed
      && (c.sourceFrom.Some? ==> out.sourceFrom == Some(Finite(Position(c, start - f.at).value))
                                 && out.sourceTo == Some(Finite(Position(c, end - f.at).value)))
      && (c.sourceFrom.None? ==> out.sourceFrom == c.sourceFrom && out.sourceTo == c.sourceTo)
      && (out.hold.Some? <==> c.hold.Some? || c.durationMs.Some? || c.sourceFrom.None?)
      && (out.hold.Some? ==> out.hold == Some(Finite(Played(c, end - f.at) - Played(c, start - f.at))))
  {
    var m := TimingOf(c).value;
    var start, end := VisibleAt(f, m), VisibleEnd(f, m);
    TimingIsAuthored(c);
    Shift(start - (f.at + m.at), end - start, m.speed);
    assert Played(c, start - f.at) == SourceTime(start - (f.at + m.at), m.speed);
    assert Played(c, end - f.at) == SourceTime(end - (f.at + m.at), m.speed);
  }

  lemma {:induction false} ScreenAppend(a: seq<Clip>, b: seq<Clip>, t: real)
    ensures Screen(a + b, t) == Screen(a, t) + Screen(b, t)
  {
    if a == [] {
      assert a + b == b;
    } else {
      assert (a + b)[1..] == a[1..] + b;
      ScreenAppend(a[1..], b, t);
    }
  }

  lemma {:induction false} ChildrenArePreserved(shot: Clip, ordinal: nat, assets: Assets, children: seq<Clip>, t: real)
    requires Windowed(shot) && FrameOf(shot, ordinal).Some?
    requires ExpandChildren(FrameOf(shot, ordinal).value, assets, children).Some?
    ensures Screen(ExpandChildren(FrameOf(shot, ordinal).value, assets, children).value, t)
         == if ShotRuns(shot, t) then ShowChildren(shot, ordinal, children, t - Authored(shot.at, 0.0).value) else []
    decreases |children|
  {
    if children != [] {
      var f := FrameOf(shot, ordinal).value;
      ChildIsPreserved(shot, ordinal, assets, children[0], t);
      ChildrenArePreserved(shot, ordinal, assets, children[1..], t);
      ScreenAppend(ExpandChild(f, assets, children[0]).value, ExpandChildren(f, assets, children[1..]).value, t);
    }
  }

  // -- the whole timeline

  lemma ShotIsPreserved(shot: Clip, ordinal: nat, merged: Assets, load: Loader, t: real)
    requires ExpandShot(shot, ordinal, merged, load).Some?
    ensures Screen(ExpandShot(shot, ordinal, merged, load).value.clips, t) == PlayShot(shot, ordinal, load, t)
  {
    FrameIsAuthored(shot, ordinal);
    var part := ExpandShot(shot, ordinal, merged, load).value;
    ChildrenArePreserved(shot, ordinal, part.assets, load(shot.params.value.timelineId).value.clips, t);
  }

  lemma ScreenFirst(c: Clip, tail: seq<Clip>, t: real)
    ensures Screen([c] + tail, t) == Show(c, t) + Screen(tail, t)
  {
    assert ([c] + tail)[1..] == tail;
  }

  lemma {:induction false} TailIsPreserved(clips: seq<Clip>, ordinal: nat, merged: Assets, load: Loader, t: real)
    requires ExpandFrom(clips, ordinal, merged, load).Some?
    ensures Screen(ExpandFrom(clips, ordinal, merged, load).value.clips, t) == Play(clips, ordinal, load, t)
  {
    if clips != [] {
      if clips[0].clipType != Shot {
        TailIsPreserved(clips[1..], ordinal, merged, load, t);
        ScreenFirst(clips[0], ExpandFrom(clips[1..], ordinal, merged, load).value.clips, t);
      } else {
        var part := ExpandShot(clips[0], ordinal, merged, load).value;
        TailIsPreserved(clips[1..], ordinal + 1, part.assets, load, t);
        ShotIsPreserved(clips[0], ordinal, merged, load, t);
        ScreenAppend(part.clips, ExpandFrom(clips[1..], ordinal + 1, part.assets, load).value.clips, t);
      }
    }
  }

  /** Flattening preserves meaning: at every time the flattened clips show what the authored timeline shows. */
  lemma FlatteningPreservesMeaning(root: Timeline, load: Loader, t: real)
    requires Expand(root, load).Some?
    ensures Screen(Expand(root, load).value.clips, t) == Play(root.clips, 0, load, t)
  {
    TailIsPreserved(root.clips, 0, root.assets, load, t);
  }

  // -- no shot is left, and flattening again changes nothing

  lemma {:induction false} ChildrenHaveNoShots(f: Frame, assets: Assets, children: seq<Clip>)
    requires ExpandChildren(f, assets, children).Some?
    ensures forall c | c in ExpandChildren(f, assets, children).value ::
      c.clipType != Shot && (c.asset.Some? ==> c.asset.value in assets)
  {
    if children != [] {
      ChildrenHaveNoShots(f, assets, children[1..]);
    }
  }

  lemma {:induction false} TailHasNoShots(clips: seq<Clip>, ordinal: nat, merged: Assets, load: Loader)
    requires ExpandFrom(clips, ordinal, merged, load).Some?
    ensures forall c | c in ExpandFrom(clips, ordinal, merged, load).value.clips :: c.clipType != Shot
  {
    if clips != [] {
      if clips[0].clipType != Shot {
        TailHasNoShots(clips[1..], ordinal, merged, load);
      } else {
        var part := ExpandShot(clips[0], ordinal, merged, load).value;
        TailHasNoShots(clips[1..], ordinal + 1, part.assets, load);
        ChildrenHaveNoShots(FrameOf(clips[0], ordinal).value, part.assets,
                            load(clips[0].params.value.timelineId).value.clips);
      }
    }
  }

  lemma {:induction false} FlatStaysFlat(clips: seq<Clip>, ordinal: nat, merged: Assets, load: Loader)
    requires forall c | c in clips :: c.clipType != Shot
    ensures ExpandFrom(clips, ordinal, merged, load) == Some(Flat(clips, Tags(|clips|, None), merged))
  {
    if clips == [] {
      assert Tags(0, None) == [];
    } else {
      assert clips[0] in clips;
      FlatStaysFlat(clips[1..], ordinal, merged, load);
      var tail := Flat(clips[1..], Tags(|clips| - 1, None), merged);
      assert ExpandFrom(clips, ordinal, merged, load) == Prepend([clips[0]], [None], Some(tail));
      assert [clips[0]] + clips[1..] == clips;
      assert [None] + Tags(|clips| - 1, None) == Tags(|clips|, None);
    }
  }

  /** A flattened timeline holds no shot clip, so flattening it again is the identity. */
  lemma FlatteningIsIdempotent(root: Timeline, load: Loader, again: Loader)
    requires Expand(root, load).Some?
    ensures var flat := Expand(root, load).value;
      && (forall c | c in flat.clips :: c.clipType != Shot)
      && Expand(Timeline(flat.clips, flat.assets), again) == Some(Flat(flat.clips, Tags(|flat.clips|, None), flat.assets))
  {
    TailHasNoShots(root.clips, 0, root.assets, load);
    FlatStaysFlat(Expand(root, load).value.clips, 0, Expand(root, load).value.assets, again);
  }

  // -- ids

  predicate DistinctClipIds(clips: seq<Clip>) {
    forall i, j | 0 <= i < j < |clips| :: clips[i].id != clips[j].id
  }

  /** The ids within each child timeline that the shots name are distinct. */
  predicate ChildIdsDistinct(clips: seq<Clip>, load: Loader) {
    forall c | c in clips && c.clipType == Shot && c.params.Some? ::
      var child := load(c.params.value.timelineId); child.Some? ==> DistinctClipIds(child.value.clips)
  }

  /** The emitted clip is named after its occurrence and its own child. */
  predicate NamedFor(c: Clip, ordinal: nat) {
    c.shotId.Some? && c.sourceClipId.Some? && c.id == ChildId(ordinal, c.shotId.value, c.sourceClipId.value)
  }

  lemma {:induction false} EmittedAreNamed(f: Frame, assets: Assets, children: seq<Clip>)
    requires ExpandChildren(f, assets, children).Some?
    ensures forall c | c in ExpandChildren(f, assets, children).value :: NamedFor(c, f.ordinal)
  {
    if children != [] {
      EmittedAreNamed(f, assets, children[1..]);
      assert forall c | c in ExpandChild(f, assets, children[0]).value :: NamedFor(c, f.ordinal);
    }
  }

  /** All from one shot, each from a child, and no two from the same one. */
  predicate FromDistinct(out: seq<Clip>, shotId: string, children: seq<Clip>) {
    && (forall i | 0 <= i < |out| :: out[i].shotId == Some(shotId) && out[i].sourceClipId.Some?)
    && (forall i | 0 <= i < |out| :: exists d :: d in children && Some(d.id) == out[i].sourceClipId)
    && (forall i, j | 0 <= i < j < |out| :: out[i].sourceClipId != out[j].sourceClipId)
  }

  lemma ChildTag(f: Frame, assets: Assets, c: Clip)
    requires ExpandChild(f, assets, c).Some?
    ensures var out := ExpandChild(f, assets, c).value;
            |out| <= 1 && forall o | o in out :: o.sourceClipId == Some(c.id) && o.shotId == Some(f.shotId)
  {
  }

  lemma FirstIsApart(first: seq<Clip>, tail: seq<Clip>, shotId: string, children: seq<Clip>)
    requires children != [] && DistinctClipIds(children) && FromDistinct(tail, shotId, children[1..])
    requires |first| <= 1 && forall o | o in first :: o.sourceClipId == Some(children[0].id) && o.shotId == Some(shotId)
    ensures FromDistinct(first + tail, shotId, children)
  {
    assert forall d | d in children[1..] :: d in children && d.id != children[0].id;
    assert children[0] in children;
    assert forall i | 0 <= i < |first| :: first[i] in first;
  }

  lemma {:induction false} EmittedAreDistinct(f: Frame, assets: Assets, children: seq<Clip>)
    requires ExpandChildren(f, assets, children).Some? && DistinctClipIds(children)
    ensures FromDistinct(ExpandChildren(f, assets, children).value, f.shotId, children)
  {
    if children != [] {
      var first := ExpandChild(f, assets, children[0]).value;
      var tail := ExpandChildren(f, assets, children[1..]).value;
      EmittedAreDistinct(f, assets, children[1..]);
      ChildTag(f, assets, children[0]);
      FirstIsApart(first, tail, f.shotId, children);
    }
  }

  predicate OriginsNamed(flat: Flat) {
    && |flat.origins| == |flat.clips|
    && forall i | 0 <= i < |flat.clips| && flat.origins[i].Some? :: NamedFor(flat.clips[i], flat.origins[i].value)
  }

  /** Clips of one occurrence come from one shot and differ in the child they come from. */
  predicate OriginsTellApart(flat: Flat, ordinal: nat) {
    && |flat.origins| == |flat.clips|
    && (forall i | 0 <= i < |flat.clips| && flat.origins[i].Some? :: flat.origins[i].value >= ordinal)
    && (forall i, j | 0 <= i < j < |flat.clips| && flat.origins[i].Some? && flat.origins[i] == flat.origins[j] ::
          flat.clips[i].shotId == flat.clips[j].shotId && flat.clips[i].sourceClipId != flat.clips[j].sourceClipId)
  }

  lemma PrependedOrigins(clips: seq<Clip>, ordinal: nat, shotId: string, children: seq<Clip>, tail: Flat)
    requires FromDistinct(clips, shotId, children) && OriginsTellApart(tail, ordinal + 1)
    ensures OriginsTellApart(Prepend(clips, Tags(|clips|, Some(ordinal)), Some(tail)).value, ordinal)
  {}

  lemma PrependedNames(clips: seq<Clip>, ordinal: nat, tail: Flat)
    requires OriginsNamed(tail) && forall c | c in clips :: NamedFor(c, ordinal)
    ensures OriginsNamed(Prepend(clips, Tags(|clips|, Some(ordinal)), Some(tail)).value)
  {}

  lemma PrependedRoot(c: Clip, ordinal: nat, tail: Flat)
    requires OriginsTellApart(tail, ordinal) && OriginsNamed(tail)
    ensures OriginsTellApart(Prepend([c], [None], Some(tail)).value, ordinal)
    ensures OriginsNamed(Prepend([c], [None], Some(tail)).value)
  {}

  lemma ShotOrigins(shot: Clip, ordinal: nat, merged: Assets, load: Loader, tail: Flat)
    requires ExpandShot(shot, ordinal, merged, load).Some?
    requires DistinctClipIds(load(shot.params.value.timelineId).value.clips)
    requires OriginsTellApart(tail, ordinal + 1) && OriginsNamed(tail)
    ensures var clips := ExpandShot(shot, ordinal, merged, load).value.clips;
      var whole := Prepend(clips, Tags(|clips|, Some(ordinal)), Some(tail)).value;
      OriginsTellApart(whole, ordinal) && OriginsNamed(whole)
  {
    var f, child := FrameOf(shot, ordinal).value, load(shot.params.value.timelineId).value;
    var part := ExpandShot(shot, ordinal, merged, load).value;
    EmittedAreNamed(f, part.assets, child.clips);
    EmittedAreDistinct(f, part.assets, child.clips);
    PrependedOrigins(part.clips, ordinal, f.shotId, child.clips, tail);
    PrependedNames(part.clips, ordinal, tail);
  }

  lemma {:induction false} TailOrigins(clips: seq<Clip>, ordinal: nat, merged: Assets, load: Loader)
    requires ChildIdsDistinct(clips, load) && ExpandFrom(clips, ordinal, merged, load).Some?
    ensures OriginsTellApart(ExpandFrom(clips, ordinal, merged, load).value, ordinal)
    ensures OriginsNamed(ExpandFrom(clips, ordinal, merged, load).value)
    decreases |clips|
  {
    if clips != [] {
      assert clips[0] in clips;
      if clips[0].clipType != Shot {
        TailOrigins(clips[1..], ordinal, merged, load);
        PrependedRoot(clips[0], ordinal, ExpandFrom(clips[1..], ordinal, merged, load).value);
      } else {
        var part := ExpandShot(clips[0], ordinal, merged, load).value;
        TailOrigins(clips[1..], ordinal + 1, part.assets, load);
        ShotOrigins(clips[0], ordinal, merged, load, ExpandFrom(clips[1..], ordinal + 1, part.assets, load).value);
      }
    }
  }

  /** Emitted ids are pairwise distinct whenever each child timeline's are, however many occurrences there are. */
  lemma EmittedIdsAreDistinct(root: Timeline, load: Loader)
    requires ChildIdsDistinct(root.clips, load) && Expand(root, load).Some?
    ensures var flat := Expand(root, load).value;
      && |flat.origins| == |flat.clips|
      && forall i, j | 0 <= i < j < |flat.clips| && flat.origins[i].Some? && flat.origins[j].Some? ::
           flat.clips[i].id != flat.clips[j].id
  {
    TailOrigins(root.clips, 0, root.assets, load);
    var flat := Expand(root, load).value;
    forall i, j | 0 <= i < j < |flat.clips| && flat.origins[i].Some? && flat.origins[j].Some?
      ensures flat.clips[i].id != flat.clips[j].id
    {
      var a, b := flat.clips[i], flat.clips[j];
      if a.id == b.id {
        ChildIdsTellApart(flat.origins[i].value, a.shotId.value, a.sourceClipId.value,
                          flat.origins[j].value, b.shotId.value, b.sourceClipId.value);
      }
    }
  }

  // -- assets

  /** The registries of the shots, in order of occurrence. */
  function Registries(clips: seq<Clip>, load: Loader): seq<Assets> {
    if clips == [] then []
    else if clips[0].clipType != Shot || clips[0].params.None? then Registries(clips[1..], load)
    else
      var child := load(clips[0].params.value.timelineId);
      (if child.None? then [] else [child.value.assets]) + Registries(clips[1..], load)
  }

  /** The entry of a key in the first registry that has one. */
  function FirstEntry(registries: seq<Assets>, key: string): Option<Entry> {
    if registries == [] then None
    else if key in registries[0] then Some(registries[0][key])
    else FirstEntry(registries[1..], key)
  }

  /** `assets` holds each key's first entry and that entry matches every later one. */
  predicate MergeOf(assets: Assets, registries: seq<Assets>) {
    && (forall k | k in assets :: FirstEntry(registries, k) == Some(assets[k]))
    && (forall r, k | r in registries && k in r :: k in assets && SameAsset(assets[k], r[k]))
  }

  lemma MergeSplits(assets: Assets, merged: Assets, child: Assets, others: seq<Assets>)
    requires MergeOf(assets, [child + merged] + others) && !Collides(merged, child)
    ensures MergeOf(assets, [merged] + ([child] + others))
  {
    var short, long := [child + merged] + others, [merged] + ([child] + others);
    assert short[1..] == others && long[1..] == [child] + others && ([child] + others)[1..] == others;
    assert forall r | r in others :: r in short;
    assert child + merged in short;
    forall k ensures FirstEntry(long, k) == FirstEntry(short, k) {}
    forall r, k | r in long && k in r ensures k in assets && SameAsset(assets[k], r[k]) {
      assert r == merged || r == child || r in others;
      if r == merged || r == child {
        assert k in child + merged;
        assert FirstEntry(short, k) == Some((child + merged)[k]);
        SameAssetIsSymmetric(r[k], r[k]);
      }
    }
  }

  lemma {:induction false} TailAssets(clips: seq<Clip>, ordinal: nat, merged: Assets, load: Loader)
    requires ExpandFrom(clips, ordinal, merged, load).Some?
    ensures MergeOf(ExpandFrom(clips, ordinal, merged, load).value.assets, [merged] + Registries(clips, load))
    decreases |clips|
  {
    if clips == [] {
      forall k | k in merged ensures SameAsset(merged[k], merged[k]) { SameAssetIsSymmetric(merged[k], merged[k]); }
    } else if clips[0].clipType != Shot {
      TailAssets(clips[1..], ordinal, merged, load);
    } else {
      var child := load(clips[0].params.value.timelineId).value.assets;
      TailAssets(clips[1..], ordinal + 1, child + merged, load);
      var all := ExpandFrom(clips, ordinal, merged, load).value.assets;
      MergeSplits(all, merged, child, Registries(clips[1..], load));
    }
  }

  lemma {:induction false} TailResolves(clips: seq<Clip>, ordinal: nat, merged: Assets, load: Loader)
    requires ExpandFrom(clips, ordinal, merged, load).Some?
    ensures var flat := ExpandFrom(clips, ordinal, merged, load).value;
      && |flat.origins| == |flat.clips| && merged.Keys <= flat.assets.Keys
      && forall i | 0 <= i < |flat.clips| && flat.origins[i].Some? ::
           flat.clips[i].asset.Some? ==> flat.clips[i].asset.value in flat.assets
    decreases |clips|
  {
    if clips != [] {
      if clips[0].clipType != Shot {
        TailResolves(clips[1..], ordinal, merged, load);
      } else {
        var part := ExpandShot(clips[0], ordinal, merged, load).value;
        TailResolves(clips[1..], ordinal + 1, part.assets, load);
        ChildrenHaveNoShots(FrameOf(clips[0], ordinal).value, part.assets,
                            load(clips[0].params.value.timelineId).value.clips);
      }
    }
  }

  /**
    The merged registry holds, for each key, the first entry seen, which names the same media as
    every later entry of that key; and every asset of an emitted clip resolves in it.
   */
  lemma MergedAssetsAreFirstSeen(root: Timeline, load: Loader)
    requires Expand(root, load).Some?
    ensures var flat := Expand(root, load).value;
      && MergeOf(flat.assets, [root.assets] + Registries(root.clips, load))
      && |flat.origins| == |flat.clips|
      && forall i | 0 <= i < |flat.clips| && flat.origins[i].Some? ::
           flat.clips[i].asset.Some? ==> flat.clips[i].asset.value in flat.assets
  {
    TailAssets(root.clips, 0, root.assets, load);
    TailResolves(root.clips, 0, root.assets, load);
  }
}
