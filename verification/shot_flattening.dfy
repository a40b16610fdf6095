/**
  Flattening authored shot clips into a renderable timeline: each child clip is clipped to
  its shot's window, trimmed at the left, rescaled by its speed and renamed. Times are reals.

  The methods at the end run the expansion as the code does and are proved to compute `Expand`.
 */
module ShotFlattening {
  import opened Wrappers
  import opened AssetIdentity
  import opened OccurrenceNames

  /** A numeric field as the finite-number test reads it. */
  datatype Num = Finite(v: real) | NotFinite

  datatype ClipType = Shot | Media | Other

  datatype ShotParams = ShotParams(shotId: string, timelineId: string)

  datatype Clip = Clip(
    clipType: ClipType, id: string, at: Option<Num>, hold: Option<Num>, durationMs: Option<Num>, speed: Option<Num>,
    sourceFrom: Option<Num>, sourceTo: Option<Num>, asset: Option<string>, track: Option<string>,
    params: Option<ShotParams>, shotId: Option<string>, occurrenceId: Option<string>, sourceClipId: Option<string>,
    rest: string)

  type Assets = map<string, Entry>

  datatype Timeline = Timeline(clips: seq<Clip>, assets: Assets)

  /** Loading a child timeline gives it or fails. */
  type Loader = string -> Option<Timeline>

  /** The flattened timeline; `origins` tells for each clip the shot occurrence that emitted it, if one did. */
  datatype Flat = Flat(clips: seq<Clip>, origins: seq<Option<nat>>, assets: Assets)

  // -- timing of one clip

  /** A clip's place on its own timeline: start, source duration, speed and source start. */
  datatype Timing = Timing(at: real, hold: real, speed: real, sourceFrom: Option<real>)

  function Number(field: Option<Num>, default: real): Num {
    if field.None? then Finite(default) else field.value
  }

  function SourceHold(c: Clip): Num {
    if c.hold.Some? then c.hold.value
    else if c.durationMs.Some? then
      match c.durationMs.value case NotFinite => NotFinite case Finite(ms) => Finite(ms / 1000.0)
    else Finite(0.0)
  }

  /** The timing of a clip, or nothing when the clip is malformed. */
  function TimingOf(c: Clip): Option<Timing> {
    var at, hold, speed := Number(c.at, 0.0), SourceHold(c), Number(c.speed, 1.0);
    var from, until := Number(c.sourceFrom, 0.0), Number(c.sourceTo, 0.0);
    if at.NotFinite? || hold.NotFinite? || speed.NotFinite? || from.NotFinite? || until.NotFinite? then None
    else if speed.v <= 0.0 || c.sourceFrom.Some? != c.sourceTo.Some? then None
    else if (c.sourceFrom.Some? && until.v <= from.v) || hold.v < 0.0 then None
    else
      var length := if hold.v <= 0.0 && until.v > from.v then until.v - from.v else hold.v;
      if length <= 0.0 then None
      else Some(Timing(at.v, length, speed.v, if c.sourceFrom.Some? then Some(from.v) else None))
  }

  /** The timeline time at which a clip ends: source duration divided once by speed. */
  function End(m: Timing): real
    requires m.speed > 0.0
  {
    m.at + m.hold / m.speed
  }

  /** The stretch of source that plays during a stretch of timeline. */
  function SourceTime(duration: real, speed: real): real { duration * speed }

  // -- emitting one child clip

  /** A shot clip's window and how its children are labelled. */
  datatype Frame = Frame(at: real, hold: real, ordinal: nat, shotId: string, track: Option<string>)

  function FrameOf(shot: Clip, ordinal: nat): Option<Frame> {
    var at, hold := Number(shot.at, 0.0), Number(shot.hold, 0.0);
    if shot.params.None? || shot.params.value.shotId == "" || shot.params.value.timelineId == "" then None
    else if at.NotFinite? || hold.NotFinite? || hold.v <= 0.0 then None
    else Some(Frame(at.v, hold.v, ordinal, shot.params.value.shotId, shot.track))
  }

  function Max(a: real, b: real): real { if a >= b then a else b }

  function Min(a: real, b: real): real { if a <= b then a else b }

  function VisibleAt(f: Frame, m: Timing): real { Max(f.at + m.at, f.at) }

  function VisibleEnd(f: Frame, m: Timing): real
    requires m.speed > 0.0
  {
    Min(f.at + End(m), f.at + f.hold)
  }

  function Labelled(f: Frame, c: Clip): Clip {
    c.(id := ChildId(f.ordinal, f.shotId, c.id), track := if c.track.None? then f.track else c.track,
       shotId := Some(f.shotId), occurrenceId := Some(OccurrenceId(f.ordinal, f.shotId)), sourceClipId := Some(c.id))
  }

  function Trimmed(f: Frame, c: Clip, m: Timing): Clip
    requires m.speed > 0.0
  {
    var start := VisibleAt(f, m);
    var duration := VisibleEnd(f, m) - start;
    var placed := Labelled(f, c).(at := Some(Finite(start)), durationMs := None);
    var held := if c.hold.Some? || c.durationMs.Some? || c.sourceFrom.None?
                then placed.(hold := Some(Finite(SourceTime(duration, m.speed)))) else placed;
    if m.sourceFrom.None? then held
    else
      var from := m.sourceFrom.value + SourceTime(start - (f.at + m.at), m.speed);
      held.(sourceFrom := Some(Finite(from)), sourceTo := Some(Finite(from + SourceTime(duration, m.speed))))
  }

  function ExpandChild(f: Frame, assets: Assets, c: Clip): Option<seq<Clip>> {
    var m := TimingOf(c);
    if c.clipType == Shot || c.id == "" || (c.asset.Some? && c.asset.value !in assets) || m.None? then None
    else if VisibleEnd(f, m.value) <= VisibleAt(f, m.value) then Some([])
    else Some([Trimmed(f, c, m.value)])
  }

  /** Both parts in order, or a failure if either failed. */
  function Join(a: Option<seq<Clip>>, b: Option<seq<Clip>>): Option<seq<Clip>> {
    if a.None? || b.None? then None else Some(a.value + b.value)
  }

  function ExpandChildren(f: Frame, assets: Assets, children: seq<Clip>): Option<seq<Clip>> {
    if children == [] then Some([])
    else Join(ExpandChild(f, assets, children[0]), ExpandChildren(f, assets, children[1..]))
  }

  // -- the whole timeline

  predicate Collides(merged: Assets, child: Assets) {
    exists k | k in merged && k in child :: !SameAsset(merged[k], child[k])
  }

  /** A still held without source bounds. */
  predicate UnboundedStill(assets: Assets, c: Clip) {
    c.clipType == Media && c.hold.Some? && (c.sourceFrom.None? || c.sourceTo.None?)
    && c.asset.Some? && c.asset.value in assets && assets[c.asset.value].Entry? && assets[c.asset.value].still
  }

  /** What one shot clip contributes: its clips and the registry merged so far. */
  datatype Part = Part(clips: seq<Clip>, assets: Assets)

  function ExpandShot(shot: Clip, ordinal: nat, merged: Assets, load: Loader): Option<Part> {
    var f := FrameOf(shot, ordinal);
    if f.None? then None
    else
      var child := load(shot.params.value.timelineId);
      if child.None? || Collides(merged, child.value.assets) then None
      else
        var assets := child.value.assets + merged;
        if exists c | c in child.value.clips :: UnboundedStill(assets, c) then None
        else
          var clips := ExpandChildren(f.value, assets, child.value.clips);
          if clips.None? then None else Some(Part(clips.value, assets))
  }

  function Tags(n: nat, tag: Option<nat>): seq<Option<nat>> {
    seq(n, _ => tag)
  }

  /** A flattened tail with more clips, all from one origin, in front of it. */
  function Prepend(clips: seq<Clip>, origins: seq<Option<nat>>, tail: Option<Flat>): Option<Flat> {
    if tail.None? then None
    else Some(Flat(clips + tail.value.clips, origins + tail.value.origins, tail.value.assets))
  }

  function ExpandFrom(clips: seq<Clip>, ordinal: nat, merged: Assets, load: Loader): Option<Flat> {
    if clips == [] then Some(Flat([], [], merged))
    else if clips[0].clipType != Shot then Prepend([clips[0]], [None], ExpandFrom(clips[1..], ordinal, merged, load))
    else
      var part := ExpandShot(clips[0], ordinal, merged, load);
      if part.None? then None
      else Prepend(part.value.clips, Tags(|part.value.clips|, Some(ordinal)),
                   ExpandFrom(clips[1..], ordinal + 1, part.value.assets, load))
  }

  function Expand(root: Timeline, load: Loader): Option<Flat> {
    ExpandFrom(root.clips, 0, root.assets, load)
  }

  // -- the expansion as it runs

  method MergeAssets(merged: Assets, child: Assets) returns (result: Option<Assets>)
    ensures result == if Collides(merged, child) then None else Some(child + merged)
  {
    var assets, todo := merged, child.Keys;
    while todo != {}
      invariant todo <= child.Keys
      invariant assets.Keys == merged.Keys + (child.Keys - todo)
      invariant forall k | k in assets :: assets[k] == if k in merged then merged[k] else child[k]
      invariant forall k | k in merged && k in child.Keys - todo :: SameAsset(merged[k], child[k])
    {
      var k :| k in todo;
      if k in assets && !SameAsset(assets[k], child[k]) { return None; }
      if k !in assets { assets := assets[k := child[k]]; }
      todo := todo - {k};
    }
    assert assets == child + merged;
    result := Some(assets);
  }

  method RejectUnboundedStills(assets: Assets, clips: seq<Clip>) returns (rejected: bool)
    ensures rejected <==> exists c | c in clips :: UnboundedStill(assets, c)
  {
    for i := 0 to |clips|
      invariant forall k | 0 <= k < i :: !UnboundedStill(assets, clips[k])
    {
      if UnboundedStill(assets, clips[i]) { return true; }
    }
    rejected := false;
  }

  lemma JoinIsAssociative(a: Option<seq<Clip>>, b: Option<seq<Clip>>, c: Option<seq<Clip>>)
    ensures Join(Join(a, b), c) == Join(a, Join(b, c)) && Join(Some([]), a) == a == Join(a, Some([]))
  {
    if a.Some? {
      assert [] + a.value == a.value == a.value + [];
      if b.Some? && c.Some? {
        assert (a.value + b.value) + c.value == a.value + (b.value + c.value);
      }
    }
  }

  lemma {:induction false} ChildrenAppend(f: Frame, assets: Assets, a: seq<Clip>, b: seq<Clip>)
    ensures ExpandChildren(f, assets, a + b) == Join(ExpandChildren(f, assets, a), ExpandChildren(f, assets, b))
  {
    if a == [] {
      assert a + b == b;
      JoinIsAssociative(ExpandChildren(f, assets, b), None, None);
    } else {
      assert (a + b)[1..] == a[1..] + b;
      ChildrenAppend(f, assets, a[1..], b);
      JoinIsAssociative(ExpandChild(f, assets, a[0]), ExpandChildren(f, assets, a[1..]), ExpandChildren(f, assets, b));
    }
  }

  lemma OneChild(f: Frame, assets: Assets, c: Clip)
    ensures ExpandChildren(f, assets, [c]) == ExpandChild(f, assets, c)
  {
    JoinIsAssociative(ExpandChild(f, assets, c), None, None);
  }

  lemma PrependTwice(c: seq<Clip>, o: seq<Option<nat>>, c': seq<Clip>, o': seq<Option<nat>>, tail: Option<Flat>)
    ensures Prepend(c, o, Prepend(c', o', tail)) == Prepend(c + c', o + o', tail) && Prepend([], [], tail) == tail
  {
    if tail.Some? {
      assert (c + c') + tail.value.clips == c + (c' + tail.value.clips);
      assert (o + o') + tail.value.origins == o + (o' + tail.value.origins);
      assert [] + tail.value.clips == tail.value.clips && [] + tail.value.origins == tail.value.origins;
    }
  }

  /** The checks on a child's numbers, in the order the code makes them. */
  method ReadTiming(c: Clip) returns (m: Option<Timing>)
    ensures m == TimingOf(c)
  {
    var childAt, childHold, speed := Number(c.at, 0.0), Finite(0.0), Number(c.speed, 1.0);
    if c.hold.Some? {
      childHold := c.hold.value;
    } else if c.durationMs.Some? {
      childHold := if c.durationMs.value.NotFinite? then NotFinite else Finite(c.durationMs.value.v / 1000.0);
    }
    if childAt.NotFinite? || childHold.NotFinite? || speed.NotFinite? || speed.v <= 0.0 { return None; }
    if c.sourceFrom.Some? != c.sourceTo.Some? { return None; }
    var from, until := Number(c.sourceFrom, 0.0), Number(c.sourceTo, 0.0);
    if from.NotFinite? || until.NotFinite? { return None; }
    if c.sourceFrom.Some? && until.v <= from.v { return None; }
    var hold := childHold.v;
    if hold < 0.0 { return None; }
    if hold <= 0.0 && until.v > from.v { hold := until.v - from.v; }
    if hold <= 0.0 { return None; }
    m := Some(Timing(childAt.v, hold, speed.v, if c.sourceFrom.Some? then Some(from.v) else None));
  }

  /** The child's copy, field after field. */
  method TrimChild(f: Frame, c: Clip, m: Timing, visibleAt: real, visibleEnd: real) returns (expanded: Clip)
    requires TimingOf(c) == Some(m) && visibleAt == VisibleAt(f, m) && visibleEnd == VisibleEnd(f, m)
    ensures expanded == Trimmed(f, c, m)
  {
    var leftTrim, visibleDuration := visibleAt - (f.at + m.at), visibleEnd - visibleAt;
    expanded := c.(id := ChildId(f.ordinal, f.shotId, c.id), at := Some(Finite(visibleAt)));
    if c.durationMs.Some? { expanded := expanded.(durationMs := None); }
    if expanded.hold.Some? || c.durationMs.Some? || c.sourceFrom.None? {
      expanded := expanded.(hold := Some(Finite(SourceTime(visibleDuration, m.speed))));
    }
    if c.sourceFrom.Some? {
      var trimmedFrom := m.sourceFrom.value + SourceTime(leftTrim, m.speed);
      expanded := expanded.(sourceFrom := Some(Finite(trimmedFrom)),
                            sourceTo := Some(Finite(trimmedFrom + SourceTime(visibleDuration, m.speed))));
    }
    if c.track.None? { expanded := expanded.(track := f.track); }
    expanded := expanded.(shotId := Some(f.shotId), occurrenceId := Some(OccurrenceId(f.ordinal, f.shotId)),
                          sourceClipId := Some(c.id));
  }

  method ExpandOneChild(f: Frame, assets: Assets, c: Clip) returns (emitted: Option<seq<Clip>>)
    ensures emitted == ExpandChild(f, assets, c)
  {
    if c.clipType == Shot || c.id == "" { return None; }
    if c.asset.Some? && c.asset.value !in assets { return None; }
    var timing := ReadTiming(c);
    if timing.None? { return None; }
    var m := timing.value;
    var rawAt := f.at + m.at;
    var rawEnd := rawAt + m.hold / m.speed;
    var visibleAt, visibleEnd := Max(rawAt, f.at), Min(rawEnd, f.at + f.hold);
    if visibleEnd <= visibleAt { return Some([]); }
    var expanded := TrimChild(f, c, m, visibleAt, visibleEnd);
    emitted := Some([expanded]);
  }

  method ExpandEachChild(f: Frame, assets: Assets, children: seq<Clip>) returns (result: Option<seq<Clip>>)
    ensures result == ExpandChildren(f, assets, children)
  {
    var clips: seq<Clip> := [];
    for k := 0 to |children|
      invariant ExpandChildren(f, assets, children[..k]) == Some(clips)
    {
      var emitted := ExpandOneChild(f, assets, children[k]);
      assert children[..k + 1] == children[..k] + [children[k]];
      ChildrenAppend(f, assets, children[..k], [children[k]]);
      OneChild(f, assets, children[k]);
      if emitted.None? {
        assert children == children[..k + 1] + children[k + 1..];
        ChildrenAppend(f, assets, children[..k + 1], children[k + 1..]);
        return None;
      }
      clips := clips + emitted.value;
    }
    assert children[..|children|] == children;
    result := Some(clips);
  }

  method ExpandOneShot(shot: Clip, ordinal: nat, merged: Assets, load: Loader) returns (part: Option<Part>)
    ensures part == ExpandShot(shot, ordinal, merged, load)
  {
    var frame := FrameOf(shot, ordinal);
    if frame.None? { return None; }
    var child := load(shot.params.value.timelineId);
    if child.None? { return None; }
    var assets := MergeAssets(merged, child.value.assets);
    if assets.None? { return None; }
    var stills := RejectUnboundedStills(assets.value, child.value.clips);
    if stills { return None; }
    var clips := ExpandEachChild(frame.value, assets.value, child.value.clips);
    part := if clips.None? then None else Some(Part(clips.value, assets.value));
  }

  method ExpandShotClips(root: Timeline, load: Loader) returns (result: Option<Flat>)
    ensures result == Expand(root, load)
  {
    var merged := root.assets;
    var expanded: seq<Clip> := [];
    var origins: seq<Option<nat>> := [];
    var ordinal := 0;
    assert root.clips[0..] == root.clips;
    PrependTwice([], [], [], [], Expand(root, load));
    for i := 0 to |root.clips|
      invariant Expand(root, load) == Prepend(expanded, origins, ExpandFrom(root.clips[i..], ordinal, merged, load))
    {
      var clip := root.clips[i];
      assert root.clips[i..][1..] == root.clips[i + 1..];
      if clip.clipType != Shot {
        PrependTwice(expanded, origins, [clip], [None], ExpandFrom(root.clips[i + 1..], ordinal, merged, load));
        expanded, origins := expanded + [clip], origins + [None];
      } else {
        var part := ExpandOneShot(clip, ordinal, merged, load);
        if part.None? { return None; }
        var tags := Tags(|part.value.clips|, Some(ordinal));
        PrependTwice(expanded, origins, part.value.clips, tags,
                     ExpandFrom(root.clips[i + 1..], ordinal + 1, part.value.assets, load));
        merged, expanded, origins := part.value.assets, expanded + part.value.clips, origins + tags;
        ordinal := ordinal + 1;
      }
    }
    assert expanded + [] == expanded && origins + [] == origins;
    result := Some(Flat(expanded, origins, merged));
  }
}
