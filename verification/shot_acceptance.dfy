/** Exactly which timelines flatten, said of the authored fields and of the registries in order of appearance. */
module ShotAcceptance {
  import opened Wrappers
  import opened AssetIdentity
  import opened ShotFlattening
  import opened ShotMeaning

  /** A child a shot may hold, given the registries seen so far, its own included. */
  predicate AcceptableChild(registries: seq<Assets>, c: Clip) {
    && c.clipType != Shot && c.id != "" && WellTimed(c)
    && (c.asset.Some? ==> FirstEntry(registries, c.asset.value).Some?)
    && !HeldStill(registries, c)
  }

  /** Media of a still that is held without source bounds. */
  predicate HeldStill(registries: seq<Assets>, c: Clip) {
    && c.clipType == Media && c.hold.Some? && (c.sourceFrom.None? || c.sourceTo.None?) && c.asset.Some?
    && var entry := FirstEntry(registries, c.asset.value);
       entry.Some? && entry.value.Entry? && entry.value.still
  }

  /** No key of this registry names other media than the first registry that had it. */
  predicate Compatible(registries: seq<Assets>, child: Assets) {
    forall k | k in child && FirstEntry(registries, k).Some? :: SameAsset(FirstEntry(registries, k).value, child[k])
  }

  predicate AcceptableShot(registries: seq<Assets>, shot: Clip, load: Loader) {
    && Windowed(shot)
    && var child := load(shot.params.value.timelineId);
       && child.Some? && Compatible(registries, child.value.assets)
       && forall c | c in child.value.clips :: AcceptableChild(registries + [child.value.assets], c)
  }

  /** The registry that speaks for all of these: each key's first entry. */
  ghost predicate Speaks(merged: Assets, registries: seq<Assets>) {
    forall k :: FirstEntry(registries, k) == if k in merged then Some(merged[k]) else None
  }

  lemma {:induction false} FirstEntryAppend(registries: seq<Assets>, last: Assets, key: string)
    ensures FirstEntry(registries + [last], key)
         == if FirstEntry(registries, key).Some? then FirstEntry(registries, key)
            else if key in last then Some(last[key]) else None
    decreases |registries|
  {
    if registries == [] {
      assert registries + [last] == [last];
    } else {
      assert (registries + [last])[1..] == registries[1..] + [last];
      FirstEntryAppend(registries[1..], last, key);
    }
  }

  lemma MergedSpeaks(merged: Assets, registries: seq<Assets>, child: Assets)
    requires Speaks(merged, registries)
    ensures Speaks(child + merged, registries + [child])
  {
    forall k ensures FirstEntry(registries + [child], k) == if k in child + merged then Some((child + merged)[k]) else None {
      FirstEntryAppend(registries, child, k);
    }
  }

  lemma CompatibleIff(merged: Assets, registries: seq<Assets>, child: Assets)
    requires Speaks(merged, registries)
    ensures Compatible(registries, child) <==> !Collides(merged, child)
  {
  }

  lemma ChildIsAcceptedIff(f: Frame, assets: Assets, registries: seq<Assets>, c: Clip)
    requires Speaks(assets, registries)
    ensures AcceptableChild(registries, c) <==> ExpandChild(f, assets, c).Some? && !UnboundedStill(assets, c)
  {
    TimingIsAuthored(c);
  }

  lemma {:induction false} ChildrenAreAcceptedIff(f: Frame, assets: Assets, registries: seq<Assets>, children: seq<Clip>)
    requires Speaks(assets, registries)
    ensures (forall c | c in children :: AcceptableChild(registries, c)) <==>
              ExpandChildren(f, assets, children).Some? && !exists c | c in children :: UnboundedStill(assets, c)
    decreases |children|
  {
    if children != [] {
      ChildIsAcceptedIff(f, assets, registries, children[0]);
      ChildrenAreAcceptedIff(f, assets, registries, children[1..]);
      assert forall c | c in children :: c == children[0] || c in children[1..];
    }
  }

  lemma ShotIsAcceptedIff(shot: Clip, ordinal: nat, merged: Assets, registries: seq<Assets>, load: Loader)
    requires Speaks(merged, registries)
    ensures ExpandShot(shot, ordinal, merged, load).Some? <==> AcceptableShot(registries, shot, load)
    ensures AcceptableShot(registries, shot, load) ==>
      Speaks(ExpandShot(shot, ordinal, merged, load).value.assets, registries + [load(shot.params.value.timelineId).value.assets])
  {
    FrameIsAuthored(shot, ordinal);
    if Windowed(shot) && load(shot.params.value.timelineId).Some? {
      var f, child := FrameOf(shot, ordinal).value, load(shot.params.value.timelineId).value;
      CompatibleIff(merged, registries, child.assets);
      MergedSpeaks(merged, registries, child.assets);
      ChildrenAreAcceptedIff(f, child.assets + merged, registries + [child.assets], child.clips);
    }
  }

  /** Each shot is acceptable after the registries of the root and of the shots before it. */
  predicate AllAcceptable(registries: seq<Assets>, clips: seq<Clip>, load: Loader) {
    forall i | 0 <= i < |clips| && clips[i].clipType == Shot ::
      AcceptableShot(registries + Registries(clips[..i], load), clips[i], load)
  }

  lemma AcceptableFirst(registries: seq<Assets>, clips: seq<Clip>, load: Loader, first: seq<Assets>)
    requires clips != [] && Registries([clips[0]], load) == first
    ensures AllAcceptable(registries, clips, load) <==>
              && (clips[0].clipType == Shot ==> AcceptableShot(registries, clips[0], load))
              && AllAcceptable(registries + first, clips[1..], load)
  {
    var tail := clips[1..];
    forall i | 0 <= i < |tail|
      ensures registries + first + Registries(tail[..i], load) == registries + Registries(clips[..i + 1], load)
    {
      assert clips[..i + 1] == [clips[0]] + tail[..i];
      RegistriesFirst(clips[0], tail[..i], load);
      assert registries + first + Registries(tail[..i], load) == registries + (first + Registries(tail[..i], load));
    }
    assert registries + Registries(clips[..0], load) == registries;
    assert forall i | 1 <= i < |clips| :: clips[i] == tail[i - 1];
    if AllAcceptable(registries + first, tail, load) {
      forall i | 1 <= i < |clips| && clips[i].clipType == Shot
        ensures AcceptableShot(registries + Registries(clips[..i], load), clips[i], load)
      {
        assert tail[i - 1].clipType == Shot;
      }
    }
  }

  lemma RegistriesFirst(c: Clip, tail: seq<Clip>, load: Loader)
    ensures Registries([c] + tail, load) == Registries([c], load) + Registries(tail, load)
  {
    assert ([c] + tail)[1..] == tail;
  }

  lemma {:induction false} TailFlattensIff(clips: seq<Clip>, ordinal: nat, merged: Assets, registries: seq<Assets>, load: Loader)
    requires Speaks(merged, registries)
    ensures ExpandFrom(clips, ordinal, merged, load).Some? <==> AllAcceptable(registries, clips, load)
    decreases |clips|
  {
    if clips != [] {
      var first := Registries([clips[0]], load);
      AcceptableFirst(registries, clips, load, first);
      if clips[0].clipType != Shot {
        assert registries + first == registries;
        TailFlattensIff(clips[1..], ordinal, merged, registries, load);
      } else {
        ShotIsAcceptedIff(clips[0], ordinal, merged, registries, load);
        if AcceptableShot(registries, clips[0], load) {
          var part := ExpandShot(clips[0], ordinal, merged, load).value;
          assert first == [load(clips[0].params.value.timelineId).value.assets];
          TailFlattensIff(clips[1..], ordinal + 1, part.assets, registries + first, load);
        }
      }
    }
  }

  /**
    A timeline flattens exactly when every shot clip is acceptable where it stands: it names a shot
    and a loadable timeline, has a finite start and a positive hold, brings no asset key that means
    other media than its first registry said, and every child of it is well timed, named, no shot,
    resolves its asset by then, and is no unbounded still.
   */
  lemma FlattensIff(root: Timeline, load: Loader)
    ensures Expand(root, load).Some? <==> AllAcceptable([root.assets], root.clips, load)
  {
    TailFlattensIff(root.clips, 0, root.assets, [root.assets], load);
  }
}
