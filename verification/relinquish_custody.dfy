/**
  Who can take a retiring generation's credential away too soon, or give it back its bearer: only
  a launcher that the daemon still holds. Both answers are conditions on the state a caller sees,
  and both speak of every run from it.
 */
module RelinquishCustody {
  import opened Wrappers
  import opened WorkerRelinquish

  predicate PendingFor(w: World, receipt: nat) {
    Pending(w) && w.checkpoint.value.receipt == receipt
  }

  predicate Unstopped(w: World, receipt: nat) {
    PendingFor(w, receipt) && !w.checkpoint.value.state.Stopped?
  }

  /** Once a receipt's stop is on record, it is never again pending without it. */
  lemma StoppedIsRemembered(w: World, receipt: nat)
    requires Inv(w) && Wrote(receipt, Stopped) in w.log
    ensures !Unstopped(w, receipt)
  {
  }

  lemma CompleteIsRemembered(w: World, receipt: nat)
    requires Inv(w) && Wrote(receipt, Complete) in w.log
    ensures !PendingFor(w, receipt)
  {
  }

  // -- the files

  /** In no run does a file go before this retirement's stop is durable. */
  ghost predicate FilesAwaitTheStop(w: World, receipt: nat) {
    forall steps :: Unstopped(Play(w, steps), receipt) ==> Play(w, steps).files == w.files
  }

  /** The stop is on record, or nothing has happened to the files and nobody can happen to them. */
  predicate Waiting(w: World, receipt: nat, files: map<File, Credential>) {
    || Wrote(receipt, Stopped) in w.log
    || (Unstopped(w, receipt) && w.files == files && (!w.launcher || files == map[]))
  }

  lemma WaitingOnContinue(w: World, s: Step, receipt: nat, files: map<File, Credential>)
    requires Guarded(w) && Enabled(w, s) && Waiting(w, receipt, files) && s.Continue?
    ensures Waiting(Next(w, s), receipt, files)
  {
    StepIsLogged(w, s);
  }

  lemma StaysWaiting(w: World, s: Step, receipt: nat, files: map<File, Credential>)
    requires Guarded(w) && Enabled(w, s) && Waiting(w, receipt, files)
    ensures Waiting(Next(w, s), receipt, files)
  {
    if s.Continue? {
      WaitingOnContinue(w, s, receipt, files);
    } else {
      StepIsLogged(w, s);
    }
  }

  lemma {:induction false} PlayStaysWaiting(w: World, steps: seq<Step>, receipt: nat, files: map<File, Credential>)
    requires Inv(w) && Waiting(w, receipt, files)
    ensures Inv(Play(w, steps)) && Waiting(Play(w, steps), receipt, files)
    decreases |steps|
  {
    if steps != [] {
      if Enabled(w, steps[0]) {
        StepKeepsInv(w, steps[0]);
        StaysWaiting(w, steps[0], receipt, files);
        PlayStaysWaiting(Next(w, steps[0]), steps[1..], receipt, files);
      } else {
        PlayStaysWaiting(w, steps[1..], receipt, files);
      }
    }
  }

  /**
    Before the durable stop no run removes a file of the retiring generation if and only if the
    daemon holds no launcher, or there is no file left to remove.
   */
  lemma FilesAwaitTheStopExactlyWithoutLauncher(w: World, receipt: nat)
    requires Inv(w) && Unstopped(w, receipt)
    ensures FilesAwaitTheStop(w, receipt) <==> !w.launcher || w.files == map[]
  {
    if !w.launcher || w.files == map[] {
      forall steps
        ensures Unstopped(Play(w, steps), receipt) ==> Play(w, steps).files == w.files
      {
        PlayStaysWaiting(w, steps, receipt, w.files);
        if Wrote(receipt, Stopped) in Play(w, steps).log {
          StoppedIsRemembered(Play(w, steps), receipt);
        }
      }
    } else {
      var f :| f in w.files;
      var s := LauncherRevokes(f);
      PlayFirst(w, s, []);
      assert [s] + [] == [s];
      assert f !in Play(w, [s]).files;
      assert Unstopped(Play(w, [s]), receipt);
    }
  }

  // -- the bearer

  /** In no run is the bearer enabled again while this retirement is pending. */
  ghost predicate FenceHolds(w: World, receipt: nat) {
    forall steps :: PendingFor(Play(w, steps), receipt) ==> Play(w, steps).disabled
  }

  predicate BearerFenced(w: World) {
    w.disabled && (!w.launcher || Readable(w.files).None?)
  }

  predicate FenceKept(w: World, receipt: nat) {
    Wrote(receipt, Complete) in w.log || (PendingFor(w, receipt) && BearerFenced(w))
  }

  lemma FencedOnContinue(w: World, s: Step, receipt: nat)
    requires Guarded(w) && Enabled(w, s) && FenceKept(w, receipt) && s.Continue?
    ensures FenceKept(Next(w, s), receipt)
  {
    StepIsLogged(w, s);
  }

  lemma StaysFenced(w: World, s: Step, receipt: nat)
    requires Guarded(w) && Enabled(w, s) && FenceKept(w, receipt)
    ensures FenceKept(Next(w, s), receipt)
  {
    if s.Continue? {
      FencedOnContinue(w, s, receipt);
    } else {
      StepIsLogged(w, s);
    }
  }

  lemma {:induction false} PlayKeepsFence(w: World, steps: seq<Step>, receipt: nat)
    requires Inv(w) && FenceKept(w, receipt)
    ensures Inv(Play(w, steps)) && FenceKept(Play(w, steps), receipt)
    decreases |steps|
  {
    if steps != [] {
      if Enabled(w, steps[0]) {
        StepKeepsInv(w, steps[0]);
        StaysFenced(w, steps[0], receipt);
        PlayKeepsFence(Next(w, steps[0]), steps[1..], receipt);
      } else {
        PlayKeepsFence(w, steps[1..], receipt);
      }
    }
  }

  /**
    While a retirement is pending no run enables its bearer again if and only if the bearer is
    disabled now, and no launcher is held that could enable a readable generation by a handoff.
   */
  lemma FenceHoldsExactlyWithoutLauncher(w: World, receipt: nat)
    requires Inv(w) && PendingFor(w, receipt)
    ensures FenceHolds(w, receipt) <==> BearerFenced(w)
  {
    if BearerFenced(w) {
      forall steps
        ensures PendingFor(Play(w, steps), receipt) ==> Play(w, steps).disabled
      {
        PlayKeepsFence(w, steps, receipt);
        if Wrote(receipt, Complete) in Play(w, steps).log {
          CompleteIsRemembered(Play(w, steps), receipt);
        }
      }
    } else if w.disabled {
      PlayFirst(w, HandoffEnables, []);
      assert [HandoffEnables] + [] == [HandoffEnables];
      assert !Play(w, [HandoffEnables]).disabled;
    } else {
      assert Play(w, []) == w;
    }
  }

  /** A restart with a retirement pending builds no launcher: from then on the files wait and the fence holds. */
  lemma RestartHoldsTheActor(w: World, receipt: nat)
    requires Inv(w) && PendingFor(w, receipt)
    ensures FenceHolds(Next(w, Restart), receipt)
    ensures Unstopped(w, receipt) ==> FilesAwaitTheStop(Next(w, Restart), receipt)
  {
    StepKeepsInv(w, Restart);
    FenceHoldsExactlyWithoutLauncher(Next(w, Restart), receipt);
    if Unstopped(w, receipt) {
      FilesAwaitTheStopExactlyWithoutLauncher(Next(w, Restart), receipt);
    }
  }

  // -- what every run keeps

  /** Past its first stage a pending retirement has its bearer disabled, unless a launcher is held. */
  predicate FencedWhenWritten(w: World) {
    Pending(w) && !w.checkpoint.value.state.Fencing? && !w.launcher ==> w.disabled
  }

  /** A launch finds and leaves nothing remote. */
  predicate LaunchIsLocal(w: World) {
    w.phase.Launching? ==> forall f | f in w.files :: w.files[f].Local?
  }

  lemma StepKeepsFence(w: World, s: Step)
    requires Guarded(w) && FencedWhenWritten(w) && Enabled(w, s)
    ensures FencedWhenWritten(Next(w, s))
  {
  }

  lemma StepKeepsLocal(w: World, s: Step)
    requires LaunchIsLocal(w) && Enabled(w, s)
    ensures LaunchIsLocal(Next(w, s))
  {
    if s.BeginLaunch? && w.files != map[] {
      ReadableMeansAll(w.files);
    }
  }

  /**
    In every run: once its fence is durable a pending retirement's bearer is disabled unless a launcher
    is held, and a local launch never meets a remote credential.
   */
  lemma {:induction false} EveryRunKeepsCustody(w: World, steps: seq<Step>)
    requires Inv(w) && FencedWhenWritten(w) && LaunchIsLocal(w)
    ensures FencedWhenWritten(Play(w, steps)) && LaunchIsLocal(Play(w, steps))
    decreases |steps|
  {
    if steps != [] {
      if Enabled(w, steps[0]) {
        StepKeepsInv(w, steps[0]);
        StepKeepsFence(w, steps[0]);
        StepKeepsLocal(w, steps[0]);
        EveryRunKeepsCustody(Next(w, steps[0]), steps[1..]);
      } else {
        EveryRunKeepsCustody(w, steps[1..]);
      }
    }
  }

  /**
    Remote cleanup takes an activation's files exactly while the actor holds nothing else: a file can
    go if and only if every file present is that activation's and no call is at work, and the others
    stay as they were.
   */
  lemma RemoteCleanupIsExact(w: World, f: File, activation: nat)
    requires f in w.files
    ensures Enabled(w, RevokeRemote(f, activation)) <==> w.phase.Idle? && w.files.Values == {Remote(activation)}
    ensures Enabled(w, RevokeRemote(f, activation)) ==>
      var end := Next(w, RevokeRemote(f, activation));
      end.files == w.files - {f} && end.disabled && end.checkpoint == w.checkpoint
  {
    assert w.files[f] in w.files.Values;
    if forall g | g in w.files :: w.files[g] == Remote(activation) {
      assert w.files.Values == {Remote(activation)};
    }
    assert w.files.Values == {Remote(activation)} ==> forall g | g in w.files :: w.files[g] in w.files.Values;
  }
}
