/**
  Retiring one exact local worker generation: fence its credential, stop its processes,
  remove its three credential files, and record each stage in a checkpoint file, so that an
  interrupted call can be repeated. The same actor lock excludes local launches and remote
  provisioning while a call runs; crashes cut any of them between two durable effects.
 */
module WorkerRelinquish {
  import opened Wrappers

  /** Whose generation a credential file belongs to. */
  datatype Credential = Local(receipt: nat) | Remote(activation: nat)

  datatype File = Token | Metadata | Marker

  datatype State = Fencing | Fenced | StopUnknown | Stopped | Complete

  datatype Checkpoint = Checkpoint(state: State, receipt: nat)

  /** The next thing a relinquish call does. */
  datatype Point = WriteFenced | StopProcesses | WriteUnknown | WriteStopped | Recheck | Unlink(file: File) | WriteComplete

  datatype Phase =
    | Idle
    | Launching(receipt: nat)
    | Provisioning(activation: nat)
    | Relinquishing(receipt: nat, state: State, at: Point)

  datatype Event =
    | Wrote(receipt: nat, state: State)
    | Removed(who: Remover, file: File, credential: Credential, checkpoint: Option<Checkpoint>)

  datatype Remover = RelinquishCall | Launcher | RemoteCleanup

  /** The files and the checkpoint are durable; the phase, the disabled actor and the held launcher live in the process. */
  datatype World = World(files: map<File, Credential>, checkpoint: Option<Checkpoint>, phase: Phase, next: nat, log: seq<Event>,
                         disabled: bool, launcher: bool)

  /** A durable effect: done, not done, or done with the caller told otherwise. */
  datatype Luck = Ok | Raise | RaiseLate

  datatype Step =
    | BeginLaunch
    | PublishLocal(file: File)
    | LauncherRevokes(file: File)             // liveness watcher, shutdown or restart of a launch: holds no actor lock
    | HandoffEnables                          // an orderly handoff is cancelled or committed by the launcher
    | BeginProvision(activation: nat)
    | PublishRemote(file: File)
    | RevokeRemote(file: File, activation: nat)
    | BeginRelinquish(receipt: nat, admitted: bool, luck: Luck)
    | Continue(admitted: bool, luck: Luck)
    | EnableActor
    | Finish                                  // a call returns or raises
    | Restart                                 // the process dies and another one starts

  function Rank(s: State): nat {
    match s case Fencing => 0 case Fenced => 1 case StopUnknown => 2 case Stopped => 3 case Complete => 4
  }

  predicate Pending(w: World) {
    w.checkpoint.Some? && !w.checkpoint.value.state.Complete?
  }

  /** The generation the credential store reads: all three files, of one generation. */
  function Readable(files: map<File, Credential>): Option<Credential> {
    if Token in files && Metadata in files && Marker in files && files[Token] == files[Metadata] == files[Marker]
    then Some(files[Token]) else None
  }

  /** Nothing remote, partial or unclassified occupies the shared actor. */
  predicate CustodyResolved(files: map<File, Credential>) {
    files == map[] || (Readable(files).Some? && Readable(files).value.Local?)
  }

  predicate Enabled(w: World, s: Step) {
    match s
    case BeginLaunch => w.phase.Idle? && !Pending(w) && CustodyResolved(w.files)
    case PublishLocal(_) => w.phase.Launching?
    case LauncherRevokes(f) => w.launcher && f in w.files
    case HandoffEnables => w.launcher && Readable(w.files).Some?
    case BeginProvision(_) => w.phase.Idle? && !Pending(w)
    case PublishRemote(_) => w.phase.Provisioning?
    case RevokeRemote(f, a) => w.phase.Idle? && f in w.files && forall g | g in w.files :: w.files[g] == Remote(a)
    case BeginRelinquish(_, _, _) => w.phase.Idle?
    case Continue(_, _) => w.phase.Relinquishing?
    case EnableActor => w.phase.Launching? || w.phase.Provisioning? || (w.phase.Idle? && !Pending(w))
    case Finish => !w.phase.Idle?
    case Restart => true
  }

  function Checkpointed(w: World, receipt: nat, state: State, luck: Luck): World {
    if luck == Raise then w
    else w.(checkpoint := Some(Checkpoint(state, receipt)), log := w.log + [Wrote(receipt, state)])
  }

  function Without(w: World, who: Remover, f: File): World
    requires f in w.files
  {
    w.(files := w.files - {f}, log := w.log + [Removed(who, f, w.files[f], w.checkpoint)], disabled := true)
  }

  /** Entering a relinquish: resume the pending one for this receipt, or open one for the readable generation. */
  function Enter(w: World, receipt: nat, admitted: bool, luck: Luck): World {
    if Pending(w) then
      var saved := w.checkpoint.value;
      var seen := Readable(w.files);
      if saved.receipt != receipt || (seen.Some? && seen.value != Local(receipt)) || !admitted then w
      else w.(phase := Relinquishing(receipt, saved.state, WriteFenced))
    else if Readable(w.files) != Some(Local(receipt)) || !admitted then w
    else
      var w' := Checkpointed(w, receipt, Fencing, luck);
      if luck == Ok then w'.(phase := Relinquishing(receipt, Fencing, WriteFenced)) else w'
  }

  function AfterFence(state: State): Point {
    if state.Stopped? then Recheck else StopProcesses
  }

  /** The files present are the ones the checkpoint captured. */
  predicate Unchanged(files: map<File, Credential>, receipt: nat) {
    forall f | f in files :: files[f] == Local(receipt)
  }

  function Proceed(w: World, receipt: nat, state: State, at: Point, admitted: bool, luck: Luck): World {
    var gone := w.(phase := Idle);
    match at
    case WriteFenced =>
      var next := if state.Fencing? then Fenced else state;
      var w' := Checkpointed(w.(disabled := true), receipt, next, luck);
      if luck == Ok && admitted && Unchanged(w.files, receipt)
      then w'.(phase := Relinquishing(receipt, next, AfterFence(next))) else w'.(phase := Idle)
    case StopProcesses =>
      // `admitted`: the preparer attests the exact stop.
      w.(phase := Relinquishing(receipt, state, if admitted then WriteStopped else WriteUnknown))
    case WriteUnknown => Checkpointed(w, receipt, StopUnknown, luck).(phase := Idle)
    case WriteStopped =>
      var w' := Checkpointed(w, receipt, Stopped, luck);
      if luck == Ok then w'.(phase := Relinquishing(receipt, Stopped, Recheck)) else w'.(phase := Idle)
    case Recheck =>
      var seen := Readable(w.files);
      if admitted && (seen.None? || seen.value == Local(receipt)) && Unchanged(w.files, receipt)
      then w.(phase := Relinquishing(receipt, state, Unlink(Marker))) else gone
    case Unlink(f) =>
      var w' := if luck != Raise && f in w.files then Without(w, RelinquishCall, f) else w;
      var next := match f case Marker => Unlink(Metadata) case Metadata => Unlink(Token) case Token => WriteComplete;
      w'.(phase := if luck == Ok then Relinquishing(receipt, state, next) else Idle, disabled := true)
    case WriteComplete => Checkpointed(w, receipt, Complete, luck).(phase := Idle, launcher := w.launcher && luck != Ok)
  }

  function Next(w: World, s: Step): World
    requires Enabled(w, s)
  {
    match s
    case BeginLaunch => w.(phase := Launching(w.next), next := w.next + 1, launcher := true)
    case PublishLocal(f) => w.(files := w.files[f := Local(w.phase.receipt)])
    case LauncherRevokes(f) => Without(w, Launcher, f)
    case HandoffEnables => w.(disabled := false)
    case BeginProvision(a) => w.(phase := Provisioning(a))
    case PublishRemote(f) => w.(files := w.files[f := Remote(w.phase.activation)])
    case RevokeRemote(f, _) => Without(w, RemoteCleanup, f)
    case BeginRelinquish(receipt, admitted, luck) => Enter(w, receipt, admitted, luck)
    case Continue(admitted, luck) => Proceed(w, w.phase.receipt, w.phase.state, w.phase.at, admitted, luck)
    case EnableActor => w.(disabled := false)
    case Finish => w.(phase := Idle)
    case Restart =>
      // A launcher is built only when nothing is pending and nothing remote or partial occupies the actor;
      // it disables the generation it finds until the process behind it is verified again.
      var free := !Pending(w) && CustodyResolved(w.files);
      w.(phase := Idle, disabled := !free || Readable(w.files).Some?, launcher := free)
  }

  function Play(w: World, steps: seq<Step>): World
    decreases |steps|
  {
    if steps == [] then w else Play(if Enabled(w, steps[0]) then Next(w, steps[0]) else w, steps[1..])
  }

  const FRESH := World(map[], None, Idle, 0, [], false, false)

  // -- invariants

  predicate Removing(p: Point) {
    p.Recheck? || p.Unlink? || p.WriteComplete?
  }

  /** Which files are already gone when a relinquish call is at a point. */
  predicate GoneSoFar(files: map<File, Credential>, at: Point) {
    && (at == Unlink(Metadata) || at == Unlink(Token) || at == WriteComplete ==> Marker !in files)
    && (at == Unlink(Token) || at == WriteComplete ==> Metadata !in files)
    && (at == WriteComplete ==> Token !in files)
  }

  /** A pending checkpoint owns every credential file, and the call in progress carries that checkpoint. */
  predicate Guarded(w: World) {
    && (Pending(w) ==>
          Unchanged(w.files, w.checkpoint.value.receipt) && !w.phase.Launching? && !w.phase.Provisioning?)
    && (w.phase.Relinquishing? ==>
          && Pending(w) && w.checkpoint.value == Checkpoint(w.phase.state, w.phase.receipt)
          && (Removing(w.phase.at) ==> w.phase.state.Stopped?)
          && (w.phase.state.Stopped? ==> Removing(w.phase.at) || w.phase.at.WriteFenced?)
          && (w.phase.state.Fencing? ==> w.phase.at.WriteFenced?)
          && GoneSoFar(w.files, w.phase.at))
  }

  /** A receipt is dead once its retirement completed: no file carries it and no launch is publishing it. */
  predicate Dead(w: World, receipt: nat) {
    && receipt < w.next
    && (forall f | f in w.files :: w.files[f] != Local(receipt))
    && w.phase != Launching(receipt)
  }

  predicate Issued(w: World) {
    && InUse(w)
    && (forall e | e in w.log && e.Wrote? && e.state.Complete? :: Dead(w, e.receipt))
  }

  predicate Forward(log: seq<Event>, receipt: nat, state: State) {
    forall e | e in log && e.Wrote? && e.receipt == receipt :: Rank(e.state) <= Rank(state)
  }

  /** Checkpoint writes of one receipt only move forward. */
  predicate Ordered(log: seq<Event>)
    decreases |log|
  {
    log == [] || (
      var n := |log| - 1;
      Ordered(log[..n]) && (log[n].Wrote? ==> Forward(log[..n], log[n].receipt, log[n].state)))
  }

  /** The checkpoint is the last word on its receipt; every other receipt that was ever fenced has completed. */
  predicate Accounted(w: World) {
    && (w.checkpoint.Some? ==>
          && Wrote(w.checkpoint.value.receipt, w.checkpoint.value.state) in w.log
          && Forward(w.log, w.checkpoint.value.receipt, w.checkpoint.value.state))
    && (forall e | e in w.log && e.Wrote? ::
          || Wrote(e.receipt, Complete) in w.log
          || (w.checkpoint.Some? && w.checkpoint.value.receipt == e.receipt))
  }

  /** A removal while a retirement was pending: whose file, and how far the retirement was. */
  predicate During(e: Event, receipt: nat) {
    e.Removed? && e.checkpoint.Some? && e.checkpoint.value.receipt == receipt && !e.checkpoint.value.state.Complete?
  }

  predicate Lawful(e: Event) {
    && (e.Removed? && e.who.RelinquishCall? ==>
          e.checkpoint.Some? && e.checkpoint.value.state.Stopped? && e.credential == Local(e.checkpoint.value.receipt))
    && (e.Removed? && e.who.RemoteCleanup? ==>
          e.credential.Remote? && (e.checkpoint.None? || e.checkpoint.value.state.Complete?))
  }

  /** While a retirement is pending, exactly the files removed since its start are missing. */
  ghost predicate Traced(w: World) {
    && (forall e | e in w.log :: Lawful(e))
    && (forall e | e in w.log && e.Removed? && e.checkpoint.Some? ::
          Wrote(e.checkpoint.value.receipt, e.checkpoint.value.state) in w.log)
    && (Pending(w) ==>
          forall f: File :: f !in w.files <==> exists e :: e in w.log && During(e, w.checkpoint.value.receipt) && e.file == f)
  }

  ghost predicate Inv(w: World) {
    Guarded(w) && Issued(w) && Ordered(w.log) && Accounted(w) && Traced(w)
  }

  // -- every step keeps the invariant

  lemma ReadableMeansAll(files: map<File, Credential>)
    requires Readable(files).Some?
    ensures forall f: File :: f in files && files[f] == Readable(files).value
  {
    forall f: File
      ensures f in files && files[f] == Readable(files).value
    {
      match f case Token => case Metadata => case Marker =>
    }
  }

  lemma NoneLeft(files: map<File, Credential>)
    requires GoneSoFar(files, WriteComplete)
    ensures files == map[]
  {
    forall f: File
      ensures f !in files
    {
      match f case Token => case Metadata => case Marker =>
    }
  }

  lemma StaysGuardedOnContinue(w: World, s: Step)
    requires Guarded(w) && Enabled(w, s)
    requires s.Continue?
    ensures Guarded(Next(w, s))
  {
    if Readable(w.files).Some? {
      ReadableMeansAll(w.files);
    }
  }

  lemma StaysGuarded(w: World, s: Step)
    requires Guarded(w) && Enabled(w, s)
    ensures Guarded(Next(w, s))
  {
    if s.Continue? {
      StaysGuardedOnContinue(w, s);
    } else {
      if Readable(w.files).Some? {
        ReadableMeansAll(w.files);
      }
    }
  }

  /** Receipts in use are below the next one to be issued. */
  predicate InUse(w: World) {
    && (forall f | f in w.files && w.files[f].Local? :: w.files[f].receipt < w.next)
    && (w.phase.Launching? ==> w.phase.receipt < w.next)
    && (w.checkpoint.Some? ==> w.checkpoint.value.receipt < w.next)
  }

  lemma StaysInUseOnContinue(w: World, s: Step)
    requires Guarded(w) && InUse(w) && Enabled(w, s)
    requires s.Continue?
    ensures InUse(Next(w, s))
  {
  }

  lemma StaysInUse(w: World, s: Step)
    requires Guarded(w) && InUse(w) && Enabled(w, s)
    ensures InUse(Next(w, s))
  {
    if s.Continue? {
      StaysInUseOnContinue(w, s);
    }
  }

  lemma DeadStaysDeadOnContinue(w: World, s: Step, receipt: nat)
    requires Guarded(w) && Dead(w, receipt) && Enabled(w, s)
    requires s.Continue?
    ensures Dead(Next(w, s), receipt)
  {
  }

  lemma DeadStaysDead(w: World, s: Step, receipt: nat)
    requires Guarded(w) && Dead(w, receipt) && Enabled(w, s)
    ensures Dead(Next(w, s), receipt)
  {
    if s.Continue? {
      DeadStaysDeadOnContinue(w, s, receipt);
    }
  }

  /** Only the last write of a relinquish call completes a retirement, with no file left. */
  lemma CompletingStep(w: World, s: Step, e: Event)
    requires Guarded(w) && Enabled(w, s) && Next(w, s).log == w.log + [e] && e.Wrote? && e.state.Complete?
    ensures s.Continue? && w.phase.at.WriteComplete? && e.receipt == w.phase.receipt && w.files == map[]
    ensures Next(w, s).files == w.files && Next(w, s).next == w.next && Next(w, s).phase.Idle?
  {
    assert (w.log + [e])[|w.log|] == e;
    assert w.log + [e] != w.log;
    if s.Continue? && w.phase.at.WriteComplete? {
      NoneLeft(w.files);
    }
  }

  lemma StaysIssued(w: World, s: Step)
    requires Guarded(w) && Issued(w) && Enabled(w, s)
    ensures Issued(Next(w, s))
  {
    var w' := Next(w, s);
    StaysInUse(w, s);
    StepIsLogged(w, s);
    if w'.log == w.log {
      CompletedStayDead(w, s);
    } else {
      var e :| w'.log == w.log + [e];
      CompletedStayDead(w, s);
      if e.Wrote? && e.state.Complete? {
        CompletingStep(w, s, e);
      }
      assert forall d | d in w'.log :: d in w.log || d == e;
    }
  }

  lemma CompletedStayDead(w: World, s: Step)
    requires Guarded(w) && Issued(w) && Enabled(w, s)
    ensures forall e | e in w.log && e.Wrote? && e.state.Complete? :: Dead(Next(w, s), e.receipt)
  {
    forall e | e in w.log && e.Wrote? && e.state.Complete?
      ensures Dead(Next(w, s), e.receipt)
    {
      DeadStaysDead(w, s, e.receipt);
    }
  }

  /** The only new checkpoint a step can write. */
  function NewWrite(w: World, s: Step): Option<Event>
    requires Enabled(w, s)
  {
    var w' := Next(w, s);
    if |w'.log| > |w.log| && w'.log[|w.log|].Wrote? then Some(w'.log[|w.log|]) else None
  }

  /** What one step may do to the log and the checkpoint. */
  ghost predicate Logged(w: World, w': World) {
    || (w'.log == w.log && w'.checkpoint == w.checkpoint)
    || (exists e :: w'.log == w.log + [e] &&
          w'.checkpoint == if e.Wrote? then Some(Checkpoint(e.state, e.receipt)) else w.checkpoint)
  }

  lemma CheckpointedIsLogged(w: World, disabled: bool, receipt: nat, state: State, luck: Luck)
    ensures Logged(w, Checkpointed(w.(disabled := disabled), receipt, state, luck))
  {
    var e := Wrote(receipt, state);
    assert luck != Raise ==> Checkpointed(w.(disabled := disabled), receipt, state, luck).log == w.log + [e];
  }

  lemma ContinuingIsLogged(w: World, s: Step)
    requires Enabled(w, s) && s.Continue?
    ensures Logged(w, Next(w, s))
  {
    var receipt := w.phase.receipt;
    match w.phase.at
    case WriteFenced =>
      CheckpointedIsLogged(w, true, receipt, if w.phase.state.Fencing? then Fenced else w.phase.state, s.luck);
    case WriteUnknown => CheckpointedIsLogged(w, w.disabled, receipt, StopUnknown, s.luck);
    case WriteStopped => CheckpointedIsLogged(w, w.disabled, receipt, Stopped, s.luck);
    case WriteComplete => CheckpointedIsLogged(w, w.disabled, receipt, Complete, s.luck);
    case _ =>
  }

  lemma StepIsLogged(w: World, s: Step)
    requires Enabled(w, s)
    ensures Logged(w, Next(w, s))
  {
    if s.Continue? {
      ContinuingIsLogged(w, s);
    } else if s.BeginRelinquish? {
      CheckpointedIsLogged(w, w.disabled, s.receipt, Fencing, s.luck);
    }
  }

  /** Opening a retirement: the receipt was never fenced before. */
  lemma OpeningMovesForward(w: World, s: Step)
    requires Issued(w) && Accounted(w) && Enabled(w, s) && s.BeginRelinquish? && NewWrite(w, s).Some?
    ensures var e := NewWrite(w, s).value;
            && Forward(w.log, e.receipt, e.state)
            && (w.checkpoint.Some? ==> Wrote(w.checkpoint.value.receipt, Complete) in w.log)
  {
    var e := NewWrite(w, s).value;
    assert w.files[Token] == Local(e.receipt);
    assert Wrote(e.receipt, Complete) in w.log ==> Dead(w, e.receipt);
  }

  lemma ContinuingMovesForward(w: World, s: Step)
    requires Guarded(w) && Accounted(w) && Enabled(w, s) && s.Continue? && NewWrite(w, s).Some?
    ensures var e := NewWrite(w, s).value;
            Forward(w.log, e.receipt, e.state) && w.checkpoint.Some? && w.checkpoint.value.receipt == e.receipt
  {
    var e := NewWrite(w, s).value;
    assert Rank(w.checkpoint.value.state) <= Rank(e.state);
  }

  lemma WritesMoveForward(w: World, s: Step)
    requires Guarded(w) && Issued(w) && Accounted(w) && Enabled(w, s)
    ensures NewWrite(w, s).Some? ==>
              var e := NewWrite(w, s).value;
              && Forward(w.log, e.receipt, e.state)
              && (w.checkpoint.Some? ==> w.checkpoint.value.receipt == e.receipt || Wrote(w.checkpoint.value.receipt, Complete) in w.log)
  {
    if NewWrite(w, s).Some? {
      if s.BeginRelinquish? {
        OpeningMovesForward(w, s);
      } else {
        ContinuingMovesForward(w, s);
      }
    }
  }

  lemma StaysAccounted(w: World, s: Step)
    requires Guarded(w) && Issued(w) && Accounted(w) && Ordered(w.log) && Enabled(w, s)
    ensures Accounted(Next(w, s)) && Ordered(Next(w, s).log)
  {
    var w' := Next(w, s);
    StepIsLogged(w, s);
    WritesMoveForward(w, s);
    if w'.log != w.log {
      var e :| w'.log == w.log + [e] && w'.checkpoint == if e.Wrote? then Some(Checkpoint(e.state, e.receipt)) else w.checkpoint;
      assert w'.log[|w.log|] == e;
      EventIsAccounted(w, w', e);
    }
  }

  lemma EventIsAccounted(w: World, w': World, e: Event)
    requires Accounted(w) && Ordered(w.log) && w'.log == w.log + [e]
    requires w'.checkpoint == if e.Wrote? then Some(Checkpoint(e.state, e.receipt)) else w.checkpoint
    requires e.Wrote? ==>
               && Forward(w.log, e.receipt, e.state)
               && (w.checkpoint.Some? ==> w.checkpoint.value.receipt == e.receipt || Wrote(w.checkpoint.value.receipt, Complete) in w.log)
    ensures Accounted(w') && Ordered(w'.log)
  {
    assert w'.log[..|w.log|] == w.log;
    assert forall d :: d in w'.log <==> d in w.log || d == e;
  }

  lemma RemovalsAreLawfulOnContinue(w: World, s: Step, e: Event)
    requires Guarded(w) && Enabled(w, s) && Next(w, s).log == w.log + [e]
    requires s.Continue?
    ensures Lawful(e)
    ensures e.Removed? ==> e.checkpoint == w.checkpoint && e.file in w.files && Next(w, s).files == w.files - {e.file}
    ensures e.Wrote? ==> Next(w, s).files == w.files
    ensures e.Wrote? ==> if Pending(w) then w.checkpoint.value.receipt == e.receipt else forall f: File :: f in w.files
  {
    assert w.log + [e] != w.log;
    assert (w.log + [e])[|w.log|] == e;
    if Readable(w.files).Some? {
      ReadableMeansAll(w.files);
    }
  }

  /** A removal names its file, its credential and the checkpoint of the moment. */
  lemma RemovalsAreLawful(w: World, s: Step, e: Event)
    requires Guarded(w) && Enabled(w, s) && Next(w, s).log == w.log + [e]
    ensures Lawful(e)
    ensures e.Removed? ==> e.checkpoint == w.checkpoint && e.file in w.files && Next(w, s).files == w.files - {e.file}
    ensures e.Wrote? ==> Next(w, s).files == w.files
    ensures e.Wrote? ==> if Pending(w) then w.checkpoint.value.receipt == e.receipt else forall f: File :: f in w.files
  {
    if s.Continue? {
      RemovalsAreLawfulOnContinue(w, s, e);
    } else {
      assert w.log + [e] != w.log;
      assert (w.log + [e])[|w.log|] == e;
      if Readable(w.files).Some? {
        ReadableMeansAll(w.files);
      }
    }
  }

  lemma QuietStepsKeepFilesOnContinue(w: World, s: Step)
    requires Guarded(w) && Enabled(w, s) && Next(w, s).log == w.log
    requires s.Continue?
    ensures Next(w, s).checkpoint == w.checkpoint
    ensures Pending(w) ==> Next(w, s).files == w.files
  {
    assert forall e: Event :: |w.log + [e]| != |w.log|;
  }

  lemma QuietStepsKeepFiles(w: World, s: Step)
    requires Guarded(w) && Enabled(w, s) && Next(w, s).log == w.log
    ensures Next(w, s).checkpoint == w.checkpoint
    ensures Pending(w) ==> Next(w, s).files == w.files
  {
    if s.Continue? {
      QuietStepsKeepFilesOnContinue(w, s);
    } else {
      assert forall e: Event :: |w.log + [e]| != |w.log|;
    }
  }

  lemma ANewRetirementStartsWhole(w: World, e: Event, d: Event)
    requires Accounted(w) && Traced(w) && !Pending(w)
    requires e.Wrote? && Forward(w.log, e.receipt, e.state) && !e.state.Complete?
    requires d in w.log
    ensures !During(d, e.receipt)
  {
  }

  lemma StaysTraced(w: World, s: Step)
    requires Inv(w) && Enabled(w, s)
    ensures Traced(Next(w, s))
  {
    var w' := Next(w, s);
    StepIsLogged(w, s);
    WritesMoveForward(w, s);
    if w'.log == w.log {
      QuietStepsKeepFiles(w, s);
    } else {
      var e :| w'.log == w.log + [e] && w'.checkpoint == if e.Wrote? then Some(Checkpoint(e.state, e.receipt)) else w.checkpoint;
      RemovalsAreLawful(w, s, e);
      assert w'.log[|w.log|] == e;
      if e.Removed? {
        RemovalIsTraced(w, w', e);
      } else {
        WriteIsTraced(w, w', e);
      }
    }
  }

  lemma WriteIsTraced(w: World, w': World, e: Event)
    requires Traced(w) && Accounted(w) && w'.log == w.log + [e] && e.Wrote? && Forward(w.log, e.receipt, e.state)
    requires w'.checkpoint == Some(Checkpoint(e.state, e.receipt)) && w'.files == w.files
    requires if Pending(w) then w.checkpoint.value.receipt == e.receipt else forall f: File :: f in w.files
    ensures Traced(w')
  {
    assert forall d :: d in w'.log <==> d in w.log || d == e;
    if !Pending(w) && Pending(w') {
      forall d | d in w.log
        ensures !During(d, e.receipt)
      {
        ANewRetirementStartsWhole(w, e, d);
      }
    }
  }

  lemma RemovalIsTraced(w: World, w': World, e: Event)
    requires Traced(w) && Accounted(w) && w'.log == w.log + [e] && e.Removed? && Lawful(e) && e.checkpoint == w.checkpoint == w'.checkpoint
    requires e.file in w.files && w'.files == w.files - {e.file}
    ensures Traced(w')
  {
    assert forall d :: d in w'.log <==> d in w.log || d == e;
    if Pending(w') {
      var receipt := w.checkpoint.value.receipt;
      forall f: File
        ensures f !in w'.files <==> exists d :: d in w'.log && During(d, receipt) && d.file == f
      {
        if f == e.file {
          assert e in w'.log && During(e, receipt);
        } else if f !in w.files {
          var d :| d in w.log && During(d, receipt) && d.file == f;
          assert d in w'.log;
        }
      }
    }
  }

  lemma StepKeepsInv(w: World, s: Step)
    requires Inv(w) && Enabled(w, s)
    ensures Inv(Next(w, s))
  {
    StaysGuarded(w, s);
    StaysIssued(w, s);
    StaysAccounted(w, s);
    StaysTraced(w, s);
  }

  lemma {:induction false} PlayKeepsInv(w: World, steps: seq<Step>)
    requires Inv(w)
    ensures Inv(Play(w, steps))
    decreases |steps|
  {
    if steps != [] {
      if Enabled(w, steps[0]) {
        StepKeepsInv(w, steps[0]);
        PlayKeepsInv(Next(w, steps[0]), steps[1..]);
      } else {
        PlayKeepsInv(w, steps[1..]);
      }
    }
  }

  // -- what holds of every run

  lemma {:induction false} OrderedAt(log: seq<Event>, i: nat, j: nat)
    requires Ordered(log) && i < j < |log| && log[i].Wrote? && log[j].Wrote? && log[i].receipt == log[j].receipt
    ensures Rank(log[i].state) <= Rank(log[j].state)
    decreases |log|
  {
    var n := |log| - 1;
    if j < n {
      OrderedAt(log[..n], i, j);
    } else {
      assert log[..n][i] in log[..n];
    }
  }

  /** Through any crashes and retries, the checkpoint of one generation never moves back. */
  lemma RetirementMovesForward(steps: seq<Step>, i: nat, j: nat)
    requires i < j < |Play(FRESH, steps).log|
    requires Play(FRESH, steps).log[i].Wrote? && Play(FRESH, steps).log[j].Wrote?
    requires Play(FRESH, steps).log[i].receipt == Play(FRESH, steps).log[j].receipt
    ensures Rank(Play(FRESH, steps).log[i].state) <= Rank(Play(FRESH, steps).log[j].state)
  {
    PlayKeepsInv(FRESH, steps);
    OrderedAt(Play(FRESH, steps).log, i, j);
  }

  /** A relinquish call removes a credential file only of its own generation, and only once its stop is durable. */
  lemma RemovalFollowsDurableStop(steps: seq<Step>, e: Event)
    requires e in Play(FRESH, steps).log && e.Removed? && e.who.RelinquishCall?
    ensures exists receipt :: e.credential == Local(receipt) && e.checkpoint == Some(Checkpoint(Stopped, receipt))
  {
    PlayKeepsInv(FRESH, steps);
    assert Lawful(e);
    assert e.credential == Local(e.checkpoint.value.receipt);
  }

  /**
    While a retirement is pending nothing else takes the actor over: whatever file is present
    belongs to the retiring generation. Before the stop is durable, the files missing are exactly
    those the launcher revoked after the retirement began.
   */
  lemma PendingActorIsHeld(steps: seq<Step>, f: File)
    requires Pending(Play(FRESH, steps))
    ensures var w := Play(FRESH, steps);
            var c := w.checkpoint.value;
            && !w.phase.Launching? && !w.phase.Provisioning?
            && (f in w.files ==> w.files[f] == Local(c.receipt))
            && (!c.state.Stopped? ==>
                  (f !in w.files <==> exists e :: e in w.log && During(e, c.receipt) && e.who.Launcher? && e.file == f))
  {
    PlayKeepsInv(FRESH, steps);
    var w := Play(FRESH, steps);
    var c := w.checkpoint.value;
    if !c.state.Stopped? && f !in w.files {
      var e :| e in w.log && During(e, c.receipt) && e.file == f;
      assert Wrote(c.receipt, e.checkpoint.value.state) in w.log && Lawful(e);
      assert e.who.Launcher?;
    }
  }

  lemma {:induction false} LogGrows(w: World, steps: seq<Step>)
    ensures w.log <= Play(w, steps).log
    decreases |steps|
  {
    if steps != [] {
      if Enabled(w, steps[0]) {
        StepIsLogged(w, steps[0]);
      }
      LogGrows(if Enabled(w, steps[0]) then Next(w, steps[0]) else w, steps[1..]);
    }
  }

  lemma {:induction false} PlayAppend(w: World, before: seq<Step>, after: seq<Step>)
    ensures Play(w, before + after) == Play(Play(w, before), after)
    decreases |before|
  {
    if before == [] {
      assert before + after == after;
    } else {
      assert (before + after)[1..] == before[1..] + after;
      PlayAppend(if Enabled(w, before[0]) then Next(w, before[0]) else w, before[1..], after);
    }
  }

  /** Once a generation's retirement completed, no later run gives its credential back, in whole or in part. */
  lemma RetiredStaysRetired(before: seq<Step>, after: seq<Step>, receipt: nat, f: File)
    requires Wrote(receipt, Complete) in Play(FRESH, before).log
    ensures var w := Play(FRESH, before + after);
            f in w.files ==> w.files[f] != Local(receipt)
  {
    PlayAppend(FRESH, before, after);
    LogGrows(Play(FRESH, before), after);
    PlayKeepsInv(FRESH, before + after);
    var w := Play(FRESH, before + after);
    assert Wrote(receipt, Complete) in w.log;
    assert Dead(w, receipt);
  }

  const GO := Continue(true, Ok)

  function Goes(n: nat): seq<Step> {
    if n == 0 then [] else [GO] + Goes(n - 1)
  }

  /** Repeating the interrupted request, with every check passing and every write succeeding. */
  function Replay(receipt: nat, state: State): seq<Step> {
    [BeginRelinquish(receipt, true, Ok)] + Goes(if state.Stopped? then 6 else 8)
  }

  lemma PlayFirst(w: World, s: Step, rest: seq<Step>)
    requires Enabled(w, s)
    ensures Play(w, [s] + rest) == Play(Next(w, s), rest)
  {
    assert ([s] + rest)[1..] == rest;
  }

  /** One successful continuation of a guarded call. */
  lemma GoOn(w: World, n: nat) returns (w': World)
    requires Guarded(w) && w.phase.Relinquishing? && n > 0
    ensures w' == Next(w, GO) && Guarded(w') && Play(w, Goes(n)) == Play(w', Goes(n - 1))
  {
    w' := Next(w, GO);
    StaysGuarded(w, GO);
    PlayFirst(w, GO, Goes(n - 1));
  }

  lemma RemovalCompletes(w: World)
    requires Guarded(w) && w.phase.Relinquishing? && w.phase.at.Recheck?
    ensures var w' := Play(w, Goes(5));
            w'.files == map[] && w'.checkpoint == Some(Checkpoint(Complete, w.phase.receipt)) && w'.phase.Idle?
  {
    if Readable(w.files).Some? {
      ReadableMeansAll(w.files);
    }
    var w1 := GoOn(w, 5);
    UnlinksComplete(w1);
  }

  lemma UnlinksComplete(w1: World)
    requires Guarded(w1) && w1.phase.Relinquishing? && w1.phase.at == Unlink(Marker)
    ensures var w' := Play(w1, Goes(4));
            w'.files == map[] && w'.checkpoint == Some(Checkpoint(Complete, w1.phase.receipt)) && w'.phase.Idle?
  {
    var w2 := GoOn(w1, 4);
    var w3 := GoOn(w2, 3);
    var w4 := GoOn(w3, 2);
    NoneLeft(w4.files);
    var w5 := GoOn(w4, 1);
  }

  lemma FencedCallCompletes(w: World, n: nat)
    requires Guarded(w) && w.phase.Relinquishing? && w.phase.at.WriteFenced?
    requires n == if w.phase.state.Stopped? then 6 else 8
    ensures var w' := Play(w, Goes(n));
            w'.files == map[] && w'.checkpoint == Some(Checkpoint(Complete, w.phase.receipt)) && w'.phase.Idle?
  {
    var w1 := GoOn(w, n);
    if n == 8 {
      var w2 := GoOn(w1, 7);
      var w3 := GoOn(w2, 6);
      RemovalCompletes(w3);
    } else {
      RemovalCompletes(w1);
    }
  }

  /** An interrupted retirement can always be replayed to the end. */
  lemma ReplayCompletes(steps: seq<Step>)
    requires var w := Play(FRESH, steps); Pending(w) && w.phase.Idle?
    ensures var c := Play(FRESH, steps).checkpoint.value;
            var w := Play(FRESH, steps + Replay(c.receipt, c.state));
            w.files == map[] && w.checkpoint == Some(Checkpoint(Complete, c.receipt)) && w.phase.Idle?
  {
    var w := Play(FRESH, steps);
    var c := w.checkpoint.value;
    var begin := BeginRelinquish(c.receipt, true, Ok);
    PlayKeepsInv(FRESH, steps);
    PlayAppend(FRESH, steps, Replay(c.receipt, c.state));
    if Readable(w.files).Some? {
      ReadableMeansAll(w.files);
    }
    StaysGuarded(w, begin);
    var n := if c.state.Stopped? then 6 else 8;
    PlayFirst(w, begin, Goes(n));
    FencedCallCompletes(Next(w, begin), n);
  }

  const LAUNCHED := [BeginLaunch] + ([PublishLocal(Token)] + ([PublishLocal(Metadata)] + ([PublishLocal(Marker)] + ([Finish] + []))))

  const REVOKED_EARLY := [BeginRelinquish(0, true, Ok)] + ([LauncherRevokes(Token)] + [])

  lemma LaunchedWorld()
    ensures Play(FRESH, LAUNCHED) == World(map[Token := Local(0), Metadata := Local(0), Marker := Local(0)], None, Idle, 1, [], false, true)
  {
    PlayFirst(FRESH, BeginLaunch, [PublishLocal(Token)] + ([PublishLocal(Metadata)] + ([PublishLocal(Marker)] + ([Finish] + []))));
    var w1 := Next(FRESH, BeginLaunch);
    PlayFirst(w1, PublishLocal(Token), [PublishLocal(Metadata)] + ([PublishLocal(Marker)] + ([Finish] + [])));
    var w2 := Next(w1, PublishLocal(Token));
    PlayFirst(w2, PublishLocal(Metadata), [PublishLocal(Marker)] + ([Finish] + []));
    var w3 := Next(w2, PublishLocal(Metadata));
    PlayFirst(w3, PublishLocal(Marker), [Finish] + []);
    var w4 := Next(w3, PublishLocal(Marker));
    PlayFirst(w4, Finish, []);
  }

  /** The launcher's own fence can take a file before the stop is durable. */
  lemma LauncherCanRevokeEarly()
    ensures var w := Play(FRESH, LAUNCHED + REVOKED_EARLY);
            Pending(w) && w.checkpoint.value.state.Fencing? && Token !in w.files
  {
    PlayAppend(FRESH, LAUNCHED, REVOKED_EARLY);
    LaunchedWorld();
    var w5 := Play(FRESH, LAUNCHED);
    assert Readable(w5.files) == Some(Local(0));
    PlayFirst(w5, BeginRelinquish(0, true, Ok), [LauncherRevokes(Token)] + []);
    var w6 := Next(w5, BeginRelinquish(0, true, Ok));
    PlayFirst(w6, LauncherRevokes(Token), []);
  }
}
