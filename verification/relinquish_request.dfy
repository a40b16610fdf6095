/**
  One relinquish request as the daemon runs it: a dictionary `checkpoint` that is changed and
  rewritten stage by stage, three credential files removed one after the other, and an exit
  wherever a check or a write fails. What the call does to the files is a run of the step
  machine, so everything that holds of all runs holds of it.
 */
module RelinquishRequest {
  import opened Wrappers
  import opened WorkerRelinquish

  /** What the surroundings answer, in the order the call asks. */
  datatype Surroundings = Surroundings(
    admitted: bool, opening: Luck, cleared: bool, fencing: Luck, sameBytes: bool, handled: bool, stopAttested: bool, stopping: Luck, idle: bool,
    marker: Luck, metadata: Luck, token: Luck, completing: Luck,
    meanwhile: nat -> seq<Aside>)             // what the launcher's own threads do in each gap

  /** The launcher's threads hold no actor lock: its fence and its handoffs come in between. */
  datatype Aside = Revokes(file: File) | Enables

  function StepOf(a: Aside): Step {
    match a case Revokes(f) => LauncherRevokes(f) case Enables => HandoffEnables
  }

  function StepsOf(asides: seq<Aside>): seq<Step> {
    if asides == [] then [] else [StepOf(asides[0])] + StepsOf(asides[1..])
  }

  datatype Answer = Relinquished | Refused

  lemma PlayLast(w: World, steps: seq<Step>, s: Step)
    requires Enabled(Play(w, steps), s)
    ensures Play(w, steps + [s]) == Next(Play(w, steps), s)
  {
    PlayAppend(w, steps, [s]);
    assert [s] == [s] + [];
    PlayFirst(Play(w, steps), s, []);
  }

  /** Every file of the first is in the second, as it is there. */
  predicate Among(files: map<File, Credential>, others: map<File, Credential>) {
    forall f | f in files :: f in others && files[f] == others[f]
  }

  /** The request is taken up: the pending one if it is this one's, or a new one for the generation in force. */
  predicate TakesUp(w: World, receipt: nat, env: Surroundings) {
    && env.admitted
    && if Pending(w) then w.checkpoint.value.receipt == receipt
       else Readable(w.files) == Some(Local(receipt)) && env.opening == Ok
  }

  /** The removal goes through to its receipt. */
  predicate Removes(env: Surroundings) {
    env.idle && env.marker == Ok && env.metadata == Ok && env.token == Ok && env.completing == Ok
  }

  /** Everything after the request was taken up goes well; a stop recorded before is not asked for again. */
  predicate RunsThrough(stopped: bool, env: Surroundings) {
    && env.cleared && env.fencing == Ok && env.sameBytes
    && (stopped || (env.handled && env.stopAttested && env.stopping == Ok))
    && Removes(env)
  }

  class RuntimeDaemon {
    var files: map<File, Credential>
    var checkpoint: Option<Checkpoint>
    var disabled: bool
    var launcher: bool
    ghost var phase: Phase
    ghost var next: nat
    ghost var log: seq<Event>

    ghost function Here(): World
      reads this
    {
      World(files, checkpoint, phase, next, log, disabled, launcher)
    }

    /** The launcher's threads get their turn; the call is where it was. */
    method Meanwhile(asides: seq<Aside>)
      modifies this`files, this`disabled, this`log
      ensures Here() == Play(old(Here()), StepsOf(asides)) && Among(files, old(files))
    {
      var i := 0;
      assert asides[0..] == asides;
      while i < |asides|
        invariant 0 <= i <= |asides| && phase == old(phase) && next == old(next) && checkpoint == old(checkpoint)
        invariant Among(files, old(files))
        invariant Play(Here(), StepsOf(asides[i..])) == Play(old(Here()), StepsOf(asides))
      {
        assert asides[i..][1..] == asides[i + 1..];
        match asides[i] {
          case Revokes(f) =>
            if launcher && f in files {
              log := log + [Removed(Launcher, f, files[f], checkpoint)];
              files, disabled := files - {f}, true;
            }
          case Enables =>
            if launcher && Readable(files).Some? {
              disabled := false;
            }
        }
        i := i + 1;
      }
    }

    /** Write the checkpoint file; a write may raise before or after it took effect. */
    method WriteCheckpoint(receipt: nat, state: State, luck: Luck) returns (ok: bool)
      modifies this`checkpoint, this`log
      ensures ok == (luck == Ok) && Here() == Checkpointed(old(Here()), receipt, state, luck)
    {
      if luck != Raise {
        checkpoint := Some(Checkpoint(state, receipt));
        log := log + [Wrote(receipt, state)];
      }
      return luck == Ok;
    }

    /** Take up the pending request for this receipt, or open one for the readable generation. */
    method Open(receipt: nat, env: Surroundings) returns (answer: Option<Answer>, state: State)
      requires phase.Idle?
      modifies this
      ensures Here() == Next(old(Here()), BeginRelinquish(receipt, env.admitted, env.opening))
      ensures answer.None? ==> phase == Relinquishing(receipt, state, WriteFenced)
      ensures answer.Some? ==> phase.Idle?
      ensures answer == Some(Relinquished) ==> checkpoint == Some(Checkpoint(Complete, receipt))
      ensures Guarded(old(Here())) ==> (answer.None? <==> TakesUp(old(Here()), receipt, env))
      ensures answer == Some(Relinquished) <==>
        !Pending(old(Here())) && Readable(files) != Some(Local(receipt)) && old(checkpoint) == Some(Checkpoint(Complete, receipt))
      ensures answer.None? ==> state == if Pending(old(Here())) then old(checkpoint).value.state else Fencing
      ensures answer.None? && Guarded(old(Here())) ==> Unchanged(files, receipt)
    {
      state := Fencing;
      var seen := Readable(files);
      if seen.Some? {
        ReadableMeansAll(files);
      }
      if checkpoint.Some? && !checkpoint.value.state.Complete? {
        var saved := checkpoint.value;
        if saved.receipt != receipt { return Some(Refused), state; }
        if seen.Some? && seen.value != Local(receipt) { return Some(Refused), state; }
        if !env.admitted { return Some(Refused), state; }
        state := saved.state;
      } else {
        if seen != Some(Local(receipt)) {
          return Some(if checkpoint == Some(Checkpoint(Complete, receipt)) then Relinquished else Refused), state;
        }
        if !env.admitted { return Some(Refused), state; }
        var ok := WriteCheckpoint(receipt, Fencing, env.opening);
        if !ok { return Some(Refused), state; }
      }
      phase := Relinquishing(receipt, state, WriteFenced);
      answer := None;
    }

    /** An exception between two effects ends the call where it stands. */
    method Abandon()
      requires phase.Relinquishing?
      modifies this`phase
      ensures Here() == Next(old(Here()), Finish) && phase.Idle?
    {
      phase := Idle;
    }

    /** Disable the bearer, record the fence, and see that the files are the captured ones. */
    method Fence(receipt: nat, before: State, env: Surroundings) returns (ok: bool, state: State)
      requires phase == Relinquishing(receipt, before, WriteFenced)
      modifies this
      ensures Here() == Next(old(Here()), Continue(env.sameBytes, env.fencing))
      ensures state == (if before.Fencing? then Fenced else before)
      ensures if ok then phase == Relinquishing(receipt, state, AfterFence(state)) else phase.Idle?
      ensures ok <==> env.fencing == Ok && env.sameBytes && Unchanged(files, receipt)
    {
      disabled := true;
      state := if before.Fencing? then Fenced else before;
      ok := WriteCheckpoint(receipt, state, env.fencing);
      if ok {
        ok := env.sameBytes && Unchanged(files, receipt);
      }
      phase := if ok then Relinquishing(receipt, state, AfterFence(state)) else Idle;
    }

    /** Ask the preparer for the exact stop; it may wait, and it attests or does not. */
    method AskToStop(receipt: nat, state: State, env: Surroundings)
      requires phase == Relinquishing(receipt, state, StopProcesses)
      modifies this`phase
      ensures Here() == Next(old(Here()), Continue(env.stopAttested, Ok))
      ensures phase == Relinquishing(receipt, state, if env.stopAttested then WriteStopped else WriteUnknown)
    {
      phase := Relinquishing(receipt, state, if env.stopAttested then WriteStopped else WriteUnknown);
    }

    /** Record what is known of the stop. */
    method RecordStop(receipt: nat, state: State, env: Surroundings) returns (ok: bool)
      requires phase == Relinquishing(receipt, state, if env.stopAttested then WriteStopped else WriteUnknown)
      modifies this
      ensures Here() == Next(old(Here()), Continue(true, env.stopping))
      ensures if ok then phase == Relinquishing(receipt, Stopped, Recheck) else phase.Idle?
      ensures ok <==> env.stopAttested && env.stopping == Ok
    {
      ok := WriteCheckpoint(receipt, if env.stopAttested then Stopped else StopUnknown, env.stopping);
      ok := ok && env.stopAttested;
      phase := if ok then Relinquishing(receipt, Stopped, Recheck) else Idle;
    }

    /** Stop the generation's processes and record what is known of it. */
    method Stop(receipt: nat, state: State, env: Surroundings) returns (ok: bool, ghost steps: seq<Step>)
      requires phase == Relinquishing(receipt, state, StopProcesses)
      modifies this
      ensures Here() == Play(old(Here()), steps)
      ensures if ok then phase == Relinquishing(receipt, Stopped, Recheck) else phase.Idle?
      ensures (ok <==> env.stopAttested && env.stopping == Ok) && Among(files, old(files))
    {
      AskToStop(receipt, state, env);
      PlayLast(old(Here()), [], Continue(env.stopAttested, Ok));
      steps := [] + [Continue(env.stopAttested, Ok)];
      Meanwhile(env.meanwhile(2));
      PlayAppend(old(Here()), steps, StepsOf(env.meanwhile(2)));
      steps := steps + StepsOf(env.meanwhile(2));
      ok := RecordStop(receipt, state, env);
      PlayLast(old(Here()), steps, Continue(true, env.stopping));
      steps := steps + [Continue(true, env.stopping)];
    }

    method RecheckFiles(receipt: nat, env: Surroundings) returns (ok: bool)
      requires phase == Relinquishing(receipt, Stopped, Recheck)
      modifies this`phase
      ensures Here() == Next(old(Here()), Continue(env.idle, Ok))
      ensures if ok then phase == Relinquishing(receipt, Stopped, Unlink(Marker)) else phase.Idle?
      ensures Unchanged(files, receipt) ==> (ok <==> env.idle)
    {
      var current := Readable(files);
      ok := (current.None? || current.value == Local(receipt)) && Unchanged(files, receipt) && env.idle;
      phase := if ok then Relinquishing(receipt, Stopped, Unlink(Marker)) else Idle;
    }

    /** Remove one file, which may be gone already. */
    method UnlinkFile(receipt: nat, f: File, after: Point, luck: Luck) returns (ok: bool)
      requires phase == Relinquishing(receipt, Stopped, Unlink(f))
      requires after == match f case Marker => Unlink(Metadata) case Metadata => Unlink(Token) case Token => WriteComplete
      modifies this
      ensures Here() == Next(old(Here()), Continue(true, luck)) && ok == (luck == Ok)
      ensures if ok then phase == Relinquishing(receipt, Stopped, after) else phase.Idle?
    {
      if luck != Raise && f in files {
        log := log + [Removed(RelinquishCall, f, files[f], checkpoint)];
        files := files - {f};
      }
      disabled := true;
      ok := luck == Ok;
      phase := if ok then Relinquishing(receipt, Stopped, after) else Idle;
    }

    /** Remove marker, metadata and token, in that order. */
    method RevokeFiles(receipt: nat, env: Surroundings) returns (ok: bool, ghost steps: seq<Step>)
      requires phase == Relinquishing(receipt, Stopped, Unlink(Marker))
      modifies this
      ensures Here() == Play(old(Here()), steps)
      ensures if ok then phase == Relinquishing(receipt, Stopped, WriteComplete) else phase.Idle?
      ensures ok <==> env.marker == Ok && env.metadata == Ok && env.token == Ok
    {
      ok := UnlinkFile(receipt, Marker, Unlink(Metadata), env.marker);
      PlayLast(old(Here()), [], Continue(true, env.marker));
      steps := [] + [Continue(true, env.marker)];
      if !ok { return; }
      Meanwhile(env.meanwhile(4));
      PlayAppend(old(Here()), steps, StepsOf(env.meanwhile(4)));
      steps := steps + StepsOf(env.meanwhile(4));
      ok := UnlinkFile(receipt, Metadata, Unlink(Token), env.metadata);
      PlayLast(old(Here()), steps, Continue(true, env.metadata));
      steps := steps + [Continue(true, env.metadata)];
      if !ok { return; }
      Meanwhile(env.meanwhile(5));
      PlayAppend(old(Here()), steps, StepsOf(env.meanwhile(5)));
      steps := steps + StepsOf(env.meanwhile(5));
      ok := UnlinkFile(receipt, Token, WriteComplete, env.token);
      PlayLast(old(Here()), steps, Continue(true, env.token));
      steps := steps + [Continue(true, env.token)];
    }

    method RecordCompletion(receipt: nat, env: Surroundings) returns (ok: bool)
      requires phase == Relinquishing(receipt, Stopped, WriteComplete)
      modifies this
      ensures Here() == Next(old(Here()), Continue(true, env.completing)) && phase.Idle?
      ensures ok ==> checkpoint == Some(Checkpoint(Complete, receipt))
      ensures ok == (env.completing == Ok)
    {
      ok := WriteCheckpoint(receipt, Complete, env.completing);
      if ok {
        launcher := false;
      }
      phase := Idle;
    }

    /** Look at the files again, remove them, and record the completion. */
    method RemoveFiles(receipt: nat, env: Surroundings) returns (ok: bool, ghost steps: seq<Step>)
      requires phase == Relinquishing(receipt, Stopped, Recheck)
      modifies this
      ensures Here() == Play(old(Here()), steps) && phase.Idle?
      ensures ok ==> checkpoint == Some(Checkpoint(Complete, receipt))
      ensures Unchanged(old(files), receipt) ==> (ok <==> Removes(env))
    {
      ok := RecheckFiles(receipt, env);
      PlayLast(old(Here()), [], Continue(env.idle, Ok));
      steps := [] + [Continue(env.idle, Ok)];
      if !ok { return; }
      Meanwhile(env.meanwhile(3));
      PlayAppend(old(Here()), steps, StepsOf(env.meanwhile(3)));
      steps := steps + StepsOf(env.meanwhile(3));
      ghost var more;
      ok, more := RevokeFiles(receipt, env);
      PlayAppend(old(Here()), steps, more);
      steps := steps + more;
      if !ok { return; }
      Meanwhile(env.meanwhile(6));
      PlayAppend(old(Here()), steps, StepsOf(env.meanwhile(6)));
      steps := steps + StepsOf(env.meanwhile(6));
      ok := RecordCompletion(receipt, env);
      PlayLast(old(Here()), steps, Continue(true, env.completing));
      steps := steps + [Continue(true, env.completing)];
    }

    /** Fence, stop and remove, from a request that was taken up. */
    method Retire(receipt: nat, before: State, env: Surroundings) returns (ok: bool, ghost steps: seq<Step>)
      requires phase == Relinquishing(receipt, before, WriteFenced)
      modifies this
      ensures Here() == Play(old(Here()), steps) && phase.Idle?
      ensures ok ==> checkpoint == Some(Checkpoint(Complete, receipt))
      ensures Unchanged(old(files), receipt) ==> (ok <==> RunsThrough(before.Stopped?, env))
    {
      if !env.cleared {
        Abandon();
        PlayLast(old(Here()), [], Finish);
        return false, [] + [Finish];
      }
      var state;
      ok, state := Fence(receipt, before, env);
      PlayLast(old(Here()), [], Continue(env.sameBytes, env.fencing));
      steps := [] + [Continue(env.sameBytes, env.fencing)];
      if !ok { return; }
      Meanwhile(env.meanwhile(1));
      PlayAppend(old(Here()), steps, StepsOf(env.meanwhile(1)));
      steps := steps + StepsOf(env.meanwhile(1));
      if state != Stopped {
        if !env.handled {
          Abandon();
          PlayLast(old(Here()), steps, Finish);
          return false, steps + [Finish];
        }
        ghost var more;
        ok, more := Stop(receipt, state, env);
        PlayAppend(old(Here()), steps, more);
        steps := steps + more;
        if !ok { return; }
      }
      Meanwhile(env.meanwhile(7));
      PlayAppend(old(Here()), steps, StepsOf(env.meanwhile(7)));
      steps := steps + StepsOf(env.meanwhile(7));
      ghost var rest;
      ok, rest := RemoveFiles(receipt, env);
      PlayAppend(old(Here()), steps, rest);
      steps := steps + rest;
    }

    /**
      The whole request. It is a run of the step machine whatever the surroundings answer, and
      "relinquished" means that the generation's retirement is complete and its credential gone. It is
      answered exactly when the retirement had completed before, or the request is taken up and every
      check and write of it goes well, whatever the launcher does in the gaps.
     */
    method RelinquishLocalWorker(receipt: nat, env: Surroundings) returns (answer: Answer, ghost steps: seq<Step>)
      requires Inv(Here()) && phase.Idle?
      modifies this
      ensures Here() == Play(old(Here()), steps) && Inv(Here()) && phase.Idle?
      ensures answer == Relinquished ==>
                checkpoint == Some(Checkpoint(Complete, receipt)) && forall f | f in files :: files[f] != Local(receipt)
      ensures answer == Relinquished <==>
        || (TakesUp(old(Here()), receipt, env)
            && RunsThrough(Pending(old(Here())) && old(checkpoint).value.state.Stopped?, env))
        || (!Pending(old(Here())) && Readable(old(files)) != Some(Local(receipt)) && old(checkpoint) == Some(Checkpoint(Complete, receipt)))
    {
      var taken, state := Open(receipt, env);
      PlayLast(old(Here()), [], BeginRelinquish(receipt, env.admitted, env.opening));
      steps := [] + [BeginRelinquish(receipt, env.admitted, env.opening)];
      if taken.Some? {
        answer := taken.value;
      } else {
        Meanwhile(env.meanwhile(0));
        PlayAppend(old(Here()), steps, StepsOf(env.meanwhile(0)));
        steps := steps + StepsOf(env.meanwhile(0));
        ghost var rest;
        var ok;
        ok, rest := Retire(receipt, state, env);
        PlayAppend(old(Here()), steps, rest);
        steps := steps + rest;
        answer := if ok then Relinquished else Refused;
      }
      PlayKeepsInv(old(Here()), steps);
      if answer == Relinquished {
        assert Wrote(receipt, Complete) in log;
        assert Dead(Here(), receipt);
      }
    }
  }
}
