/**
  Who may change a designation, and to what: for each call the exact condition on the record and
  the call's own fields under which it writes, and over whole runs by whose word custody moves.
 */
module CustodyAuthority {
  import opened Wrappers
  import opened CustodyRecords
  import opened CustodyLineage

  predicate Unused(r: Record, id: string) {
    forall t | t in r.transitions :: t.id != id
  }

  /** The designated actor itself asks for the transfer. */
  predicate HandsOver(r: Record, call: Call) {
    call.Transfer? && call.dead.None? && call.actor.pinned == r.actor
  }

  /** The successor asks, with proof that the designated actor has exited. */
  predicate Recovers(r: Record, call: Call) {
    && call.Transfer? && call.dead.Some? && call.dead.value.pinned == r.actor && call.dead.value.exited
    && call.actor.pinned == call.next.pinned
  }

  /** The process observed is the one the target names. */
  predicate Observed(target: Target, who: Option<Identity>) {
    !target.Admission? && who == Some(Identity(target.who.pid, target.who.uid, target.who.birth))
  }

  lemma UnusedIffNoMatch(r: Record, id: string)
    ensures Unused(r, id) <==> Matches(r.transitions, id) == []
  {
    NoMatches(r.transitions, id);
  }

  // -- when each call writes, and what

  lemma DesignationWritesIff(root: string, role: string, file: Option<Record>, call: Call)
    requires call.DesignatePending? || call.ReserveBeforeSpawn?
    ensures var o := OutcomeOf(root, role, file, call);
      && (o.Write? <==>
            && file.None? && Text(call.ownerEpoch) && call.actor.verified
            && (if call.DesignatePending? then call.who.Some? else call.admissionId != ""))
      && (o.Write? ==>
            && o.reply == Done
            && o.record == Record(role, 1, call.ownerEpoch, Pending, call.actor.pinned,
                                  if call.DesignatePending? then Pinned(call.who.value) else Admission(call.admissionId), []))
  {
  }

  lemma BindPendingWritesIff(root: string, role: string, file: Option<Record>, call: Call)
    requires call.BindPending?
    ensures var o := OutcomeOf(root, role, file, call);
      && (o.Write? <==>
            && file.Some? && Readable(role, file.value) && file.value.generation == 1 && file.value.state == Pending
            && file.value.target == Admission(call.admissionId)
            && call.actor.verified && call.actor.pinned == file.value.actor && call.who.Some?)
      && (o.Write? ==> o.reply == Done && o.record == file.value.(target := Pinned(call.who.value)))
  {
  }

  lemma BindTargetWritesIff(root: string, role: string, file: Option<Record>, call: Call)
    requires call.BindTarget?
    ensures var o := OutcomeOf(root, role, file, call);
      && (o.Write? <==>
            && file.Some? && Readable(role, file.value) && file.value.generation == call.generation
            && call.actor.verified && call.actor.pinned == file.value.actor
            && call.who.Some? && call.tokenValid
            && Observed(file.value.target, Some(Identity(call.who.value.pid, call.who.value.uid, call.who.value.birth))))
      && (o.Write? ==>
            && o.record == file.value.(state := Active, target := Bound(call.who.value, call.words))
            && o.reply == Referenced(ReferenceTo(root, o.record)))
  {
  }

  /** A transfer writes exactly for the designated actor, or for a successor that can prove it gone. */
  lemma TransferWritesIff(root: string, role: string, file: Option<Record>, call: Call)
    requires call.Transfer?
    ensures var o := OutcomeOf(root, role, file, call);
      && (o.Write? <==>
            && file.Some? && Readable(role, file.value) && file.value.generation == call.generation && file.value.state == Active
            && Text(call.id) && Text(call.ownerEpoch) && Unused(file.value, call.id)
            && call.actor.verified && call.next.verified
            && (HandsOver(file.value, call) || Recovers(file.value, call)))
      && (o.Write? ==>
            var r := file.value;
            && o.reply == Acked(Ack(DESIGNATION_VERSION, call.id, role, r.generation + 1, call.ownerEpoch, call.next.pinned,
                                    Visible(r.target), None))
            && o.record == Record(role, r.generation + 1, call.ownerEpoch, Active, call.next.pinned, r.target,
                                  r.transitions + [Transition(call.id, IntentOf(call), o.reply.ack)]))
  {
    if file.Some? {
      UnusedIffNoMatch(file.value, call.id);
    }
  }

  lemma RelinquishWritesIff(root: string, role: string, file: Option<Record>, call: Call)
    requires call.Relinquish?
    ensures var o := OutcomeOf(root, role, file, call);
      && (o.Write? <==>
            && role == RUNTIME_OWNER
            && file.Some? && Readable(role, file.value) && file.value.generation == call.generation && file.value.state == Active
            && file.value.target.Bound? && file.value.ownerEpoch == call.ownerEpoch
            && Text(call.id) && Text(call.ownerEpoch) && Unused(file.value, call.id)
            && call.actor.verified && call.actor.reverified && call.actor.pinned == file.value.actor)
      && (o.Write? ==>
            var r := file.value;
            && o.reply == Acked(Ack(DESIGNATION_VERSION, call.id, role, r.generation + 1, r.ownerEpoch, r.actor,
                                    Visible(r.target), Some(Relinquished)))
            && o.record == Record(role, r.generation + 1, r.ownerEpoch, Relinquished, r.actor, r.target,
                                  r.transitions + [Transition(call.id, IntentOf(call), o.reply.ack)]))
  {
    if file.Some? {
      UnusedIffNoMatch(file.value, call.id);
    }
  }

  lemma ClaimWritesIff(root: string, role: string, file: Option<Record>, call: Call)
    requires call.Claim?
    ensures var o := OutcomeOf(root, role, file, call);
      && (o.Write? <==>
            && role == RUNTIME_OWNER
            && file.Some? && Readable(role, file.value) && file.value.generation == call.generation
            && file.value.state == Relinquished && Continuity(root, role, file.value, call.sealed, call.ownerEpoch)
            && Text(call.id) && Text(call.ownerEpoch) && Unused(file.value, call.id)
            && call.actor.verified && call.actor.pinned.uid == file.value.target.who.uid
            && Observed(file.value.target, call.observed))
      && (o.Write? ==>
            var r := file.value;
            && o.reply == Acked(Ack(DESIGNATION_VERSION, call.id, role, r.generation + 1, r.ownerEpoch, call.actor.pinned,
                                    Visible(r.target), Some(Active)))
            && o.record == Record(role, r.generation + 1, r.ownerEpoch, Active, call.actor.pinned, r.target,
                                  r.transitions + [Transition(call.id, IntentOf(call), o.reply.ack)]))
  {
    if file.Some? {
      UnusedIffNoMatch(file.value, call.id);
    }
  }

  // -- whole runs

  /** The new actor came by the earlier one's word, by proof of its exit, or by a claim of what it had given up. */
  predicate ActorMoves(before: Record, call: Call, after: Record) {
    || (HandsOver(before, call) && call.actor.verified && after.actor == call.next.pinned)
    || (Recovers(before, call) && call.actor.verified && after.actor == call.actor.pinned)
    || (call.Claim? && before.state == Relinquished && call.actor.verified && after.actor == call.actor.pinned)
  }

  predicate StateMoves(before: Record, call: Call, after: Record) {
    || (call.BindTarget? && call.actor.pinned == before.actor && after.state == Active)
    || (call.Relinquish? && call.actor.pinned == before.actor && before.state == Active && after.state == Relinquished)
    || (call.Claim? && before.state == Relinquished && after.state == Active)
  }

  /** Everything a committed write changed was changed by a call that may change it. */
  predicate Sanctioned(before: Option<Record>, call: Call, after: Record) {
    match before
    case None =>
      && LaunchCall(call) && call.actor.verified && after.actor == call.actor.pinned
      && after.generation == 1 && after.state == Pending && after.transitions == []
    case Some(r) =>
      && (after.actor != r.actor ==> ActorMoves(r, call, after))
      && (after.state != r.state ==> StateMoves(r, call, after))
      && (after.target != r.target ==> LaunchCall(call) && call.actor.verified && call.actor.pinned == r.actor)
      && (after.ownerEpoch != r.ownerEpoch ==> call.Transfer? && after.ownerEpoch == call.ownerEpoch)
      && after.generation == r.generation + (if TransitionCall(call) then 1 else 0)
      && |after.transitions| == |r.transitions| + (if TransitionCall(call) then 1 else 0)
      && after.role == r.role && r.transitions <= after.transitions
  }

  lemma WriteIsSanctioned(root: string, role: string, file: Option<Record>, call: Call)
    requires OutcomeOf(root, role, file, call).Write?
    ensures Sanctioned(file, call, OutcomeOf(root, role, file, call).record)
  {
    match call
    case DesignatePending(_, _, _) => DesignationWritesIff(root, role, file, call);
    case ReserveBeforeSpawn(_, _, _) => DesignationWritesIff(root, role, file, call);
    case BindPending(_, _, _) => BindPendingWritesIff(root, role, file, call);
    case BindTarget(_, _, _, _, _) => BindTargetWritesIff(root, role, file, call);
    case Transfer(_, _, _, _, _, _) => TransferWritesIff(root, role, file, call);
    case Relinquish(_, _, _, _) => RelinquishWritesIff(root, role, file, call);
    case Claim(_, _, _, _, _, _) => ClaimWritesIff(root, role, file, call);
  }

  /** Every step of every run, with any fate of its write, leaves the record or changes it by a call that may. */
  lemma EveryStepIsSanctioned(root: string, role: string, file: Option<Record>, attempts: seq<Attempt>, i: nat)
    requires i < |attempts|
    ensures var before := Run(root, role, file, attempts[..i]);
      var after := Run(root, role, file, attempts[..i + 1]);
      after == before || (after.Some? && Sanctioned(before, attempts[i].call, after.value))
  {
    var before := Run(root, role, file, attempts[..i]);
    assert attempts[..i + 1] == attempts[..i] + [attempts[i]];
    RunAppend(root, role, file, attempts[..i], [attempts[i]]);
    if OutcomeOf(root, role, before, attempts[i].call).Write? {
      WriteIsSanctioned(root, role, before, attempts[i].call);
    }
  }

  /** A call by which this actor gives custody up, or is shown to be gone. */
  predicate GivesUp(who: Incarnation, call: Call) {
    || (call.Transfer? && call.dead.None? && call.actor.pinned == who)
    || (call.Transfer? && call.dead.Some? && call.dead.value.pinned == who && call.dead.value.exited)
    || (call.Relinquish? && call.actor.pinned == who)
  }

  /**
    Custody is never taken: in every run of any calls by anyone, an actor that neither transfers nor
    relinquishes, and is not proved to have exited, stays designated at its generation.
   */
  lemma {:induction false} CustodyIsNeverTaken(root: string, role: string, r: Record, attempts: seq<Attempt>)
    requires r.state != Relinquished && forall a | a in attempts :: !GivesUp(r.actor, a.call)
    ensures var end := Run(root, role, Some(r), attempts);
      && end.Some? && end.value.actor == r.actor && end.value.generation == r.generation
      && end.value.ownerEpoch == r.ownerEpoch && end.value.transitions == r.transitions && end.value.state != Relinquished
    decreases |attempts|
  {
    if attempts != [] {
      var o := OutcomeOf(root, role, Some(r), attempts[0].call);
      if o.Write? {
        WriteIsSanctioned(root, role, Some(r), attempts[0].call);
        OnlyLaunchCallsWrite(root, role, r, attempts[0].call);
      }
      CustodyIsNeverTaken(root, role, After(root, role, Some(r), attempts[0]).value, attempts[1..]);
    }
  }

  lemma OnlyLaunchCallsWrite(root: string, role: string, r: Record, call: Call)
    requires r.state != Relinquished && !GivesUp(r.actor, call) && OutcomeOf(root, role, Some(r), call).Write?
    ensures LaunchCall(call)
  {
    match call
    case Transfer(_, _, _, _, _, _) => TransferWritesIff(root, role, Some(r), call);
    case Relinquish(_, _, _, _) => RelinquishWritesIff(root, role, Some(r), call);
    case Claim(_, _, _, _, _, _) => ClaimWritesIff(root, role, Some(r), call);
    case _ =>
  }
}
