/**
  Whole runs of custody calls: which records the lineage checker accepts, and what a
  repeated transition id answers after any later history.
 */
module CustodyLineage {
  import opened Wrappers
  import opened CustodyRecords

  /** One call under the exclusive guard and the fate of its durable write. */
  datatype Attempt = Attempt(call: Call, fate: Fate)

  function After(root: string, role: string, file: Option<Record>, a: Attempt): Option<Record> {
    Stored(file, OutcomeOf(root, role, file, a.call), a.fate)
  }

  function Run(root: string, role: string, file: Option<Record>, attempts: seq<Attempt>): Option<Record>
    decreases |attempts|
  {
    if attempts == [] then file else Run(root, role, After(root, role, file, attempts[0]), attempts[1..])
  }

  predicate LaunchCall(c: Call) {
    c.DesignatePending? || c.ReserveBeforeSpawn? || c.BindPending? || c.BindTarget?
  }

  predicate RuntimeCall(c: Call) {
    c.Relinquish? || c.Claim?
  }

  /** A call that appends to the history, identified by its transition id. */
  predicate TransitionCall(c: Call) {
    RuntimeCall(c) || c.Transfer?
  }

  function IntentOf(c: Call): Intent
    requires TransitionCall(c)
  {
    match c
    case Transfer(actor, next, generation, id, epoch, _) =>
      TransferIntent(id, generation, actor.pinned, next.pinned, epoch)
    case Relinquish(actor, generation, id, epoch) => RelinquishIntent(id, generation, actor.pinned, epoch)
    case Claim(actor, generation, id, sealed, epoch, _) =>
      ClaimIntent(id, generation, actor.pinned, epoch, actor.pinned, sealed)
  }

  lemma {:induction false} RunAppend(root: string, role: string, file: Option<Record>, a: seq<Attempt>, b: seq<Attempt>)
    ensures Run(root, role, file, a + b) == Run(root, role, Run(root, role, file, a), b)
    decreases |a|
  {
    if a == [] {
      assert a + b == b;
    } else {
      assert (a + b)[1..] == a[1..] + b;
      RunAppend(root, role, After(root, role, file, a[0]), a[1..], b);
    }
  }

  lemma {:induction false} NoMatches(ts: seq<Transition>, id: string)
    ensures Matches(ts, id) == [] <==> forall i | 0 <= i < |ts| :: ts[i].id != id
  {
    if ts != [] {
      NoMatches(ts[1..], id);
      assert forall i | 1 <= i < |ts| :: ts[i] == ts[1..][i - 1];
    }
  }

  lemma {:induction false} OneMatch(ts: seq<Transition>, k: nat)
    requires DistinctIds(ts) && k < |ts|
    ensures Matches(ts, ts[k].id) == [ts[k]]
  {
    if k == 0 {
      NoMatches(ts[1..], ts[0].id);
    } else {
      OneMatch(ts[1..], k - 1);
    }
  }

  // -- what every transition call keeps

  /** `later` extends the history of `earlier` and keeps its target and distinct ids. */
  predicate Extends(role: string, earlier: Record, later: Record) {
    && earlier.transitions <= later.transitions
    && later.target == earlier.target
    && DistinctIds(later.transitions)
    && earlier.generation <= later.generation
    && (Readable(role, earlier) ==> Readable(role, later))
  }

  /** A transition call that writes appends one entry, for its own id and intent. */
  lemma TransitionCallAppends(root: string, role: string, file: Option<Record>, call: Call)
    requires TransitionCall(call) && OutcomeOf(root, role, file, call).Write?
    ensures var o := OutcomeOf(root, role, file, call);
      && file.Some? && o.reply.Acked? && Matches(file.value.transitions, call.id) == []
      && o.record.transitions == file.value.transitions + [Transition(call.id, IntentOf(call), o.reply.ack)]
  {
  }

  lemma LaunchCallKeepsHistory(root: string, role: string, file: Option<Record>, call: Call)
    requires LaunchCall(call) && OutcomeOf(root, role, file, call).Write?
    ensures OutcomeOf(root, role, file, call).record.transitions == if file.Some? then file.value.transitions else []
  {
  }

  lemma TransitionCallExtends(root: string, role: string, r: Record, a: Attempt)
    requires DistinctIds(r.transitions) && TransitionCall(a.call)
    ensures After(root, role, Some(r), a).Some? && Extends(role, r, After(root, role, Some(r), a).value)
  {
    if OutcomeOf(root, role, Some(r), a.call).Write? {
      TransitionCallAppends(root, role, Some(r), a.call);
      NoMatches(r.transitions, a.call.id);
    }
  }

  lemma {:induction false} TransitionRunExtends(root: string, role: string, r: Record, attempts: seq<Attempt>)
    requires DistinctIds(r.transitions) && forall a | a in attempts :: TransitionCall(a.call)
    ensures Run(root, role, Some(r), attempts).Some? && Extends(role, r, Run(root, role, Some(r), attempts).value)
    decreases |attempts|
  {
    if attempts != [] {
      TransitionCallExtends(root, role, r, attempts[0]);
      TransitionRunExtends(root, role, After(root, role, Some(r), attempts[0]).value, attempts[1..]);
    }
  }

  /** No run of any calls, from no designation at all, ever repeats a transition id. */
  lemma {:induction false} EveryRunKeepsDistinctIds(root: string, role: string, file: Option<Record>, attempts: seq<Attempt>)
    requires file.Some? ==> DistinctIds(file.value.transitions)
    ensures var end := Run(root, role, file, attempts); end.Some? ==> DistinctIds(end.value.transitions)
    decreases |attempts|
  {
    if attempts != [] {
      if file.Some? && TransitionCall(attempts[0].call) {
        TransitionCallExtends(root, role, file.value, attempts[0]);
      }
      EveryRunKeepsDistinctIds(root, role, After(root, role, file, attempts[0]), attempts[1..]);
    }
  }

  // -- replay

  /** The actors of a call verify; what else it observes is left open. */
  predicate Verifies(c: Call)
    requires TransitionCall(c)
  {
    c.actor.verified && (c.Transfer? ==> c.next.verified)
  }

  /**
    Repeating a committed transfer or relinquish, with the same id and intent and whatever the
    surroundings answer this time (an exit proof, a second verification), gives the first
    acknowledgement and writes nothing, whatever transitions committed since; the write of the
    first call may even have lost its acknowledgement. Only an actor that fails to verify is refused.
   */
  lemma ReplayIsStable(root: string, role: string, before: Option<Record>, call: Call, again: Call, ack: Ack, committed: Record,
                       later: seq<Attempt>)
    requires before.Some? ==> DistinctIds(before.value.transitions)
    requires call.Transfer? || call.Relinquish?
    requires TransitionCall(again) && IntentOf(again) == IntentOf(call)
    requires OutcomeOf(root, role, before, call) == Write(Acked(ack), committed)
    requires forall a | a in later :: TransitionCall(a.call)
    ensures OutcomeOf(root, role, Run(root, role, Some(committed), later), again)
         == NoWrite(if Verifies(again) then Acked(ack) else Refused(ActorUnavailable))
  {
    TransitionCallExtends(root, role, before.value, Attempt(call, Committed));
    TransitionRunExtends(root, role, committed, later);
    var end := Run(root, role, Some(committed), later).value;
    OneMatch(end.transitions, |committed.transitions| - 1);
  }

  /** Some entry is a generic transfer. */
  predicate Transferred(h: seq<Transition>) {
    exists k :: 0 <= k < |h| && h[k].intent.TransferIntent?
  }

  lemma TransferredStays(h: seq<Transition>, h': seq<Transition>)
    requires Transferred(h) && h <= h'
    ensures Transferred(h')
  {
    var k :| 0 <= k < |h| && h[k].intent.TransferIntent?;
    assert h'[k] == h[k];
  }

  /** A lineage that is valid stays so under every transition call, or a transfer is in the history. */
  lemma CallKeepsLineageOrTransfers(root: string, r: Record, sealed: Reference, epoch: string, a: Attempt)
    requires DistinctIds(r.transitions) && TransitionCall(a.call)
    requires Continuity(root, RUNTIME_OWNER, r, sealed, epoch) || Transferred(r.transitions)
    ensures var next := After(root, RUNTIME_OWNER, Some(r), a);
      next.Some? && (Continuity(root, RUNTIME_OWNER, next.value, sealed, epoch) || Transferred(next.value.transitions))
  {
    TransitionCallExtends(root, RUNTIME_OWNER, r, a);
    var next := After(root, RUNTIME_OWNER, Some(r), a).value;
    if Transferred(r.transitions) {
      TransferredStays(r.transitions, next.transitions);
    } else if RuntimeCall(a.call) {
      RuntimeCallKeepsLineage(root, r, sealed, epoch, a);
    } else if next != r {
      TransitionCallAppends(root, RUNTIME_OWNER, Some(r), a.call);
      assert next.transitions[|r.transitions|].intent.TransferIntent?;
    }
  }

  lemma {:induction false} RunKeepsLineageOrTransfers(root: string, r: Record, sealed: Reference, epoch: string, later: seq<Attempt>)
    requires DistinctIds(r.transitions) && forall a | a in later :: TransitionCall(a.call)
    requires Continuity(root, RUNTIME_OWNER, r, sealed, epoch) || Transferred(r.transitions)
    ensures var end := Run(root, RUNTIME_OWNER, Some(r), later);
      end.Some? && (Continuity(root, RUNTIME_OWNER, end.value, sealed, epoch) || Transferred(end.value.transitions))
    decreases |later|
  {
    if later != [] {
      CallKeepsLineageOrTransfers(root, r, sealed, epoch, later[0]);
      TransitionCallExtends(root, RUNTIME_OWNER, r, later[0]);
      RunKeepsLineageOrTransfers(root, After(root, RUNTIME_OWNER, Some(r), later[0]).value, sealed, epoch, later[1..]);
    }
  }

  lemma TransferredIsRefused(root: string, r: Record, sealed: Reference, epoch: string)
    requires Transferred(r.transitions)
    ensures !Continuity(root, RUNTIME_OWNER, r, sealed, epoch)
  {
    var k :| 0 <= k < |r.transitions| && r.transitions[k].intent.TransferIntent?;
    TransferBreaksLineage(root, RUNTIME_OWNER, r, sealed, epoch, k);
  }

  /** What a committed claim leaves: its own entry last, in a valid lineage. */
  lemma ClaimCommits(root: string, before: Record, call: Call, ack: Ack, committed: Record)
    requires call.Claim? && OutcomeOf(root, RUNTIME_OWNER, Some(before), call) == Write(Acked(ack), committed)
    ensures Continuity(root, RUNTIME_OWNER, committed, call.sealed, call.ownerEpoch) && Readable(RUNTIME_OWNER, committed)
    ensures committed.transitions == before.transitions + [Transition(call.id, IntentOf(call), ack)]
    ensures ack == RuntimeAck(RUNTIME_OWNER, committed.target, IntentOf(call))
  {
    TransitionCallAppends(root, RUNTIME_OWNER, Some(before), call);
    RuntimeCallKeepsLineage(root, before, call.sealed, call.ownerEpoch, Attempt(call, Committed));
  }

  /** What repeating a claim answers over any record that extends the one it committed. */
  lemma RepeatedClaim(root: string, end: Record, k: nat, again: Call, ack: Ack)
    requires again.Claim? && RuntimeBinding(RUNTIME_OWNER, again.generation, again.id, again.ownerEpoch)
    requires Readable(RUNTIME_OWNER, end) && DistinctIds(end.transitions) && k < |end.transitions|
    requires end.transitions[k] == Transition(again.id, IntentOf(again), ack)
    requires ack == RuntimeAck(RUNTIME_OWNER, end.target, IntentOf(again))
    requires Continuity(root, RUNTIME_OWNER, end, again.sealed, again.ownerEpoch) || Transferred(end.transitions)
    ensures OutcomeOf(root, RUNTIME_OWNER, Some(end), again)
         == NoWrite(if !Verifies(again) then Refused(ActorUnavailable)
                    else if Transferred(end.transitions) then Refused(LineageDiffers)
                    else Acked(ack))
  {
    OneMatch(end.transitions, k);
    if Transferred(end.transitions) {
      TransferredIsRefused(root, end, again.sealed, again.ownerEpoch);
    }
  }

  /**
    A committed claim is replayed too, whatever is observed of its target by then and whatever
    transitions committed since, except after a generic transfer: a claim looks at the lineage
    before it looks for its own entry, and a transfer ends the lineage.
   */
  lemma ClaimReplayIsStable(root: string, before: Record, call: Call, again: Call, ack: Ack, committed: Record, later: seq<Attempt>)
    requires call.Claim?
    requires TransitionCall(again) && IntentOf(again) == IntentOf(call)
    requires OutcomeOf(root, RUNTIME_OWNER, Some(before), call) == Write(Acked(ack), committed)
    requires forall a | a in later :: TransitionCall(a.call)
    ensures var end := Run(root, RUNTIME_OWNER, Some(committed), later);
      && end.Some?
      && OutcomeOf(root, RUNTIME_OWNER, end, again)
      == NoWrite(if !Verifies(again) then Refused(ActorUnavailable)
                 else if Transferred(end.value.transitions) then Refused(LineageDiffers)
                 else Acked(ack))
  {
    ClaimCommits(root, before, call, ack, committed);
    TransitionRunExtends(root, RUNTIME_OWNER, committed, later);
    RunKeepsLineageOrTransfers(root, committed, call.sealed, call.ownerEpoch, later);
    var end := Run(root, RUNTIME_OWNER, Some(committed), later).value;
    RepeatedClaim(root, end, |before.transitions|, again, ack);
  }

  /** One active designation, released, claimed back and handed on by a generic transfer. */
  function TransferAfterClaim(root: string, who: Incarnation): (Record, Call, Attempt) {
    var actor := Actor(who, true, true);
    var first := Record(RUNTIME_OWNER, 1, "e", Active, who, Bound(who, []), []);
    var released := Transition("r", RelinquishIntent("r", 1, who, "e"),
                               RuntimeAck(RUNTIME_OWNER, first.target, RelinquishIntent("r", 1, who, "e")));
    var claim := Claim(actor, 2, "c", ReferenceTo(root, first), "e", Some(Identity(who.pid, who.uid, who.birth)));
    (Moved(first, released), claim, Attempt(Transfer(actor, actor, 3, "t", "e", None), Committed))
  }

  /** The witness: a claim commits, a transfer commits after it, and the same claim is then refused. */
  lemma TransferEndsClaimReplay(root: string, who: Incarnation)
    ensures var (before, claim, transfer) := TransferAfterClaim(root, who);
      var o := OutcomeOf(root, RUNTIME_OWNER, Some(before), claim);
      && o.Write? && o.reply.Acked?
      && OutcomeOf(root, RUNTIME_OWNER, Run(root, RUNTIME_OWNER, Some(o.record), [transfer]), claim)
      == NoWrite(Refused(LineageDiffers))
  {
    var (before, claim, transfer) := TransferAfterClaim(root, who);
    var t := before.transitions[0];
    assert before.transitions == [t] && EntryContinues(RUNTIME_OWNER, before.target, before.transitions, claim.sealed, "e", 0);
    assert Continuity(root, RUNTIME_OWNER, before, claim.sealed, "e");
    NoMatches(before.transitions, "c");
    var o := OutcomeOf(root, RUNTIME_OWNER, Some(before), claim);
    assert o.Write?;
    ClaimCommits(root, before, claim, o.reply.ack, o.record);
    NoMatches(o.record.transitions, "t");
    var end := After(root, RUNTIME_OWNER, Some(o.record), transfer);
    assert [transfer][1..] == [] && Run(root, RUNTIME_OWNER, Some(o.record), [transfer]) == end;
    assert end.value.transitions[2].intent.TransferIntent?;
    ClaimReplayIsStable(root, before, claim, claim, o.reply.ack, o.record, [transfer]);
  }

  /** The id of a committed transition is never accepted again with another intent. */
  lemma ConflictingReplayIsRefused(root: string, role: string, r: Record, k: nat, call: Call)
    requires DistinctIds(r.transitions) && k < |r.transitions|
    requires TransitionCall(call) && call.id == r.transitions[k].id && IntentOf(call) != r.transitions[k].intent
    ensures OutcomeOf(root, role, Some(r), call).NoWrite? && OutcomeOf(root, role, Some(r), call).reply.Refused?
  {
    OneMatch(r.transitions, k);
  }

  // -- the lineage checker accepts every run

  /** The record one relinquish or claim entry later. */
  function Moved(r: Record, t: Transition): Record {
    r.(transitions := r.transitions + [t], generation := r.generation + 1,
       state := if |r.transitions| % 2 == 0 then Relinquished else Active, actor := t.ack.actor)
  }

  lemma MovedContinues(root: string, r: Record, t: Transition, sealed: Reference, epoch: string)
    requires Continuity(root, RUNTIME_OWNER, r, sealed, epoch) && Matches(r.transitions, t.id) == []
    requires EntryContinues(RUNTIME_OWNER, r.target, r.transitions + [t], sealed, epoch, |r.transitions|)
    ensures Continuity(root, RUNTIME_OWNER, Moved(r, t), sealed, epoch)
  {
    NoMatches(r.transitions, t.id);
    var h, h' := r.transitions, r.transitions + [t];
    forall k: nat | k < |h'| ensures EntryContinues(RUNTIME_OWNER, r.target, h', sealed, epoch, k) {
      if k < |h| {
        assert EntryContinues(RUNTIME_OWNER, r.target, h, sealed, epoch, k);
      }
    }
  }

  lemma RelinquishMoves(root: string, r: Record, call: Call, sealed: Reference, epoch: string)
    requires Continuity(root, RUNTIME_OWNER, r, sealed, epoch) && call.Relinquish?
    requires OutcomeOf(root, RUNTIME_OWNER, Some(r), call).Write?
    ensures Continuity(root, RUNTIME_OWNER, OutcomeOf(root, RUNTIME_OWNER, Some(r), call).record, sealed, epoch)
  {
    var o := OutcomeOf(root, RUNTIME_OWNER, Some(r), call);
    var t := Transition(call.id, IntentOf(call), o.reply.ack);
    assert o.record == Moved(r, t) && Matches(r.transitions, call.id) == [];
    MovedContinues(root, r, t, sealed, epoch);
  }

  lemma ClaimMoves(root: string, r: Record, call: Call, sealed: Reference, epoch: string)
    requires Continuity(root, RUNTIME_OWNER, r, sealed, epoch) && call.Claim?
    requires OutcomeOf(root, RUNTIME_OWNER, Some(r), call).Write?
    ensures Continuity(root, RUNTIME_OWNER, OutcomeOf(root, RUNTIME_OWNER, Some(r), call).record, sealed, epoch)
  {
    var o := OutcomeOf(root, RUNTIME_OWNER, Some(r), call);
    var t := Transition(call.id, IntentOf(call), o.reply.ack);
    assert o.record == Moved(r, t) && Matches(r.transitions, call.id) == [];
    assert call.sealed == sealed;
    MovedContinues(root, r, t, sealed, epoch);
  }

  lemma RuntimeCallKeepsLineage(root: string, r: Record, sealed: Reference, epoch: string, a: Attempt)
    requires Continuity(root, RUNTIME_OWNER, r, sealed, epoch) && RuntimeCall(a.call)
    ensures var next := After(root, RUNTIME_OWNER, Some(r), a);
      next.Some? && Continuity(root, RUNTIME_OWNER, next.value, sealed, epoch) && next.value.role == r.role
  {
    if OutcomeOf(root, RUNTIME_OWNER, Some(r), a.call).Write? {
      if a.call.Relinquish? {
        RelinquishMoves(root, r, a.call, sealed, epoch);
      } else {
        ClaimMoves(root, r, a.call, sealed, epoch);
      }
    }
  }

  lemma {:induction false} RuntimeRunKeepsLineage(root: string, r: Record, sealed: Reference, epoch: string,
                                                  attempts: seq<Attempt>)
    requires Continuity(root, RUNTIME_OWNER, r, sealed, epoch) && forall a | a in attempts :: RuntimeCall(a.call)
    ensures var end := Run(root, RUNTIME_OWNER, Some(r), attempts);
      end.Some? && Continuity(root, RUNTIME_OWNER, end.value, sealed, epoch) && end.value.role == r.role
    decreases |attempts|
  {
    if attempts != [] {
      RuntimeCallKeepsLineage(root, r, sealed, epoch, attempts[0]);
      RuntimeRunKeepsLineage(root, After(root, RUNTIME_OWNER, Some(r), attempts[0]).value, sealed, epoch, attempts[1..]);
    }
  }

  /** A designation that has not transitioned yet. */
  predicate Unmoved(role: string, file: Option<Record>) {
    file.Some? ==>
      var r := file.value;
      r.role == role && r.generation == 1 && r.transitions == [] && Text(r.ownerEpoch)
      && (r.state == Active ==> r.target.Bound?) && r.state != Relinquished
  }

  lemma {:induction false} LaunchRunIsUnmoved(root: string, role: string, file: Option<Record>, launch: seq<Attempt>)
    requires Unmoved(role, file) && forall a | a in launch :: LaunchCall(a.call)
    ensures Unmoved(role, Run(root, role, file, launch))
    decreases |launch|
  {
    if launch != [] {
      LaunchRunIsUnmoved(root, role, After(root, role, file, launch[0]), launch[1..]);
    }
  }

  /**
    `r` is what some real run leaves: launch calls from nothing up to an active designation
    sealed as `sealed`, then any mix of accepted, refused, lost or replayed relinquish and claim calls.
   */
  ghost predicate ProducedBy(root: string, launch: seq<Attempt>, mix: seq<Attempt>, r: Record, sealed: Reference,
                             epoch: string)
  {
    && (forall a | a in launch :: LaunchCall(a.call))
    && (forall a | a in mix :: RuntimeCall(a.call))
    && var start := Run(root, RUNTIME_OWNER, None, launch);
       && start.Some? && start.value.state == Active && start.value.ownerEpoch == epoch
       && ReferenceTo(root, start.value) == sealed
       && Run(root, RUNTIME_OWNER, start, mix) == Some(r)
  }

  ghost predicate Produced(root: string, r: Record, sealed: Reference, epoch: string) {
    exists launch, mix :: ProducedBy(root, launch, mix, r, sealed, epoch)
  }

  /** What the calls demand of a history and the checker does not look at. */
  predicate Admissible(r: Record, sealed: Reference) {
    && sealed.generation == 1 && Text(r.ownerEpoch)
    && (forall t | t in r.transitions :: |t.id| <= MAX_TEXT)
    && (r.target.Bound? ==>
          forall t | t in r.transitions && t.intent.ClaimIntent? :: t.intent.requester.uid == r.target.who.uid)
  }

  /** Every produced record passes the checker against its sealed reference. */
  lemma ProducedPasses(root: string, r: Record, sealed: Reference, epoch: string)
    requires Produced(root, r, sealed, epoch)
    ensures Continuity(root, RUNTIME_OWNER, r, sealed, epoch) && Admissible(r, sealed) && r.role == RUNTIME_OWNER
  {
    var launch, mix :| ProducedBy(root, launch, mix, r, sealed, epoch);
    LaunchRunIsUnmoved(root, RUNTIME_OWNER, None, launch);
    var start := Run(root, RUNTIME_OWNER, None, launch).value;
    assert Continuity(root, RUNTIME_OWNER, start, sealed, epoch) && Admissible(start, sealed);
    RuntimeRunKeepsLineage(root, start, sealed, epoch, mix);
    RuntimeRunKeepsAdmissible(root, start, sealed, mix);
  }

  lemma {:induction false} RuntimeRunKeepsAdmissible(root: string, r: Record, sealed: Reference, mix: seq<Attempt>)
    requires Admissible(r, sealed) && forall a | a in mix :: RuntimeCall(a.call)
    ensures var end := Run(root, RUNTIME_OWNER, Some(r), mix); end.Some? && Admissible(end.value, sealed)
    decreases |mix|
  {
    if mix != [] {
      RuntimeRunKeepsAdmissible(root, After(root, RUNTIME_OWNER, Some(r), mix[0]).value, sealed, mix[1..]);
    }
  }

  // -- and every record the checker accepts replays from the sealed generation

  /** The record before its last transition. */
  function Undo(r: Record): Record
    requires r.transitions != []
  {
    var n := |r.transitions| - 1;
    r.(transitions := r.transitions[..n], generation := r.generation - 1,
       state := if n % 2 == 0 then Active else Relinquished,
       actor := if n % 2 == 0 then r.actor else r.transitions[n - 1].ack.actor)
  }

  /** The call that made the last transition. */
  function LastCall(r: Record): Call
    requires r.transitions != [] && r.target.Bound?
  {
    var intent := r.transitions[|r.transitions| - 1].intent;
    var actor := Actor(intent.requester, true, true);
    if intent.ClaimIntent?
    then Claim(actor, intent.fromGeneration, intent.id, intent.sealed, intent.ownerEpoch,
               Some(Identity(r.target.who.pid, r.target.who.uid, r.target.who.birth)))
    else Relinquish(actor, intent.fromGeneration, intent.id, intent.ownerEpoch)
  }

  lemma UndoKeepsLineage(root: string, r: Record, sealed: Reference, epoch: string)
    requires Continuity(root, RUNTIME_OWNER, r, sealed, epoch) && Admissible(r, sealed) && r.transitions != []
    ensures Continuity(root, RUNTIME_OWNER, Undo(r), sealed, epoch) && Admissible(Undo(r), sealed)
  {
    var h, p := r.transitions, Undo(r);
    var n := |h| - 1;
    forall k: nat | k < n ensures EntryContinues(RUNTIME_OWNER, p.target, p.transitions, sealed, epoch, k) {
      assert EntryContinues(RUNTIME_OWNER, r.target, h, sealed, epoch, k);
    }
    assert EntryContinues(RUNTIME_OWNER, r.target, h, sealed, epoch, n);
  }

  /** Redoing the last entry over the record before it gives the record back. */
  lemma UndoThenMove(root: string, r: Record, sealed: Reference, epoch: string)
    requires Continuity(root, RUNTIME_OWNER, r, sealed, epoch) && r.transitions != []
    ensures Moved(Undo(r), r.transitions[|r.transitions| - 1]) == r
    ensures Matches(Undo(r).transitions, r.transitions[|r.transitions| - 1].id) == []
  {
    var h := r.transitions;
    var n := |h| - 1;
    assert h == h[..n] + [h[n]];
    NoMatches(h[..n], h[n].id);
    assert EntryContinues(RUNTIME_OWNER, r.target, h, sealed, epoch, n);
  }

  /** What the last entry of an accepted record is, seen from the record before it. */
  lemma LastEntry(root: string, r: Record, sealed: Reference, epoch: string) returns (p: Record, t: Transition)
    requires Continuity(root, RUNTIME_OWNER, r, sealed, epoch) && Admissible(r, sealed) && r.transitions != []
    ensures p == Undo(r) && t == r.transitions[|r.transitions| - 1] && Text(t.id) && Text(epoch)
    ensures p.generation >= 1 && p.target == r.target && p.target.Bound? && p.ownerEpoch == epoch
    ensures t.ack == RuntimeAck(RUNTIME_OWNER, p.target, t.intent)
    ensures if |p.transitions| % 2 == 0
            then p.state == Active && t.intent == RelinquishIntent(t.id, p.generation, p.actor, epoch)
            else p.state == Relinquished && t.intent.ClaimIntent? && t.intent.requester.uid == p.target.who.uid
                 && t.intent == ClaimIntent(t.id, p.generation, t.intent.requester, epoch, t.intent.requester, sealed)
  {
    var n := |r.transitions| - 1;
    p, t := Undo(r), r.transitions[n];
    assert EntryContinues(RUNTIME_OWNER, r.target, r.transitions, sealed, epoch, n) && t in r.transitions;
  }

  lemma LastRelinquishReplays(root: string, r: Record, sealed: Reference, epoch: string)
    requires Continuity(root, RUNTIME_OWNER, r, sealed, epoch) && Admissible(r, sealed) && r.role == RUNTIME_OWNER
    requires |r.transitions| % 2 == 1
    ensures OutcomeOf(root, RUNTIME_OWNER, Some(Undo(r)), LastCall(r)) == Write(Acked(r.transitions[|r.transitions| - 1].ack), r)
  {
    var p, t := LastEntry(root, r, sealed, epoch);
    UndoThenMove(root, r, sealed, epoch);
    UndoneRelinquish(root, p, t, LastCall(r), epoch);
  }

  lemma LastClaimReplays(root: string, r: Record, sealed: Reference, epoch: string)
    requires Continuity(root, RUNTIME_OWNER, r, sealed, epoch) && Admissible(r, sealed) && r.role == RUNTIME_OWNER
    requires r.transitions != [] && |r.transitions| % 2 == 0
    ensures OutcomeOf(root, RUNTIME_OWNER, Some(Undo(r)), LastCall(r)) == Write(Acked(r.transitions[|r.transitions| - 1].ack), r)
  {
    var p, t := LastEntry(root, r, sealed, epoch);
    UndoThenMove(root, r, sealed, epoch);
    UndoKeepsLineage(root, r, sealed, epoch);
    UndoneClaim(root, p, t, LastCall(r), sealed, epoch);
  }

  /** An accepted record is exactly what its last call, taken again, writes over the record before it. */
  lemma UndoReplays(root: string, r: Record, sealed: Reference, epoch: string)
    requires Continuity(root, RUNTIME_OWNER, r, sealed, epoch) && Admissible(r, sealed) && r.role == RUNTIME_OWNER
    requires r.transitions != []
    ensures After(root, RUNTIME_OWNER, Some(Undo(r)), Attempt(LastCall(r), Committed)) == Some(r)
  {
    if |r.transitions| % 2 == 1 {
      LastRelinquishReplays(root, r, sealed, epoch);
    } else {
      LastClaimReplays(root, r, sealed, epoch);
    }
  }

  lemma UndoneRelinquish(root: string, p: Record, t: Transition, call: Call, epoch: string)
    requires p.role == RUNTIME_OWNER && p.generation >= 1 && p.state == Active && p.target.Bound? && |p.transitions| % 2 == 0
    requires Matches(p.transitions, t.id) == [] && Text(t.id) && Text(epoch) && p.ownerEpoch == epoch
    requires t.intent == RelinquishIntent(t.id, p.generation, p.actor, epoch) && t.ack == RuntimeAck(RUNTIME_OWNER, p.target, t.intent)
    requires call == Relinquish(Actor(p.actor, true, true), p.generation, t.id, epoch)
    ensures OutcomeOf(root, RUNTIME_OWNER, Some(p), call) == Write(Acked(t.ack), Moved(p, t))
  {
  }

  lemma UndoneClaim(root: string, p: Record, t: Transition, call: Call, sealed: Reference, epoch: string)
    requires p.role == RUNTIME_OWNER && p.generation >= 1 && p.state == Relinquished && |p.transitions| % 2 == 1
    requires Continuity(root, RUNTIME_OWNER, p, sealed, epoch)
    requires Matches(p.transitions, t.id) == [] && Text(t.id) && Text(epoch)
    requires t.intent.ClaimIntent? && t.intent == ClaimIntent(t.id, p.generation, t.intent.requester, epoch, t.intent.requester, sealed)
    requires t.ack == RuntimeAck(RUNTIME_OWNER, p.target, t.intent) && t.intent.requester.uid == p.target.who.uid
    requires call == Claim(Actor(t.intent.requester, true, true), p.generation, t.id, sealed, epoch,
                           Some(Identity(p.target.who.pid, p.target.who.uid, p.target.who.birth)))
    ensures OutcomeOf(root, RUNTIME_OWNER, Some(p), call) == Write(Acked(t.ack), Moved(p, t))
  {
  }

  lemma FreshLaunch(root: string, r: Record, sealed: Reference, epoch: string)
    requires Continuity(root, RUNTIME_OWNER, r, sealed, epoch) && Admissible(r, sealed) && r.role == RUNTIME_OWNER
    requires r.transitions == []
    ensures Produced(root, r, sealed, epoch)
  {
    var actor := Actor(r.actor, true, true);
    var reserve := Attempt(ReserveBeforeSpawn(actor, epoch, "launch"), Committed);
    var pending := Attempt(BindPending(actor, "launch", Some(r.target.who)), Committed);
    var bind := Attempt(BindTarget(actor, 1, Some(r.target.who), r.target.words, true), Committed);
    var reserved := After(root, RUNTIME_OWNER, None, reserve);
    var spawned := After(root, RUNTIME_OWNER, reserved, pending);
    assert After(root, RUNTIME_OWNER, spawned, bind) == Some(r);
    var launch := [reserve, pending, bind];
    assert launch[1..] == [pending, bind] && launch[1..][1..] == [bind];
    assert Run(root, RUNTIME_OWNER, None, launch) == Run(root, RUNTIME_OWNER, spawned, [bind]) == Some(r);
    assert ProducedBy(root, launch, [], r, sealed, epoch);
  }

  lemma {:induction false} PassingIsProduced(root: string, r: Record, sealed: Reference, epoch: string)
    requires Continuity(root, RUNTIME_OWNER, r, sealed, epoch) && Admissible(r, sealed) && r.role == RUNTIME_OWNER
    ensures Produced(root, r, sealed, epoch)
    decreases |r.transitions|
  {
    if r.transitions == [] {
      FreshLaunch(root, r, sealed, epoch);
    } else {
      UndoKeepsLineage(root, r, sealed, epoch);
      UndoReplays(root, r, sealed, epoch);
      PassingIsProduced(root, Undo(r), sealed, epoch);
      var launch, mix :| ProducedBy(root, launch, mix, Undo(r), sealed, epoch);
      var last := Attempt(LastCall(r), Committed);
      RunAppend(root, RUNTIME_OWNER, Run(root, RUNTIME_OWNER, None, launch), mix, [last]);
      assert Run(root, RUNTIME_OWNER, Some(Undo(r)), [last]) == Some(r);
      assert ProducedBy(root, launch, mix + [last], r, sealed, epoch);
    }
  }

  /** The checker is exact: it accepts a record if and only if the calls can produce it, up to what it does not look at. */
  lemma CheckerIsExact(root: string, r: Record, sealed: Reference, epoch: string)
    requires r.role == RUNTIME_OWNER
    ensures Continuity(root, RUNTIME_OWNER, r, sealed, epoch) && Admissible(r, sealed) <==> Produced(root, r, sealed, epoch)
  {
    if Produced(root, r, sealed, epoch) {
      ProducedPasses(root, r, sealed, epoch);
    }
    if Continuity(root, RUNTIME_OWNER, r, sealed, epoch) && Admissible(r, sealed) {
      PassingIsProduced(root, r, sealed, epoch);
    }
  }

  /** Alone, the checker accepts more: a record sealed past the first generation, which no launch leaves. */
  lemma CheckerAloneAcceptsMore(root: string, who: Incarnation)
    ensures var r := Record(RUNTIME_OWNER, 2, "epoch", Active, who, Bound(who, []), []);
      && Continuity(root, RUNTIME_OWNER, r, ReferenceTo(root, r), "epoch")
      && !Produced(root, r, ReferenceTo(root, r), "epoch")
  {
    var r := Record(RUNTIME_OWNER, 2, "epoch", Active, who, Bound(who, []), []);
    CheckerIsExact(root, r, ReferenceTo(root, r), "epoch");
  }

  /** A record passes against at most one sealed reference and owner epoch. */
  lemma AnchorIsUnique(root: string, role: string, r: Record, s: Reference, e: string, s': Reference, e': string)
    requires Continuity(root, role, r, s, e) && Continuity(root, role, r, s', e')
    ensures s == s' && e == e'
  {
    assert s.generation + |r.transitions| == s'.generation + |r.transitions|;
  }

  /** A reference read after a transition is no anchor: only the launch generation is. */
  lemma LaterReferenceIsRefused(root: string, r: Record, sealed: Reference, epoch: string, later: seq<Attempt>)
    requires Continuity(root, RUNTIME_OWNER, r, sealed, epoch) && r.role == RUNTIME_OWNER && r.transitions != []
    requires forall a | a in later :: RuntimeCall(a.call)
    ensures var end := Run(root, RUNTIME_OWNER, Some(r), later);
      end.Some? && forall e :: !Continuity(root, RUNTIME_OWNER, end.value, ReferenceTo(root, r), e)
  {
    RuntimeRunKeepsLineage(root, r, sealed, epoch, later);
    var end := Run(root, RUNTIME_OWNER, Some(r), later).value;
    forall e ensures !Continuity(root, RUNTIME_OWNER, end, ReferenceTo(root, r), e) {
      if Continuity(root, RUNTIME_OWNER, end, ReferenceTo(root, r), e) {
        AnchorIsUnique(root, RUNTIME_OWNER, end, sealed, epoch, ReferenceTo(root, r), e);
      }
    }
  }

  /** A reference anchors the runs that follow exactly when no transition came before it. */
  lemma ReferenceAnchorsExactlyAtLaunch(root: string, r: Record, sealed: Reference, epoch: string, later: seq<Attempt>)
    requires Continuity(root, RUNTIME_OWNER, r, sealed, epoch) && r.role == RUNTIME_OWNER
    requires forall a | a in later :: RuntimeCall(a.call)
    ensures var end := Run(root, RUNTIME_OWNER, Some(r), later);
      end.Some? && (Continuity(root, RUNTIME_OWNER, end.value, ReferenceTo(root, r), epoch) <==> r.transitions == [])
  {
    if r.transitions == [] {
      assert sealed == ReferenceTo(root, r);
      RuntimeRunKeepsLineage(root, r, sealed, epoch, later);
    } else {
      LaterReferenceIsRefused(root, r, sealed, epoch, later);
    }
  }

  /** One generic transfer in the history and the checker refuses the record. */
  lemma TransferBreaksLineage(root: string, role: string, r: Record, sealed: Reference, epoch: string, k: nat)
    requires k < |r.transitions| && r.transitions[k].intent.TransferIntent?
    ensures !Continuity(root, role, r, sealed, epoch)
  {
    assert !EntryContinues(role, r.target, r.transitions, sealed, epoch, k);
  }
}
