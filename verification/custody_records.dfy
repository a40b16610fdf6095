/**
  The durable designation of one custody role: a generation, a state, the designated
  cleanup actor, its target and an append-only history of transitions.

  `OutcomeOf` says what one call under the exclusive guard answers and what record, if
  any, it hands to the durable write. The class performs the same calls step by step on
  the stored record; a write may be lost before or after it commits.
 */
module CustodyRecords {
  import opened Wrappers

  const DESIGNATION_VERSION := "runtime.role-custody-designation/v1"
  const ROLE_REFERENCE_VERSION := "runtime.role-custody-reference/v1"
  const RUNTIME_OWNER := "runtime_owner"
  const MAX_TEXT := 256

  /** What a process-table observation reports. */
  datatype Identity = Identity(pid: int, uid: int, birth: string)

  /** An identity together with the kernel token that authenticated it. */
  datatype Incarnation = Incarnation(pid: int, uid: int, birth: string, tokenSha: string, pidversion: int)

  /** An unspawned launch, a spawned process, or a process whose full kernel token is kept. */
  datatype Target =
    | Admission(admissionId: string)
    | Pinned(who: Incarnation)
    | Bound(who: Incarnation, words: seq<int>)

  datatype State = Pending | Active | Relinquished

  datatype Reference = Reference(version: string, scopeRoot: string, role: string, generation: int, target: Target)

  datatype Intent =
    | TransferIntent(id: string, fromGeneration: int, requester: Incarnation, nextActor: Incarnation, ownerEpoch: string)
    | RelinquishIntent(id: string, fromGeneration: int, requester: Incarnation, ownerEpoch: string)
    | ClaimIntent(id: string, fromGeneration: int, requester: Incarnation, ownerEpoch: string,
                  nextActor: Incarnation, sealed: Reference)

  /** Only relinquish and claim acknowledgements carry a state. */
  datatype Ack = Ack(version: string, id: string, role: string, generation: int, ownerEpoch: string,
                     actor: Incarnation, target: Target, state: Option<State>)

  datatype Transition = Transition(id: string, intent: Intent, ack: Ack)

  datatype Record = Record(role: string, generation: int, ownerEpoch: string, state: State,
                           actor: Incarnation, target: Target, transitions: seq<Transition>)

  /** An actor verifies to its pinned incarnation, or the verification raises; a call may verify it twice. */
  datatype Actor = Actor(pinned: Incarnation, verified: bool, reverified: bool)

  /** A retained child handle: it proves an exit only for the incarnation it was opened on. */
  datatype ExitProof = ExitProof(pinned: Incarnation, exited: bool)

  datatype Call =
    | DesignatePending(actor: Actor, who: Option<Incarnation>, ownerEpoch: string)
    | ReserveBeforeSpawn(actor: Actor, ownerEpoch: string, admissionId: string)
    | BindPending(actor: Actor, admissionId: string, who: Option<Incarnation>)
    | BindTarget(actor: Actor, generation: int, who: Option<Incarnation>, words: seq<int>, tokenValid: bool)
    | Transfer(actor: Actor, next: Actor, generation: int, id: string, ownerEpoch: string, dead: Option<ExitProof>)
    | Relinquish(actor: Actor, generation: int, id: string, ownerEpoch: string)
    | Claim(actor: Actor, generation: int, id: string, sealed: Reference, ownerEpoch: string,
            observed: Option<Identity>)

  datatype Refusal =
    | InvalidBinding | ActorUnavailable | Unreadable | AlreadyDesignated | StaleActor | ObligationDiffers
    | TargetChanged | ReplayConflict | StaleGeneration | NotDesignatedActor | NoExitProof | CannotRelinquish
    | LineageDiffers | NotRelinquished | ClaimantDiffers | WriteFailed

  datatype Reply = Done | Referenced(reference: Reference) | Acked(ack: Ack) | Refused(why: Refusal)

  /** A call either answers without writing or asks for one durable write and then answers. */
  datatype Outcome = NoWrite(reply: Reply) | Write(reply: Reply, record: Record)

  /** The fate of a durable write: done, never done, or done although the caller saw an error. */
  datatype Fate = Committed | NotCommitted | LostAck

  /** The target without its kernel token words. */
  function Visible(t: Target): Target {
    if t.Bound? then Pinned(t.who) else t
  }

  function ReferenceTo(root: string, r: Record): Reference {
    Reference(ROLE_REFERENCE_VERSION, root, r.role, r.generation, Visible(r.target))
  }

  predicate Text(s: string) {
    0 < |s| <= MAX_TEXT
  }

  predicate Readable(role: string, r: Record) {
    r.role == role && r.generation >= 1 && (r.state == Relinquished ==> role == RUNTIME_OWNER)
  }

  function ReadBack(role: string, file: Option<Record>): Option<Record> {
    if file.Some? && Readable(role, file.value) then file else None
  }

  predicate SameProcess(a: Incarnation, pid: int, uid: int, birth: string) {
    a.pid == pid && a.uid == uid && a.birth == birth
  }

  function Matches(ts: seq<Transition>, id: string): seq<Transition> {
    if ts == [] then []
    else (if ts[0].id == id then [ts[0]] else []) + Matches(ts[1..], id)
  }

  /** The acknowledgement a committed relinquish or claim must carry. */
  function RuntimeAck(role: string, target: Target, intent: Intent): Ack {
    Ack(DESIGNATION_VERSION, intent.id, role, intent.fromGeneration + 1, intent.ownerEpoch, intent.requester,
        Visible(target), Some(if intent.RelinquishIntent? then Relinquished else Active))
  }

  datatype Replay = Fresh | Replayed(ack: Ack) | Conflict

  function ReplayRuntime(r: Record, id: string, intent: Intent): Replay {
    var found := Matches(r.transitions, id);
    if |found| > 1 then Conflict
    else if |found| == 1 then
      if found[0].intent != intent
         || found[0].ack != RuntimeAck(RUNTIME_OWNER, r.target, intent).(id := id) then Conflict
      else Replayed(found[0].ack)
    else Fresh
  }

  predicate RuntimeBinding(role: string, generation: int, id: string, ownerEpoch: string) {
    role == RUNTIME_OWNER && generation >= 1 && Text(id) && Text(ownerEpoch)
  }

  // -- the lineage checker

  predicate Anchored(root: string, r: Record, sealed: Reference, ownerEpoch: string) {
    && sealed.version == ROLE_REFERENCE_VERSION && sealed.role == RUNTIME_OWNER && sealed.scopeRoot == root
    && sealed.generation >= 1 && sealed.target == Visible(r.target)
    && r.ownerEpoch == ownerEpoch && r.target.Bound?
  }

  /** Entry `k` of the history continues the entries before it. */
  predicate EntryContinues(role: string, target: Target, h: seq<Transition>, sealed: Reference, ownerEpoch: string, k: nat)
    requires k < |h|
  {
    var intent := h[k].intent;
    && h[k].id != ""
    && (if k % 2 == 0 then intent.RelinquishIntent? else intent.ClaimIntent?)
    && intent.id == h[k].id && intent.fromGeneration == sealed.generation + k && intent.ownerEpoch == ownerEpoch
    && h[k].ack == Ack(DESIGNATION_VERSION, h[k].id, role, sealed.generation + k + 1, ownerEpoch, intent.requester,
                       Visible(target), Some(if k % 2 == 0 then Relinquished else Active))
    && (k % 2 == 0 && k > 0 ==> intent.requester == h[k - 1].ack.actor)
    && (k % 2 == 1 ==> intent.nextActor == intent.requester && intent.sealed == sealed)
  }

  predicate DistinctIds(h: seq<Transition>) {
    forall i, j | 0 <= i < j < |h| :: h[i].id != h[j].id
  }

  /** What the lineage checker accepts. */
  predicate Continuity(root: string, role: string, r: Record, sealed: Reference, ownerEpoch: string) {
    var h := r.transitions;
    && Anchored(root, r, sealed, ownerEpoch)
    && r.generation == sealed.generation + |h|
    && (forall k: nat | k < |h| :: EntryContinues(role, r.target, h, sealed, ownerEpoch, k))
    && DistinctIds(h)
    && r.state == (if |h| % 2 == 1 then Relinquished else Active)
    && (h != [] ==> r.actor == h[|h| - 1].ack.actor)
  }

  // -- what each call under the exclusive guard answers and writes

  function DesignateOutcome(role: string, file: Option<Record>, actor: Actor, target: Option<Target>,
                            ownerEpoch: string): Outcome
  {
    if file.Some? then NoWrite(Refused(AlreadyDesignated))
    else if !actor.verified then NoWrite(Refused(ActorUnavailable))
    else if target.None? then NoWrite(Refused(InvalidBinding))
    else Write(Done, Record(role, 1, ownerEpoch, Pending, actor.pinned, target.value, []))
  }

  function BindPendingOutcome(role: string, file: Option<Record>, actor: Actor, admissionId: string,
                              who: Option<Incarnation>): Outcome
  {
    var read := ReadBack(role, file);
    if read.None? then NoWrite(Refused(Unreadable))
    else
      var r := read.value;
      if r.generation != 1 || !actor.verified || r.actor != actor.pinned then NoWrite(Refused(StaleActor))
      else if r.state != Pending || r.target != Admission(admissionId) then NoWrite(Refused(ObligationDiffers))
      else if who.None? then NoWrite(Refused(InvalidBinding))
      else Write(Done, r.(target := Pinned(who.value)))
  }

  function BindTargetOutcome(root: string, role: string, file: Option<Record>, actor: Actor, generation: int,
                             who: Option<Incarnation>, words: seq<int>, tokenValid: bool): Outcome
  {
    var read := ReadBack(role, file);
    if read.None? then NoWrite(Refused(Unreadable))
    else
      var r := read.value;
      if r.generation != generation || !actor.verified || r.actor != actor.pinned then NoWrite(Refused(StaleActor))
      else if who.None? then NoWrite(Refused(InvalidBinding))
      else if r.target.Admission? || !SameProcess(r.target.who, who.value.pid, who.value.uid, who.value.birth)
      then NoWrite(Refused(TargetChanged))
      else if !tokenValid then NoWrite(Refused(TargetChanged))
      else
        var next := r.(state := Active, target := Bound(who.value, words));
        Write(Referenced(ReferenceTo(root, next)), next)
  }

  function TransferOutcome(role: string, file: Option<Record>, actor: Actor, next: Actor, generation: int,
                           id: string, ownerEpoch: string, dead: Option<ExitProof>): Outcome
  {
    var read := ReadBack(role, file);
    if !Text(id) || !Text(ownerEpoch) then NoWrite(Refused(InvalidBinding))
    else if read.None? then NoWrite(Refused(Unreadable))
    else if !actor.verified || !next.verified then NoWrite(Refused(ActorUnavailable))
    else
      var r := read.value;
      var intent := TransferIntent(id, generation, actor.pinned, next.pinned, ownerEpoch);
      var found := Matches(r.transitions, id);
      if found != [] then NoWrite(if found[0].intent == intent then Acked(found[0].ack) else Refused(ReplayConflict))
      else if r.generation != generation || r.state != Active then NoWrite(Refused(StaleGeneration))
      else if dead.None? && r.actor != actor.pinned then NoWrite(Refused(NotDesignatedActor))
      else if dead.Some? && actor.pinned != next.pinned then NoWrite(Refused(NotDesignatedActor))
      else if dead.Some? && !(dead.value.pinned == r.actor && dead.value.exited) then NoWrite(Refused(NoExitProof))
      else
        var ack := Ack(DESIGNATION_VERSION, id, role, generation + 1, ownerEpoch, next.pinned, Visible(r.target), None);
        Write(Acked(ack), r.(transitions := r.transitions + [Transition(id, intent, ack)], generation := generation + 1,
                             ownerEpoch := ownerEpoch, actor := next.pinned))
  }

  function RelinquishOutcome(role: string, file: Option<Record>, actor: Actor, generation: int, id: string,
                             ownerEpoch: string): Outcome
  {
    var read := ReadBack(role, file);
    if !RuntimeBinding(role, generation, id, ownerEpoch) then NoWrite(Refused(InvalidBinding))
    else if !actor.verified then NoWrite(Refused(ActorUnavailable))
    else if read.None? then NoWrite(Refused(Unreadable))
    else
      var r := read.value;
      var intent := RelinquishIntent(id, generation, actor.pinned, ownerEpoch);
      match ReplayRuntime(r, id, intent)
      case Conflict => NoWrite(Refused(ReplayConflict))
      case Replayed(ack) => NoWrite(Acked(ack))
      case Fresh =>
        if r.generation != generation || !actor.reverified || r.actor != actor.pinned then NoWrite(Refused(StaleActor))
        else if r.state != Active || r.ownerEpoch != ownerEpoch || !r.target.Bound?
        then NoWrite(Refused(CannotRelinquish))
        else
          var ack := RuntimeAck(role, r.target, intent);
          Write(Acked(ack), r.(transitions := r.transitions + [Transition(id, intent, ack)],
                               generation := generation + 1, state := Relinquished))
  }

  function ClaimOutcome(root: string, role: string, file: Option<Record>, actor: Actor, generation: int, id: string,
                        sealed: Reference, ownerEpoch: string, observed: Option<Identity>): Outcome
  {
    var read := ReadBack(role, file);
    if !RuntimeBinding(role, generation, id, ownerEpoch) then NoWrite(Refused(InvalidBinding))
    else if !actor.verified then NoWrite(Refused(ActorUnavailable))
    else if read.None? then NoWrite(Refused(Unreadable))
    else
      var r := read.value;
      var intent := ClaimIntent(id, generation, actor.pinned, ownerEpoch, actor.pinned, sealed);
      if !Continuity(root, role, r, sealed, ownerEpoch) then NoWrite(Refused(LineageDiffers))
      else
        match ReplayRuntime(r, id, intent)
        case Conflict => NoWrite(Refused(ReplayConflict))
        case Replayed(ack) => NoWrite(Acked(ack))
        case Fresh =>
          if r.state != Relinquished || r.generation != generation then NoWrite(Refused(NotRelinquished))
          else if observed.None?
               || !SameProcess(r.target.who, observed.value.pid, observed.value.uid, observed.value.birth)
               || actor.pinned.uid != r.target.who.uid
          then NoWrite(Refused(ClaimantDiffers))
          else
            var ack := RuntimeAck(role, r.target, intent);
            Write(Acked(ack), r.(transitions := r.transitions + [Transition(id, intent, ack)],
                                 generation := generation + 1, state := Active, actor := actor.pinned))
  }

  function OutcomeOf(root: string, role: string, file: Option<Record>, call: Call): Outcome {
    match call
    case DesignatePending(actor, who, epoch) =>
      if !Text(epoch) then NoWrite(Refused(InvalidBinding))
      else DesignateOutcome(role, file, actor, if who.Some? then Some(Pinned(who.value)) else None, epoch)
    case ReserveBeforeSpawn(actor, epoch, admissionId) =>
      if !Text(epoch) || admissionId == "" then NoWrite(Refused(InvalidBinding))
      else DesignateOutcome(role, file, actor, Some(Admission(admissionId)), epoch)
    case BindPending(actor, admissionId, who) => BindPendingOutcome(role, file, actor, admissionId, who)
    case BindTarget(actor, generation, who, words, valid) =>
      BindTargetOutcome(root, role, file, actor, generation, who, words, valid)
    case Transfer(actor, next, generation, id, epoch, dead) =>
      TransferOutcome(role, file, actor, next, generation, id, epoch, dead)
    case Relinquish(actor, generation, id, epoch) => RelinquishOutcome(role, file, actor, generation, id, epoch)
    case Claim(actor, generation, id, sealed, epoch, observed) =>
      ClaimOutcome(root, role, file, actor, generation, id, sealed, epoch, observed)
  }

  /** What the caller sees once the write, if one was asked for, has met its fate. */
  function Heard(o: Outcome, fate: Fate): Reply {
    if o.NoWrite? || fate == Committed then o.reply else Refused(WriteFailed)
  }

  /** What is stored once the write, if one was asked for, has met its fate. */
  function Stored(file: Option<Record>, o: Outcome, fate: Fate): Option<Record> {
    if o.NoWrite? || fate == NotCommitted then file else Some(o.record)
  }

  datatype CommitView = Unknown | NotYet | Found(ack: Ack)

  /** Reading back one specific commit. */
  function CommittedView(role: string, file: Option<Record>, id: string, intent: Intent): CommitView {
    var read := ReadBack(role, file);
    if read.None? then Unknown
    else
      var r := read.value;
      match ReplayRuntime(r, id, intent)
      case Conflict => Unknown
      case Replayed(ack) => Found(ack)
      case Fresh =>
        if r.ownerEpoch != intent.ownerEpoch || r.generation != intent.fromGeneration then Unknown
        else if intent.RelinquishIntent? && (r.state != Active || r.actor != intent.requester) then Unknown
        else NotYet
  }

  lemma {:induction false} MatchesAppend(ts: seq<Transition>, t: Transition, id: string)
    ensures Matches(ts + [t], id) == Matches(ts, id) + (if t.id == id then [t] else [])
  {
    if ts == [] {
      assert ts + [t] == [t];
    } else {
      assert (ts + [t])[1..] == ts[1..] + [t];
      MatchesAppend(ts[1..], t, id);
    }
  }

  /** One role's designation file and the calls that read and rewrite it. */
  class RoleCustodyAuthority {
    const root: string
    const role: string
    var designation: Option<Record>

    constructor (root: string, role: string, existing: Option<Record>)
      ensures this.root == root && this.role == role && designation == existing
    {
      this.root, this.role, designation := root, role, existing;
    }

    method Commit(record: Record, fate: Fate) returns (failed: bool)
      modifies this`designation
      ensures failed == (fate != Committed)
      ensures designation == if fate == NotCommitted then old(designation) else Some(record)
    {
      if fate != NotCommitted { designation := Some(record); }
      failed := fate != Committed;
    }

    method FindTransitions(r: Record, id: string) returns (found: seq<Transition>)
      ensures found == Matches(r.transitions, id)
    {
      found := [];
      for i := 0 to |r.transitions|
        invariant found == Matches(r.transitions[..i], id)
      {
        MatchesAppend(r.transitions[..i], r.transitions[i], id);
        assert r.transitions[..i] + [r.transitions[i]] == r.transitions[..i + 1];
        if r.transitions[i].id == id { found := found + [r.transitions[i]]; }
      }
      assert r.transitions[..|r.transitions|] == r.transitions;
    }

    method ReplayOf(r: Record, id: string, intent: Intent) returns (replay: Replay)
      ensures replay == ReplayRuntime(r, id, intent)
    {
      var found := FindTransitions(r, id);
      if |found| > 1 { return Conflict; }
      if |found| == 0 { return Fresh; }
      var expected := Ack(DESIGNATION_VERSION, id, RUNTIME_OWNER, intent.fromGeneration + 1, intent.ownerEpoch,
                          intent.requester, Visible(r.target),
                          Some(if intent.RelinquishIntent? then Relinquished else Active));
      if found[0].intent != intent || found[0].ack != expected { return Conflict; }
      replay := Replay.Replayed(found[0].ack);
    }

    /** One pass over the history with the ids seen so far and the last acknowledged actor. */
    method CheckContinuity(r: Record, sealed: Reference, ownerEpoch: string) returns (ok: bool)
      ensures ok <==> Continuity(root, role, r, sealed, ownerEpoch)
    {
      var h := r.transitions;
      if !Anchored(root, r, sealed, ownerEpoch) || r.generation != sealed.generation + |h| { return false; }
      var previous: Option<Incarnation> := None;
      var seen: set<string> := {};
      for k := 0 to |h|
        invariant seen == set i | 0 <= i < k :: h[i].id
        invariant previous == if k == 0 then None else Some(h[k - 1].ack.actor)
        invariant forall i: nat | i < k :: EntryContinues(role, r.target, h, sealed, ownerEpoch, i)
        invariant forall i, j | 0 <= i < j < k :: h[i].id != h[j].id
      {
        var intent, ack := h[k].intent, h[k].ack;
        var expected := Ack(DESIGNATION_VERSION, h[k].id, role, sealed.generation + k + 1, ownerEpoch,
                            intent.requester, Visible(r.target), Some(if k % 2 == 0 then Relinquished else Active));
        var shaped := if k % 2 == 0
                      then intent.RelinquishIntent? && (previous.Some? ==> intent.requester == previous.value)
                      else intent.ClaimIntent? && intent.nextActor == intent.requester && intent.sealed == sealed;
        if h[k].id == "" || h[k].id in seen || !shaped || intent.id != h[k].id
           || intent.fromGeneration != sealed.generation + k || intent.ownerEpoch != ownerEpoch || ack != expected
        {
          if h[k].id in seen {
            var i :| 0 <= i < k && h[i].id == h[k].id;
            assert !DistinctIds(h);
          } else {
            assert !EntryContinues(role, r.target, h, sealed, ownerEpoch, k);
          }
          return false;
        }
        seen := seen + {h[k].id};
        previous := Some(ack.actor);
      }
      ok := r.state == (if |h| % 2 == 1 then Relinquished else Active) && (previous.Some? ==> r.actor == previous.value);
    }

    method ReserveBeforeSpawn(actor: Actor, ownerEpoch: string, admissionId: string, fate: Fate) returns (reply: Reply)
      modifies this`designation
      ensures var o := OutcomeOf(root, role, old(designation), Call.ReserveBeforeSpawn(actor, ownerEpoch, admissionId));
        reply == Heard(o, fate) && designation == Stored(old(designation), o, fate)
    {
      if !Text(ownerEpoch) || admissionId == "" { return Refused(InvalidBinding); }
      if designation.Some? { return Refused(AlreadyDesignated); }
      if !actor.verified { return Refused(ActorUnavailable); }
      var failed := Commit(Record(role, 1, ownerEpoch, Pending, actor.pinned, Admission(admissionId), []), fate);
      reply := if failed then Refused(WriteFailed) else Done;
    }

    method BindPending(actor: Actor, admissionId: string, who: Option<Incarnation>, fate: Fate) returns (reply: Reply)
      modifies this`designation
      ensures var o := OutcomeOf(root, role, old(designation), Call.BindPending(actor, admissionId, who));
        reply == Heard(o, fate) && designation == Stored(old(designation), o, fate)
    {
      if designation.None? || !Readable(role, designation.value) { return Refused(Unreadable); }
      var record := designation.value;
      if record.generation != 1 || !actor.verified || record.actor != actor.pinned { return Refused(StaleActor); }
      if record.state != Pending || record.target != Admission(admissionId) { return Refused(ObligationDiffers); }
      if who.None? { return Refused(InvalidBinding); }
      record := record.(target := Pinned(who.value));
      var failed := Commit(record, fate);
      reply := if failed then Refused(WriteFailed) else Done;
    }

    method BindTarget(actor: Actor, generation: int, who: Option<Incarnation>, words: seq<int>, tokenValid: bool, fate: Fate)
      returns (reply: Reply)
      modifies this`designation
      ensures var o := OutcomeOf(root, role, old(designation), Call.BindTarget(actor, generation, who, words, tokenValid));
        reply == Heard(o, fate) && designation == Stored(old(designation), o, fate)
    {
      if designation.None? || !Readable(role, designation.value) { return Refused(Unreadable); }
      var record := designation.value;
      if record.generation != generation || !actor.verified || record.actor != actor.pinned { return Refused(StaleActor); }
      if who.None? { return Refused(InvalidBinding); }
      if record.target.Admission?
         || !SameProcess(record.target.who, who.value.pid, who.value.uid, who.value.birth) || !tokenValid
      { return Refused(TargetChanged); }
      record := record.(state := Active, target := Bound(who.value, words));
      var failed := Commit(record, fate);
      reply := if failed then Refused(WriteFailed) else Referenced(ReferenceTo(root, record));
    }

    method Transfer(actor: Actor, next: Actor, generation: int, id: string, ownerEpoch: string, dead: Option<ExitProof>,
                    fate: Fate) returns (reply: Reply)
      modifies this`designation
      ensures var o := OutcomeOf(root, role, old(designation), Call.Transfer(actor, next, generation, id, ownerEpoch, dead));
        reply == Heard(o, fate) && designation == Stored(old(designation), o, fate)
    {
      if !Text(id) || !Text(ownerEpoch) { return Refused(InvalidBinding); }
      if designation.None? || !Readable(role, designation.value) { return Refused(Unreadable); }
      if !actor.verified || !next.verified { return Refused(ActorUnavailable); }
      var record := designation.value;
      var intent := TransferIntent(id, generation, actor.pinned, next.pinned, ownerEpoch);
      var found := FindTransitions(record, id);
      if found != [] {
        if found[0].intent != intent { return Refused(ReplayConflict); }
        return Acked(found[0].ack);
      }
      if record.generation != generation || record.state != Active { return Refused(StaleGeneration); }
      if dead.None? {
        if record.actor != actor.pinned { return Refused(NotDesignatedActor); }
      } else {
        if actor.pinned != next.pinned { return Refused(NotDesignatedActor); }
        if dead.value.pinned != record.actor || !dead.value.exited { return Refused(NoExitProof); }
      }
      var ack := Ack(DESIGNATION_VERSION, id, role, generation + 1, ownerEpoch, next.pinned, Visible(record.target), None);
      record := record.(transitions := record.transitions + [Transition(id, intent, ack)]);
      record := record.(generation := generation + 1, ownerEpoch := ownerEpoch, actor := next.pinned);
      var failed := Commit(record, fate);
      reply := if failed then Refused(WriteFailed) else Acked(ack);
    }

    method Relinquish(actor: Actor, generation: int, id: string, ownerEpoch: string, fate: Fate) returns (reply: Reply)
      modifies this`designation
      ensures var o := OutcomeOf(root, role, old(designation), Call.Relinquish(actor, generation, id, ownerEpoch));
        reply == Heard(o, fate) && designation == Stored(old(designation), o, fate)
    {
      if !RuntimeBinding(role, generation, id, ownerEpoch) { return Refused(InvalidBinding); }
      if !actor.verified { return Refused(ActorUnavailable); }
      if designation.None? || !Readable(role, designation.value) { return Refused(Unreadable); }
      var record := designation.value;
      var intent := RelinquishIntent(id, generation, actor.pinned, ownerEpoch);
      var replay := ReplayOf(record, id, intent);
      if replay.Conflict? { return Refused(ReplayConflict); }
      if replay.Replayed? { return Acked(replay.ack); }
      if record.generation != generation || !actor.reverified || record.actor != actor.pinned { return Refused(StaleActor); }
      if record.state != Active || record.ownerEpoch != ownerEpoch || !record.target.Bound?
      { return Refused(CannotRelinquish); }
      var ack := Ack(DESIGNATION_VERSION, id, role, generation + 1, ownerEpoch, actor.pinned, Visible(record.target),
                     Some(Relinquished));
      record := record.(transitions := record.transitions + [Transition(id, intent, ack)]);
      record := record.(generation := generation + 1, state := Relinquished);
      var failed := Commit(record, fate);
      reply := if failed then Refused(WriteFailed) else Acked(ack);
    }

    method Claim(actor: Actor, generation: int, id: string, sealed: Reference, ownerEpoch: string,
                 observed: Option<Identity>, fate: Fate) returns (reply: Reply)
      modifies this`designation
      ensures var o := OutcomeOf(root, role, old(designation), Call.Claim(actor, generation, id, sealed, ownerEpoch, observed));
        reply == Heard(o, fate) && designation == Stored(old(designation), o, fate)
    {
      if !RuntimeBinding(role, generation, id, ownerEpoch) { return Refused(InvalidBinding); }
      if !actor.verified { return Refused(ActorUnavailable); }
      if designation.None? || !Readable(role, designation.value) { return Refused(Unreadable); }
      var record := designation.value;
      var intent := ClaimIntent(id, generation, actor.pinned, ownerEpoch, actor.pinned, sealed);
      var continuous := CheckContinuity(record, sealed, ownerEpoch);
      if !continuous { return Refused(LineageDiffers); }
      var replay := ReplayOf(record, id, intent);
      if replay.Conflict? { return Refused(ReplayConflict); }
      if replay.Replayed? { return Acked(replay.ack); }
      if record.state != Relinquished || record.generation != generation { return Refused(NotRelinquished); }
      var target := record.target;
      if observed.None? || !SameProcess(target.who, observed.value.pid, observed.value.uid, observed.value.birth)
         || actor.pinned.uid != target.who.uid
      { return Refused(ClaimantDiffers); }
      var ack := Ack(DESIGNATION_VERSION, id, role, generation + 1, ownerEpoch, actor.pinned, Visible(target), Some(Active));
      record := record.(transitions := record.transitions + [Transition(id, intent, ack)]);
      record := record.(generation := generation + 1, state := Active, actor := actor.pinned);
      var failed := Commit(record, fate);
      reply := if failed then Refused(WriteFailed) else Acked(ack);
    }

    method ReadCommitted(id: string, intent: Intent) returns (view: CommitView)
      ensures view == CommittedView(role, designation, id, intent)
    {
      if designation.None? || !Readable(role, designation.value) { return Unknown; }
      var record := designation.value;
      var replay := ReplayOf(record, id, intent);
      if replay.Conflict? { return Unknown; }
      if replay.Replayed? { return Found(replay.ack); }
      if record.ownerEpoch != intent.ownerEpoch || record.generation != intent.fromGeneration { return Unknown; }
      if intent.RelinquishIntent? && (record.state != Active || record.actor != intent.requester) { return Unknown; }
      view := NotYet;
    }
  }
}
