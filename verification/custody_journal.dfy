/**
  The broker's hash-chained journal: each event carries the digest of the one before it, of
  its own snapshot, and of itself. SHA-256 over canonical JSON is a function parameter; the
  results that need it assume it free of collisions.
 */
module CustodyJournal {
  import opened Wrappers

  const PROTOCOL_VERSION := 1
  const MAX_RUN_ID := 256

  const RUNTIME_OWNER := "runtime_owner"

  type Digest = string

  datatype Admission = Accepting | Sealed | ReadyBound

  datatype Name =
    | RegistrationPreExec | RegistrationAckCheckpoint | RegistrationPostExec | AdmissionSealed | ReadinessTokenBound

  datatype Snapshot = Snapshot(version: int, runId: string, role: string, state: Admission, sequence: int,
                               registration: Option<string>, ack: Option<string>)

  datatype Body = Body(version: int, event: Name, sequence: int, predecessor: Option<Digest>,
                       snapshotDigest: Digest, snapshot: Snapshot)

  datatype Event = Event(body: Body, digest: Digest)

  datatype Ledger = Ledger(snapshot: Snapshot, chainDigest: Digest)

  /** What is ever hashed here. */
  datatype Content = OfSnapshot(snapshot: Snapshot) | OfBody(body: Body)

  type Sha = Content -> Digest

  ghost predicate CollisionFree(sha: Sha) {
    forall a, b :: sha(a) == sha(b) ==> a == b
  }

  function HeadOf(journal: seq<Event>): Option<Digest> {
    if journal == [] then None else Some(journal[|journal| - 1].digest)
  }

  predicate Linked(sha: Sha, e: Event, predecessor: Option<Digest>) {
    && e.body.version == PROTOCOL_VERSION && e.body.predecessor == predecessor
    && e.body.snapshotDigest == sha(OfSnapshot(e.body.snapshot)) && e.digest == sha(OfBody(e.body))
  }

  predicate ValidChain(sha: Sha, journal: seq<Event>) {
    journal != [] ==>
      var n := |journal| - 1;
      ValidChain(sha, journal[..n]) && Linked(sha, journal[n], HeadOf(journal[..n]))
  }

  function EventFor(sha: Sha, head: Option<Digest>, name: Name, snapshot: Snapshot): Event {
    var body := Body(PROTOCOL_VERSION, name, snapshot.sequence, head, sha(OfSnapshot(snapshot)), snapshot);
    Event(body, sha(OfBody(body)))
  }

  /** What the loader accepts as a sealed admission. */
  predicate Accepts(sha: Sha, ledger: Ledger, journal: seq<Event>) {
    && ledger.snapshot.version == PROTOCOL_VERSION && ledger.snapshot.role == RUNTIME_OWNER
    && ledger.snapshot.state == ReadyBound && ledger.snapshot.sequence == 3 && ledger.snapshot.registration.Some?
    && 0 < |ledger.snapshot.runId| <= MAX_RUN_ID
    && ValidChain(sha, journal)
    && journal != [] && journal[|journal| - 1].body.event == ReadinessTokenBound
    && HeadOf(journal) == Some(ledger.chainDigest)
    && journal[|journal| - 1].body.snapshot == ledger.snapshot
  }

  /** The loader's single pass with a running predecessor. */
  method LoadChain(sha: Sha, ledger: Ledger, journal: seq<Event>) returns (ok: bool)
    ensures ok <==> Accepts(sha, ledger, journal)
  {
    var snapshot := ledger.snapshot;
    if snapshot.version != PROTOCOL_VERSION || snapshot.role != RUNTIME_OWNER || snapshot.state != ReadyBound
       || snapshot.sequence != 3 || snapshot.registration.None? || snapshot.runId == "" || |snapshot.runId| > MAX_RUN_ID
    { return false; }
    var predecessor: Option<Digest> := None;
    for i := 0 to |journal|
      invariant predecessor == HeadOf(journal[..i])
      invariant ValidChain(sha, journal[..i])
    {
      var event := journal[i];
      assert journal[..i + 1][..i] == journal[..i];
      if event.body.version != PROTOCOL_VERSION || event.body.predecessor != predecessor
         || event.body.snapshotDigest != sha(OfSnapshot(event.body.snapshot)) || event.digest != sha(OfBody(event.body))
      {
        if ValidChain(sha, journal) { PrefixIsChain(sha, journal, i + 1); }
        return false;
      }
      predecessor := Some(event.digest);
    }
    assert journal[..|journal|] == journal;
    ok := journal != [] && journal[|journal| - 1].body.event == ReadinessTokenBound
       && predecessor == Some(ledger.chainDigest) && journal[|journal| - 1].body.snapshot == snapshot;
  }

  /** An appended event continues the chain exactly when the journal is one and the writer knows its head. */
  lemma AppendContinuesIff(sha: Sha, journal: seq<Event>, head: Option<Digest>, name: Name, snapshot: Snapshot)
    ensures ValidChain(sha, journal + [EventFor(sha, head, name, snapshot)]) <==> ValidChain(sha, journal) && head == HeadOf(journal)
  {
    var grown := journal + [EventFor(sha, head, name, snapshot)];
    assert grown[..|journal|] == journal;
  }

  /**
    A journal ended by one more event is accepted with that event's ledger exactly when it was a chain
    whose head the writer knew, the event is the ready-token binding, and the snapshot is that of the
    Runtime owner's third and last stage with its registration.
   */
  lemma CompletedIsAcceptedIff(sha: Sha, journal: seq<Event>, head: Option<Digest>, name: Name, snapshot: Snapshot)
    ensures var e := EventFor(sha, head, name, snapshot);
      Accepts(sha, Ledger(snapshot, e.digest), journal + [e]) <==>
        && ValidChain(sha, journal) && head == HeadOf(journal) && name == ReadinessTokenBound
        && snapshot == Snapshot(1, snapshot.runId, "runtime_owner", ReadyBound, 3, snapshot.registration, snapshot.ack)
        && snapshot.registration != None && snapshot.runId != "" && |snapshot.runId| <= 256
  {
    AppendContinuesIff(sha, journal, head, name, snapshot);
  }

  lemma {:induction false} PrefixIsChain(sha: Sha, journal: seq<Event>, n: nat)
    requires ValidChain(sha, journal) && n <= |journal|
    ensures ValidChain(sha, journal[..n])
    decreases |journal|
  {
    if n == |journal| {
      assert journal[..n] == journal;
    } else {
      assert journal[..|journal| - 1][..n] == journal[..n];
      PrefixIsChain(sha, journal[..|journal| - 1], n);
    }
  }

  lemma DigestDeterminesEvent(sha: Sha, a: Event, before: Option<Digest>, b: Event, before': Option<Digest>)
    requires CollisionFree(sha) && Linked(sha, a, before) && Linked(sha, b, before') && a.digest == b.digest
    ensures a == b && before == before'
  {
    assert sha(OfBody(a.body)) == sha(OfBody(b.body));
  }

  /** Two valid chains of any lengths ending in the same digest are the same events. */
  lemma {:induction false} HeadDeterminesChain(sha: Sha, a: seq<Event>, b: seq<Event>)
    requires CollisionFree(sha) && ValidChain(sha, a) && ValidChain(sha, b) && HeadOf(a) == HeadOf(b)
    ensures a == b
    decreases |a|
  {
    if a != [] {
      var m, n := |a| - 1, |b| - 1;
      DigestDeterminesEvent(sha, a[m], HeadOf(a[..m]), b[n], HeadOf(b[..n]));
      HeadDeterminesChain(sha, a[..m], b[..n]);
      assert a == a[..m] + [a[m]] && b == b[..n] + [b[n]];
    }
  }

  /** A ledger accepts one journal only. */
  lemma LedgerBindsJournal(sha: Sha, ledger: Ledger, a: seq<Event>, b: seq<Event>)
    requires CollisionFree(sha) && Accepts(sha, ledger, a) && Accepts(sha, ledger, b)
    ensures a == b
  {
    HeadDeterminesChain(sha, a, b);
  }

  /** Where a persist may fail: before the append, after it, or only in the ledger that follows. */
  datatype Fate = Persisted | NotAppended | AppendedOnly | LedgerFailed

  /** What the frame, the identities and the kernel tokens say: refused, refused by the role's designation, or admitted. */
  datatype Peer = Refused | Unbound | Admitted

  class RoleBoundCustodyBroker {
    const sha: Sha
    const runId: string
    const role: string
    var state: Admission
    var sequence: int
    var registration: Option<string>
    var ack: Option<string>
    var chainHead: Option<Digest>
    var journal: seq<Event>
    var ledger: Option<Ledger>

    constructor (sha: Sha, runId: string, role: string)
      ensures this.sha == sha && this.runId == runId && this.role == role
      ensures state == Accepting && sequence == 0 && registration == None && ack == None && journal == [] && ledger == None
      ensures Sound()
    {
      this.sha, this.runId, this.role := sha, runId, role;
      state, sequence, registration, ack, chainHead, journal, ledger := Accepting, 0, None, None, None, [], None;
    }

    function Current(): Snapshot
      reads this
    {
      Snapshot(PROTOCOL_VERSION, runId, role, state, sequence, registration, ack)
    }

    /** The journal is a chain and the broker knows its head. */
    predicate Sound()
      reads this
    {
      ValidChain(sha, journal) && chainHead == HeadOf(journal)
    }

    method Persist(name: Name, fate: Fate) returns (ok: bool)
      modifies this`journal, this`chainHead, this`ledger
      ensures ok == (fate == Persisted)
      ensures old(Sound()) ==> ValidChain(sha, journal) && (fate != AppendedOnly ==> Sound())
      ensures fate != NotAppended ==> (ValidChain(sha, journal) <==> old(Sound()))
      ensures journal == if fate == NotAppended then old(journal)
                         else old(journal) + [EventFor(sha, old(chainHead), name, old(Current()))]
      ensures ok ==> HeadOf(journal).Some? && ledger == Some(Ledger(old(Current()), HeadOf(journal).value))
      ensures ok ==> |journal| == |old(journal)| + 1 && old(journal) <= journal && journal[|old(journal)|].body.event == name
    {
      var snapshot := Current();
      var event := EventFor(sha, chainHead, name, snapshot);
      AppendContinuesIff(sha, journal, chainHead, name, snapshot);
      if fate == NotAppended { return false; }
      journal := journal + [event];
      if fate == AppendedOnly { return false; }
      chainHead := Some(event.digest);
      if fate == LedgerFailed { return false; }
      ledger := Some(Ledger(snapshot, event.digest));
      ok := true;
    }

    /** A persist by a broker that knows its journal's head. */
    method Extend(name: Name, fate: Fate) returns (ok: bool)
      requires Sound()
      modifies this`journal, this`chainHead, this`ledger
      ensures ok == (fate == Persisted) && ValidChain(sha, journal)
      ensures ok ==> Sound() && |journal| == |old(journal)| + 1 && old(journal) <= journal && journal[|old(journal)|].body.event == name
      ensures ok ==> journal[|old(journal)|].body.snapshot == old(Current())
    {
      ok := Persist(name, fate);
    }

    /** A peer registers and its acknowledgement is checkpointed. */
    method Register(before: string, acknowledged: string, peer: Peer, first: Fate, second: Fate) returns (ok: bool)
      requires Sound()
      modifies this
      ensures ValidChain(sha, journal) && state == old(state)
      ensures ok <==> peer.Admitted? && first == Persisted && second == Persisted
      ensures !peer.Admitted? ==> journal == old(journal) && ledger == old(ledger)
      ensures ok ==> Sound() && |journal| == |old(journal)| + 2 && old(journal) <= journal
      ensures ok ==> journal[|old(journal)|].body.event == RegistrationPreExec
      ensures ok ==> journal[|old(journal)| + 1].body.event == RegistrationAckCheckpoint
      ensures ok ==> journal[|old(journal)|].body.snapshot == Snapshot(PROTOCOL_VERSION, runId, role, state, 1, Some(before), old(ack))
      ensures ok ==> journal[|old(journal)| + 1].body.snapshot == Snapshot(PROTOCOL_VERSION, runId, role, state, 1, Some(before), ack)
      ensures ok ==> ack == Some(acknowledged)
    {
      if peer.Refused? { return false; }
      sequence, registration := 1, Some(before);
      if peer.Unbound? { return false; }
      ok := Extend(RegistrationPreExec, first);
      if !ok { return; }
      ack := Some(acknowledged);
      ok := Extend(RegistrationAckCheckpoint, second);
    }

    /** The peer registers again after its exec, and the admission is sealed. */
    method Seal(after: string, peer: Peer, first: Fate, second: Fate) returns (ok: bool)
      requires Sound()
      modifies this
      ensures ValidChain(sha, journal)
      ensures ok <==> peer.Admitted? && first == Persisted && second == Persisted
      ensures !peer.Admitted? ==> journal == old(journal) && ledger == old(ledger) && state == old(state)
      ensures ok ==> Sound() && state == Sealed && sequence == 2 && registration == Some(after)
      ensures ok ==> |journal| == |old(journal)| + 2 && old(journal) <= journal
      ensures ok ==> journal[|old(journal)|].body.event == RegistrationPostExec
      ensures ok ==> journal[|old(journal)| + 1].body.event == AdmissionSealed
      ensures ok ==> journal[|old(journal)|].body.snapshot == Snapshot(PROTOCOL_VERSION, runId, role, old(state), 2, Some(after), ack)
      ensures ok ==> journal[|old(journal)| + 1].body.snapshot == Snapshot(PROTOCOL_VERSION, runId, role, Sealed, 2, Some(after), ack)
      ensures ack == old(ack)
    {
      if peer.Refused? { return false; }
      registration := Some(after);
      if peer.Unbound? { return false; }
      sequence := 2;
      ok := Extend(RegistrationPostExec, first);
      if !ok { return; }
      state := Sealed;
      ok := Extend(AdmissionSealed, second);
    }

    /** Registration, acknowledgement, post-exec binding and seal; the first failed check or persist ends the admission. */
    method Serve(before: string, acknowledged: string, after: string, first: Peer, second: Peer, fates: seq<Fate>) returns (ok: bool)
      requires Sound() && journal == [] && |fates| == 4
      modifies this
      ensures ValidChain(sha, journal)
      ensures ok <==> first.Admitted? && second.Admitted?
                      && fates[0] == Persisted && fates[1] == Persisted && fates[2] == Persisted && fates[3] == Persisted
      ensures ok ==> Sound() && state == Sealed && sequence == 2 && registration == Some(after)
      ensures ok ==>
        && |journal| == 4
        && journal[0].body.event == RegistrationPreExec && journal[1].body.event == RegistrationAckCheckpoint
        && journal[2].body.event == RegistrationPostExec && journal[3].body.event == AdmissionSealed
        && journal[0].body.snapshot == Snapshot(PROTOCOL_VERSION, runId, role, old(state), 1, Some(before), old(ack))
        && journal[1].body.snapshot == Snapshot(PROTOCOL_VERSION, runId, role, old(state), 1, Some(before), Some(acknowledged))
        && journal[2].body.snapshot == Snapshot(PROTOCOL_VERSION, runId, role, old(state), 2, Some(after), Some(acknowledged))
        && journal[3].body.snapshot == Snapshot(PROTOCOL_VERSION, runId, role, Sealed, 2, Some(after), Some(acknowledged))
      ensures !first.Admitted? ==> journal == []
    {
      ok := Register(before, acknowledged, first, fates[0], fates[1]);
      if ok {
        ok := Seal(after, second, fates[2], fates[3]);
      }
    }

    /**
      Binding the ready token completes the journal. The loader accepts what the broker wrote exactly
      when the broker still knew the head of its journal: after a seal whose append was not
      acknowledged it does not, and the binding is reported all the same.
     */
    method BindReadyToken(final: string, peer: Peer, fate: Fate) returns (ok: bool)
      modifies this
      ensures old(Sound()) ==> ValidChain(sha, journal)
      ensures ok <==> old(state) == Sealed && old(registration).Some? && peer.Admitted? && fate == Persisted
      ensures ok ==>
        && ledger.Some?
        && ledger.value.snapshot == Snapshot(PROTOCOL_VERSION, runId, role, ReadyBound, 3, Some(final), old(ack))
        && (role == RUNTIME_OWNER && 0 < |runId| <= MAX_RUN_ID ==> (Accepts(sha, ledger.value, journal) <==> old(Sound())))
      ensures ok ==> |journal| == |old(journal)| + 1 && old(journal) <= journal
      ensures !peer.Admitted? ==> journal == old(journal) && ledger == old(ledger) && state == old(state)
    {
      if state != Sealed || registration.None? { return false; }
      if peer.Refused? { return false; }
      registration := Some(final);
      if peer.Unbound? { return false; }
      sequence := 3;
      state := ReadyBound;
      if role == RUNTIME_OWNER && 0 < |runId| <= MAX_RUN_ID {
        CompletedIsAcceptedIff(sha, journal, chainHead, ReadinessTokenBound, Current());
      }
      ok := Persist(ReadinessTokenBound, fate);
    }
  }
}
