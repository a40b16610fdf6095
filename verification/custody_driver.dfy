/**
  The retry driver around one relinquish or claim: it attempts the call, reads the commit
  back, tries once more, and reads back a last time. Between any two of its steps other
  processes may run any custody calls, and every write may be lost before or after it
  commits.
 */
module CustodyDriver {
  import opened Wrappers
  import opened CustodyRecords
  import opened CustodyLineage

  const ATTEMPTS := 2

  /** What one attempt meets: calls by others, the guard, its own observations, the fate of the write, the read-back. */
  datatype Weather = Weather(before: seq<Attempt>, guarded: bool, verified: bool, reverified: bool, observed: Option<Identity>,
                             fate: Fate, between: seq<Attempt>, readable: bool)

  /** The driven call as one attempt makes it: every attempt verifies the actor and observes the target anew. */
  function Tried(call: Call, w: Weather): (tried: Call)
    requires RuntimeCall(call)
    ensures RuntimeCall(tried) && tried.id == call.id && IntentOf(tried) == IntentOf(call)
  {
    var actor := Actor(call.actor.pinned, w.verified, w.reverified);
    match call
    case Relinquish(_, generation, id, epoch) => Relinquish(actor, generation, id, epoch)
    case Claim(_, generation, id, sealed, epoch, _) => Claim(actor, generation, id, sealed, epoch, w.observed)
  }

  /** What the last read-back meets. */
  datatype LastLook = LastLook(before: seq<Attempt>, readable: bool)

  /** An acknowledgement, "not committed", "commit unknown", or a transition that could not even be stated. */
  datatype Verdict = Returned(ack: Ack) | NeverCommitted | Uncertain | Unstated

  datatype Driven = Driven(verdict: Verdict, file: Option<Record>)

  predicate Stateable(role: string, call: Call)
    requires RuntimeCall(call)
  {
    RuntimeBinding(role, call.generation, call.id, call.ownerEpoch) && call.actor.verified
  }

  function LookAgain(root: string, role: string, file: Option<Record>, call: Call, last: LastLook): Driven
    requires RuntimeCall(call)
  {
    var seen := Run(root, role, file, last.before);
    if !last.readable then Driven(Uncertain, seen)
    else
      match CommittedView(role, seen, call.id, IntentOf(call))
      case Unknown => Driven(Uncertain, seen)
      case Found(ack) => Driven(Returned(ack), seen)
      case NotYet => Driven(NeverCommitted, seen)
  }

  function Drive(root: string, role: string, file: Option<Record>, call: Call, weather: seq<Weather>, last: LastLook): Driven
    requires RuntimeCall(call)
    decreases |weather|
  {
    if weather == [] then LookAgain(root, role, file, call, last)
    else
      var w := weather[0];
      var seen := Run(root, role, file, w.before);
      if !w.guarded then Drive(root, role, seen, call, weather[1..], last)
      else
        var o := OutcomeOf(root, role, seen, Tried(call, w));
        var stored := Stored(seen, o, w.fate);
        if !Heard(o, w.fate).Acked? then Drive(root, role, stored, call, weather[1..], last)
        else
          var reread := Run(root, role, stored, w.between);
          var view := CommittedView(role, reread, call.id, IntentOf(call));
          if w.readable && view.Found? then Driven(Returned(view.ack), reread)
          else Drive(root, role, reread, call, weather[1..], last)
  }

  function History(file: Option<Record>): seq<Transition> {
    if file.Some? then file.value.transitions else []
  }

  /** Calls by others never use this call's transition id. */
  predicate Others(attempts: seq<Attempt>, id: string) {
    forall a | a in attempts :: TransitionCall(a.call) ==> a.call.id != id
  }

  predicate Surroundings(weather: seq<Weather>, last: LastLook, id: string) {
    Others(last.before, id) && forall w | w in weather :: Others(w.before, id) && Others(w.between, id)
  }

  lemma AppendedOnce(ts: seq<Transition>, t: Transition, id: string)
    requires DistinctIds(ts) && Matches(ts, t.id) == []
    ensures DistinctIds(ts + [t])
    ensures Matches(ts + [t], id) == if t.id == id then [t] else Matches(ts, id)
  {
    NoMatches(ts, t.id);
    MatchesAppend(ts, t, id);
  }

  lemma OtherCallLeavesMatches(root: string, role: string, file: Option<Record>, a: Attempt, id: string)
    requires DistinctIds(History(file)) && (TransitionCall(a.call) ==> a.call.id != id)
    ensures var next := After(root, role, file, a);
      DistinctIds(History(next)) && Matches(History(next), id) == Matches(History(file), id)
  {
    var o := OutcomeOf(root, role, file, a.call);
    if o.Write? {
      if TransitionCall(a.call) {
        TransitionCallAppends(root, role, file, a.call);
        AppendedOnce(file.value.transitions, Transition(a.call.id, IntentOf(a.call), o.reply.ack), id);
      } else {
        LaunchCallKeepsHistory(root, role, file, a.call);
      }
    }
  }

  lemma {:induction false} OthersLeaveMatches(root: string, role: string, file: Option<Record>, attempts: seq<Attempt>, id: string)
    requires DistinctIds(History(file)) && Others(attempts, id)
    ensures var end := Run(root, role, file, attempts);
      DistinctIds(History(end)) && Matches(History(end), id) == Matches(History(file), id)
    decreases |attempts|
  {
    if attempts != [] {
      OtherCallLeavesMatches(root, role, file, attempts[0], id);
      OthersLeaveMatches(root, role, After(root, role, file, attempts[0]), attempts[1..], id);
    }
  }

  /** The history holds this call's transition at most once, and only as the call stated it. */
  predicate AtMostOnce(file: Option<Record>, call: Call)
    requires RuntimeCall(call)
  {
    && DistinctIds(History(file))
    && var found := Matches(History(file), call.id);
       found == [] || (|found| == 1 && found[0].intent == IntentOf(call))
  }

  lemma OwnCallCommitsOnce(root: string, role: string, file: Option<Record>, call: Call, fate: Fate)
    requires RuntimeCall(call) && AtMostOnce(file, call)
    ensures AtMostOnce(After(root, role, file, Attempt(call, fate)), call)
  {
    var o := OutcomeOf(root, role, file, call);
    if o.Write? {
      TransitionCallAppends(root, role, file, call);
      AppendedOnce(file.value.transitions, Transition(call.id, IntentOf(call), o.reply.ack), call.id);
    }
  }

  /** What each verdict says about the durable history. */
  predicate Honest(d: Driven, call: Call)
    requires RuntimeCall(call)
  {
    var found := Matches(History(d.file), call.id);
    && AtMostOnce(d.file, call)
    && !d.verdict.Unstated?
    && (d.verdict.Returned? ==> found == [Transition(call.id, IntentOf(call), d.verdict.ack)])
    && (d.verdict.NeverCommitted? ==> found == [])
  }

  lemma {:induction false} EntryIsNamed(ts: seq<Transition>, id: string)
    ensures forall t | t in Matches(ts, id) :: t.id == id
  {
    if ts != [] {
      EntryIsNamed(ts[1..], id);
    }
  }

  lemma ReadBackIsHonest(role: string, file: Option<Record>, call: Call)
    requires RuntimeCall(call) && AtMostOnce(file, call)
    ensures var view := CommittedView(role, file, call.id, IntentOf(call));
      && (view.Found? ==> Honest(Driven(Returned(view.ack), file), call))
      && (view.NotYet? ==> Honest(Driven(NeverCommitted, file), call))
  {
    EntryIsNamed(History(file), call.id);
  }

  /**
    At most once, whatever the others do and whichever writes are lost: a returned
    acknowledgement is the single history entry with this id, "not committed" means the
    history holds none, and an uncertain verdict still leaves at most one.
   */
  lemma {:induction false} DriverIsAtMostOnce(root: string, role: string, file: Option<Record>, call: Call,
                                              weather: seq<Weather>, last: LastLook)
    requires RuntimeCall(call) && AtMostOnce(file, call) && Surroundings(weather, last, call.id)
    ensures Honest(Drive(root, role, file, call, weather, last), call)
    decreases |weather|
  {
    if weather == [] {
      OthersLeaveMatches(root, role, file, last.before, call.id);
      ReadBackIsHonest(role, Run(root, role, file, last.before), call);
    } else {
      var w := weather[0];
      assert Surroundings(weather[1..], last, call.id);
      var seen := Run(root, role, file, w.before);
      OthersLeaveMatches(root, role, file, w.before, call.id);
      if !w.guarded {
        DriverIsAtMostOnce(root, role, seen, call, weather[1..], last);
      } else {
        OwnCallCommitsOnce(root, role, seen, Tried(call, w), w.fate);
        var stored := After(root, role, seen, Attempt(Tried(call, w), w.fate));
        var reread := Run(root, role, stored, w.between);
        OthersLeaveMatches(root, role, stored, w.between, call.id);
        ReadBackIsHonest(role, reread, call);
        DriverIsAtMostOnce(root, role, stored, call, weather[1..], last);
        DriverIsAtMostOnce(root, role, reread, call, weather[1..], last);
      }
    }
  }

  // -- a commit whose acknowledgement was lost

  predicate Transitions(attempts: seq<Attempt>) {
    forall a | a in attempts :: TransitionCall(a.call)
  }

  /** Entry `k` of a readable record is the call's own, with the acknowledgement it must carry. */
  predicate HoldsEntry(file: Option<Record>, call: Call, ack: Ack, k: nat)
    requires RuntimeCall(call)
  {
    && file.Some? && Readable(RUNTIME_OWNER, file.value) && DistinctIds(file.value.transitions)
    && k < |file.value.transitions| && file.value.transitions[k] == Transition(call.id, IntentOf(call), ack)
    && ack == RuntimeAck(RUNTIME_OWNER, file.value.target, IntentOf(call))
  }

  lemma HeldIsFound(file: Option<Record>, call: Call, ack: Ack, k: nat)
    requires RuntimeCall(call) && HoldsEntry(file, call, ack, k)
    ensures CommittedView(RUNTIME_OWNER, file, call.id, IntentOf(call)) == Found(ack)
  {
    OneMatch(file.value.transitions, k);
  }

  /** No transition call by anyone, with any fate of its write, takes the entry away. */
  lemma HeldStays(root: string, file: Option<Record>, call: Call, ack: Ack, k: nat, attempts: seq<Attempt>)
    requires RuntimeCall(call) && HoldsEntry(file, call, ack, k) && Transitions(attempts)
    ensures HoldsEntry(Run(root, RUNTIME_OWNER, file, attempts), call, ack, k)
  {
    TransitionRunExtends(root, RUNTIME_OWNER, file.value, attempts);
  }

  lemma HeldStaysAfterOne(root: string, file: Option<Record>, call: Call, ack: Ack, k: nat, a: Attempt)
    requires RuntimeCall(call) && HoldsEntry(file, call, ack, k) && TransitionCall(a.call)
    ensures HoldsEntry(After(root, RUNTIME_OWNER, file, a), call, ack, k)
  {
    TransitionCallExtends(root, RUNTIME_OWNER, file.value, a);
  }

  /** The surroundings run transition calls only, whatever ids they use. */
  predicate Busy(weather: seq<Weather>, last: LastLook) {
    Transitions(last.before) && forall w | w in weather :: Transitions(w.before) && Transitions(w.between)
  }

  /**
    Once the call's transition is in the file, the rest of the drive returns its acknowledgement:
    for any number of attempts, whatever they observe and whatever transition calls others make
    around them, provided the last look can read the file.
   */
  lemma {:induction false} CommittedIsReturned(root: string, file: Option<Record>, call: Call, ack: Ack, k: nat,
                                               weather: seq<Weather>, last: LastLook)
    requires RuntimeCall(call) && HoldsEntry(file, call, ack, k) && Busy(weather, last) && last.readable
    ensures var d := Drive(root, RUNTIME_OWNER, file, call, weather, last);
      d.verdict == Returned(ack) && HoldsEntry(d.file, call, ack, k)
    decreases |weather|
  {
    if weather == [] {
      HeldStays(root, file, call, ack, k, last.before);
      HeldIsFound(Run(root, RUNTIME_OWNER, file, last.before), call, ack, k);
    } else {
      var w := weather[0];
      assert Busy(weather[1..], last);
      var seen := Run(root, RUNTIME_OWNER, file, w.before);
      HeldStays(root, file, call, ack, k, w.before);
      if !w.guarded {
        CommittedIsReturned(root, seen, call, ack, k, weather[1..], last);
      } else {
        var stored := After(root, RUNTIME_OWNER, seen, Attempt(Tried(call, w), w.fate));
        HeldStaysAfterOne(root, seen, call, ack, k, Attempt(Tried(call, w), w.fate));
        var reread := Run(root, RUNTIME_OWNER, stored, w.between);
        HeldStays(root, stored, call, ack, k, w.between);
        HeldIsFound(reread, call, ack, k);
        CommittedIsReturned(root, stored, call, ack, k, weather[1..], last);
        CommittedIsReturned(root, reread, call, ack, k, weather[1..], last);
      }
    }
  }

  lemma WrittenIsHeld(root: string, r: Record, tried: Call, ack: Ack, committed: Record)
    requires RuntimeCall(tried) && DistinctIds(r.transitions)
    requires OutcomeOf(root, RUNTIME_OWNER, Some(r), tried) == Write(Acked(ack), committed)
    ensures HoldsEntry(Some(committed), tried, ack, |r.transitions|)
  {
    TransitionCallAppends(root, RUNTIME_OWNER, Some(r), tried);
    TransitionCallExtends(root, RUNTIME_OWNER, r, Attempt(tried, Committed));
  }

  /**
    A write that committed and lost its acknowledgement is still acknowledged, in the midst of any
    transition calls by others: a later attempt replays it, or the last look finds it.
   */
  lemma LostAckIsRecovered(root: string, r: Record, call: Call, ack: Ack, committed: Record, w: Weather, rest: seq<Weather>,
                           last: LastLook)
    requires RuntimeCall(call) && w.guarded && w.fate == LostAck
    requires var seen := Run(root, RUNTIME_OWNER, Some(r), w.before);
      && seen.Some? && DistinctIds(seen.value.transitions)
      && OutcomeOf(root, RUNTIME_OWNER, seen, Tried(call, w)) == Write(Acked(ack), committed)
    requires Busy(rest, last) && last.readable
    ensures Drive(root, RUNTIME_OWNER, Some(r), call, [w] + rest, last).verdict == Returned(ack)
  {
    var seen := Run(root, RUNTIME_OWNER, Some(r), w.before);
    assert ([w] + rest)[1..] == rest;
    WrittenIsHeld(root, seen.value, Tried(call, w), ack, committed);
    CommittedIsReturned(root, Some(committed), call, ack, |seen.value.transitions|, rest, last);
  }

  lemma CommittedReplays(root: string, r: Record, call: Call, again: Call, ack: Ack, committed: Record)
    requires RuntimeCall(call) && DistinctIds(r.transitions)
    requires RuntimeCall(again) && IntentOf(again) == IntentOf(call)
    requires OutcomeOf(root, RUNTIME_OWNER, Some(r), call) == Write(Acked(ack), committed)
    ensures OutcomeOf(root, RUNTIME_OWNER, Some(committed), again)
         == NoWrite(if Verifies(again) then Acked(ack) else Refused(ActorUnavailable))
  {
    if call.Relinquish? {
      ReplayIsStable(root, RUNTIME_OWNER, Some(r), call, again, ack, committed, []);
    } else {
      ClaimReplayIsStable(root, r, call, again, ack, committed, []);
      ClaimCommits(root, r, call, ack, committed);
      if Transferred(committed.transitions) {
        TransferredIsRefused(root, committed, call.sealed, call.ownerEpoch);
      }
    }
  }

  lemma SecondAttemptReturns(root: string, committed: Record, call: Call, ack: Ack, k: nat, w: Weather, last: LastLook)
    requires RuntimeCall(call) && HoldsEntry(Some(committed), call, ack, k) && w.before == [] && w.between == [] && last.before == []
    requires last.readable || (w.guarded && w.verified && w.readable)
    requires OutcomeOf(root, RUNTIME_OWNER, Some(committed), Tried(call, w))
          == NoWrite(if w.verified then Acked(ack) else Refused(ActorUnavailable))
    ensures Drive(root, RUNTIME_OWNER, Some(committed), call, [w], last) == Driven(Returned(ack), Some(committed))
  {
    assert [w][1..] == [];
    HeldIsFound(Some(committed), call, ack, k);
  }

  /** When nobody interferes, a second attempt that gets through recovers it even if the last look cannot read. */
  lemma QuietRetryRecovers(root: string, r: Record, call: Call, ack: Ack, committed: Record, w1: Weather, w2: Weather, last: LastLook)
    requires RuntimeCall(call) && DistinctIds(r.transitions)
    requires OutcomeOf(root, RUNTIME_OWNER, Some(r), Tried(call, w1)) == Write(Acked(ack), committed)
    requires w1.before == [] && w1.guarded && w1.fate == LostAck
    requires w2.before == [] && w2.between == [] && last.before == []
    requires last.readable || (w2.guarded && w2.verified && w2.readable)
    ensures Drive(root, RUNTIME_OWNER, Some(r), call, [w1, w2], last) == Driven(Returned(ack), Some(committed))
  {
    assert [w1, w2][1..] == [w2];
    WrittenIsHeld(root, r, Tried(call, w1), ack, committed);
    CommittedReplays(root, r, Tried(call, w1), Tried(call, w2), ack, committed);
    SecondAttemptReturns(root, committed, call, ack, |r.transitions|, w2, last);
  }

  // -- the verdict, exactly

  /** What one attempt leaves in the file when the drive goes on after it. */
  function AfterAttempt(root: string, role: string, file: Option<Record>, call: Call, w: Weather): Option<Record>
    requires RuntimeCall(call)
  {
    var seen := Run(root, role, file, w.before);
    if !w.guarded then seen
    else
      var stored := After(root, role, seen, Attempt(Tried(call, w), w.fate));
      if HearsAck(root, role, file, call, w) then Run(root, role, stored, w.between) else stored
  }

  /** The attempt entered the guard and its call was answered with an acknowledgement. */
  predicate HearsAck(root: string, role: string, file: Option<Record>, call: Call, w: Weather)
    requires RuntimeCall(call)
  {
    w.guarded && Heard(OutcomeOf(root, role, Run(root, role, file, w.before), Tried(call, w)), w.fate).Acked?
  }

  /** The file as attempt `i` finds it, when no earlier attempt ended the drive. */
  function FileAt(root: string, role: string, file: Option<Record>, call: Call, weather: seq<Weather>, i: nat): Option<Record>
    requires RuntimeCall(call) && i <= |weather|
  {
    if i == 0 then file
    else AfterAttempt(root, role, FileAt(root, role, file, call, weather, i - 1), call, weather[i - 1])
  }

  lemma {:induction false} FileAtShifts(root: string, role: string, file: Option<Record>, call: Call, weather: seq<Weather>, i: nat)
    requires RuntimeCall(call) && i < |weather|
    ensures FileAt(root, role, file, call, weather, i + 1)
         == FileAt(root, role, AfterAttempt(root, role, file, call, weather[0]), call, weather[1..], i)
    decreases i
  {
    if i > 0 {
      FileAtShifts(root, role, file, call, weather, i - 1);
    }
  }

  /** The history holds the call's entry, once, with the acknowledgement it must carry today. */
  predicate EntryStands(role: string, file: Option<Record>, call: Call)
    requires RuntimeCall(call)
  {
    && file.Some? && Readable(role, file.value)
    && var found := Matches(file.value.transitions, call.id);
       && |found| == 1 && found[0].intent == IntentOf(call)
       && found[0].ack == RuntimeAck(RUNTIME_OWNER, file.value.target, IntentOf(call))
  }

  /** The history lacks the call's entry and the record is still as the call expects it. */
  predicate StillExpected(role: string, file: Option<Record>, call: Call)
    requires RuntimeCall(call)
  {
    && file.Some? && Readable(role, file.value)
    && (forall t | t in file.value.transitions :: t.id != call.id)
    && file.value.ownerEpoch == call.ownerEpoch && file.value.generation == call.generation
    && (call.Relinquish? ==> file.value.state == Active && file.value.actor == call.actor.pinned)
  }

  lemma ViewIsExact(role: string, file: Option<Record>, call: Call)
    requires RuntimeCall(call)
    ensures var view := CommittedView(role, file, call.id, IntentOf(call));
      && (view.Found? <==> EntryStands(role, file, call))
      && (view.NotYet? <==> StillExpected(role, file, call))
      && (view.Found? ==> view.ack == RuntimeAck(RUNTIME_OWNER, file.value.target, IntentOf(call)))
  {
    if file.Some? {
      NoMatches(file.value.transitions, call.id);
    }
  }

  /** The attempt was acknowledged and its read-back finds the entry. */
  predicate Confirms(root: string, role: string, file: Option<Record>, call: Call, w: Weather)
    requires RuntimeCall(call)
  {
    && HearsAck(root, role, file, call, w) && w.readable
    && EntryStands(role, AfterAttempt(root, role, file, call, w), call)
  }

  predicate ConfirmsAt(root: string, role: string, file: Option<Record>, call: Call, weather: seq<Weather>, i: nat)
    requires RuntimeCall(call) && i < |weather|
  {
    Confirms(root, role, FileAt(root, role, file, call, weather, i), call, weather[i])
  }

  predicate SomeConfirms(root: string, role: string, file: Option<Record>, call: Call, weather: seq<Weather>)
    requires RuntimeCall(call)
  {
    exists i: nat :: i < |weather| && ConfirmsAt(root, role, file, call, weather, i)
  }

  lemma SomeConfirmsShifts(root: string, role: string, file: Option<Record>, call: Call, weather: seq<Weather>)
    requires RuntimeCall(call) && weather != []
    ensures SomeConfirms(root, role, file, call, weather) <==>
              || Confirms(root, role, file, call, weather[0])
              || SomeConfirms(root, role, AfterAttempt(root, role, file, call, weather[0]), call, weather[1..])
  {
    var next := AfterAttempt(root, role, file, call, weather[0]);
    if i: nat :| i < |weather| && ConfirmsAt(root, role, file, call, weather, i) {
      if i > 0 {
        FileAtShifts(root, role, file, call, weather, i - 1);
        assert ConfirmsAt(root, role, next, call, weather[1..], i - 1);
      }
    }
    if Confirms(root, role, file, call, weather[0]) {
      assert ConfirmsAt(root, role, file, call, weather, 0);
    }
    if i: nat :| i < |weather[1..]| && ConfirmsAt(root, role, next, call, weather[1..], i) {
      FileAtShifts(root, role, file, call, weather, i);
      assert ConfirmsAt(root, role, file, call, weather, i + 1);
    }
  }

  /** The file the last look reads. */
  function LastSeen(root: string, role: string, file: Option<Record>, call: Call, weather: seq<Weather>, last: LastLook): Option<Record>
    requires RuntimeCall(call)
  {
    Run(root, role, FileAt(root, role, file, call, weather, |weather|), last.before)
  }

  /**
    The verdict, for any attempts and any calls by others. An acknowledgement is returned exactly if
    some attempt is confirmed or the last look finds the entry standing; "not committed" is said
    exactly if none is and the last look finds the record as the call expects it; and the commit is
    unknown exactly if none is and the last look cannot read, or finds neither.
   */
  lemma {:induction false} VerdictIsExact(root: string, role: string, file: Option<Record>, call: Call, weather: seq<Weather>, last: LastLook)
    requires RuntimeCall(call)
    ensures var verdict := Drive(root, role, file, call, weather, last).verdict;
      var confirmed := SomeConfirms(root, role, file, call, weather);
      var seen := LastSeen(root, role, file, call, weather, last);
      && (verdict.Returned? <==> confirmed || (last.readable && EntryStands(role, seen, call)))
      && (verdict.NeverCommitted? <==> !confirmed && last.readable && StillExpected(role, seen, call))
      && (verdict.Uncertain? <==> !confirmed && (last.readable ==> !EntryStands(role, seen, call) && !StillExpected(role, seen, call)))
    decreases |weather|
  {
    if weather == [] {
      ViewIsExact(role, Run(root, role, file, last.before), call);
    } else {
      var w := weather[0];
      var next := AfterAttempt(root, role, file, call, w);
      SomeConfirmsShifts(root, role, file, call, weather);
      FileAtShifts(root, role, file, call, weather, |weather| - 1);
      VerdictIsExact(root, role, next, call, weather[1..], last);
      ViewIsExact(role, next, call);
    }
  }

  // -- an attempt that was acknowledged

  /** An acknowledged call, writing or replaying, leaves its entry in the file. */
  lemma AckedIsHeld(root: string, file: Option<Record>, tried: Call, fate: Fate) returns (k: nat)
    requires RuntimeCall(tried) && DistinctIds(History(file))
    requires Heard(OutcomeOf(root, RUNTIME_OWNER, file, tried), fate).Acked?
    ensures HoldsEntry(After(root, RUNTIME_OWNER, file, Attempt(tried, fate)), tried,
                       Heard(OutcomeOf(root, RUNTIME_OWNER, file, tried), fate).ack, k)
  {
    var o := OutcomeOf(root, RUNTIME_OWNER, file, tried);
    if o.Write? {
      WrittenIsHeld(root, file.value, tried, o.reply.ack, o.record);
      k := |file.value.transitions|;
    } else {
      k := MatchIsHeld(file.value, tried);
    }
  }

  lemma MatchIsHeld(r: Record, tried: Call) returns (k: nat)
    requires RuntimeCall(tried) && Readable(RUNTIME_OWNER, r) && DistinctIds(r.transitions)
    requires ReplayRuntime(r, tried.id, IntentOf(tried)).Replayed?
    ensures HoldsEntry(Some(r), tried, ReplayRuntime(r, tried.id, IntentOf(tried)).ack, k)
  {
    NoMatches(r.transitions, tried.id);
    k :| k < |r.transitions| && r.transitions[k].id == tried.id;
    OneMatch(r.transitions, k);
  }

  /**
    An acknowledged attempt whose read-back gets through ends the drive there and then with that
    acknowledgement, through any transition calls by others.
   */
  lemma AcknowledgedEndsTheDrive(root: string, file: Option<Record>, call: Call, w: Weather, rest: seq<Weather>, last: LastLook)
    requires RuntimeCall(call) && DistinctIds(History(Run(root, RUNTIME_OWNER, file, w.before))) && Transitions(w.between)
    requires HearsAck(root, RUNTIME_OWNER, file, call, w) && w.readable
    ensures var seen := Run(root, RUNTIME_OWNER, file, w.before);
      var reply := Heard(OutcomeOf(root, RUNTIME_OWNER, seen, Tried(call, w)), w.fate);
      Drive(root, RUNTIME_OWNER, file, call, [w] + rest, last)
        == Driven(Returned(reply.ack), AfterAttempt(root, RUNTIME_OWNER, file, call, w))
  {
    var seen := Run(root, RUNTIME_OWNER, file, w.before);
    var reply := Heard(OutcomeOf(root, RUNTIME_OWNER, seen, Tried(call, w)), w.fate);
    var stored := After(root, RUNTIME_OWNER, seen, Attempt(Tried(call, w), w.fate));
    var k := AckedIsHeld(root, seen, Tried(call, w), w.fate);
    HeldStays(root, stored, call, reply.ack, k, w.between);
    HeldIsFound(Run(root, RUNTIME_OWNER, stored, w.between), call, reply.ack, k);
  }

  /** An attempt amid transition calls keeps the target and the ids distinct; with nothing designated it writes nothing. */
  lemma AttemptExtends(root: string, file: Option<Record>, call: Call, w: Weather)
    requires RuntimeCall(call) && DistinctIds(History(file)) && Transitions(w.before) && Transitions(w.between)
    ensures var seen := Run(root, RUNTIME_OWNER, file, w.before);
      var next := AfterAttempt(root, RUNTIME_OWNER, file, call, w);
      && DistinctIds(History(seen)) && DistinctIds(History(next))
      && (file.Some? ==> seen.Some? && seen.value.target == file.value.target
                         && next.Some? && next.value.target == file.value.target)
      && (file.None? ==> seen.None? && next.None?)
  {
    if file.None? {
      NothingToMove(root, w.before);
      NothingToMove(root, w.between);
    } else {
      TransitionRunExtends(root, RUNTIME_OWNER, file.value, w.before);
      var seen := Run(root, RUNTIME_OWNER, file, w.before).value;
      TransitionCallExtends(root, RUNTIME_OWNER, seen, Attempt(Tried(call, w), w.fate));
      var stored := After(root, RUNTIME_OWNER, Some(seen), Attempt(Tried(call, w), w.fate)).value;
      TransitionRunExtends(root, RUNTIME_OWNER, stored, w.between);
    }
  }

  lemma {:induction false} NothingToMove(root: string, attempts: seq<Attempt>)
    requires Transitions(attempts)
    ensures Run(root, RUNTIME_OWNER, None, attempts) == None
    decreases |attempts|
  {
    if attempts != [] {
      assert TransitionCall(attempts[0].call);
      NothingToMove(root, attempts[1..]);
    }
  }

  /** An acknowledgement is the one the call's intent and the target determine. */
  lemma AckIsDetermined(root: string, seen: Option<Record>, tried: Call, fate: Fate)
    requires RuntimeCall(tried) && Heard(OutcomeOf(root, RUNTIME_OWNER, seen, tried), fate).Acked?
    ensures seen.Some?
    ensures Heard(OutcomeOf(root, RUNTIME_OWNER, seen, tried), fate).ack
         == RuntimeAck(RUNTIME_OWNER, seen.value.target, IntentOf(tried))
  {
  }

  /**
    If any attempt of the drive is acknowledged and can read back, the verdict is that call's
    acknowledgement: whatever the other attempts and the last look meet, and through any transition
    calls by others.
   */
  lemma {:induction false} AcknowledgedIsReturned(root: string, file: Option<Record>, call: Call, weather: seq<Weather>,
                                                  last: LastLook, i: nat)
    requires RuntimeCall(call) && DistinctIds(History(file)) && Busy(weather, last) && i < |weather|
    requires HearsAck(root, RUNTIME_OWNER, FileAt(root, RUNTIME_OWNER, file, call, weather, i), call, weather[i]) && weather[i].readable
    ensures file.Some?
    ensures Drive(root, RUNTIME_OWNER, file, call, weather, last).verdict
         == Returned(RuntimeAck(RUNTIME_OWNER, file.value.target, IntentOf(call)))
    decreases |weather|
  {
    var w := weather[0];
    assert [w] + weather[1..] == weather;
    AttemptExtends(root, file, call, w);
    if HearsAck(root, RUNTIME_OWNER, file, call, w) && w.readable {
      AcknowledgedEndsTheDrive(root, file, call, w, weather[1..], last);
      AckIsDetermined(root, Run(root, RUNTIME_OWNER, file, w.before), Tried(call, w), w.fate);
    } else {
      FileAtShifts(root, RUNTIME_OWNER, file, call, weather, i - 1);
      assert Busy(weather[1..], last);
      AcknowledgedIsReturned(root, AfterAttempt(root, RUNTIME_OWNER, file, call, w), call, weather[1..], last, i - 1);
    }
  }

  /** A transition asked of a record that can be read, with a binding that can be stated, is driven; any other is not even tried. */
  function Asked(root: string, role: string, file: Option<Record>, call: Call, weather: seq<Weather>, last: LastLook): Driven
    requires RuntimeCall(call)
  {
    if file.Some? && Readable(role, file.value) && Stateable(role, call) then Drive(root, role, file, call, weather, last)
    else Driven(Unstated, file)
  }

  /** The launch controller: its local generation and the anchor kept from its own release. */
  class RuntimeBoundary {
    const authority: RoleCustodyAuthority
    const actor: Actor
    const ownerEpoch: string
    var custodyGeneration: int
    var releasedAnchor: Option<Reference>

    constructor (authority: RoleCustodyAuthority, actor: Actor, ownerEpoch: string, generation: int)
      ensures this.authority == authority && this.actor == actor && this.ownerEpoch == ownerEpoch
      ensures custodyGeneration == generation && releasedAnchor == None
    {
      this.authority, this.actor, this.ownerEpoch := authority, actor, ownerEpoch;
      custodyGeneration, releasedAnchor := generation, None;
    }

    method OthersRun(attempts: seq<Attempt>)
      modifies authority`designation
      ensures authority.designation == Run(authority.root, authority.role, old(authority.designation), attempts)
    {
      authority.designation := Run(authority.root, authority.role, authority.designation, attempts);
    }

    method CommitOwnerTransition(call: Call, weather: seq<Weather>, last: LastLook) returns (verdict: Verdict)
      requires RuntimeCall(call) && |weather| == ATTEMPTS
      modifies authority`designation
      ensures !Stateable(authority.role, call) ==> verdict == Unstated && authority.designation == old(authority.designation)
      ensures Stateable(authority.role, call) ==>
        Driven(verdict, authority.designation)
          == Drive(authority.root, authority.role, old(authority.designation), call, weather, last)
    {
      if !Stateable(authority.role, call) { return Unstated; }
      var intent := IntentOf(call);
      for i := 0 to ATTEMPTS
        invariant Drive(authority.root, authority.role, authority.designation, call, weather[i..], last)
               == Drive(authority.root, authority.role, old(authority.designation), call, weather, last)
      {
        var w := weather[i];
        assert weather[i..][1..] == weather[i + 1..];
        OthersRun(w.before);
        if w.guarded {
          var reply;
          var caller := Actor(call.actor.pinned, w.verified, w.reverified);
          if call.Relinquish? {
            reply := authority.Relinquish(caller, call.generation, call.id, call.ownerEpoch, w.fate);
          } else {
            reply := authority.Claim(caller, call.generation, call.id, call.sealed, call.ownerEpoch, w.observed, w.fate);
          }
          if reply.Acked? {
            OthersRun(w.between);
            if w.readable {
              var view := authority.ReadCommitted(call.id, intent);
              if view.Found? { return Returned(view.ack); }
            }
          }
        }
      }
      OthersRun(last.before);
      if !last.readable { return Uncertain; }
      var view := authority.ReadCommitted(call.id, intent);
      match view
      case Unknown => verdict := Uncertain;
      case Found(ack) => verdict := Returned(ack);
      case NotYet => verdict := NeverCommitted;
    }

    /**
      Only a reread acknowledgement moves the local generation, to one its durable entry carries; the
      anchor kept with it is the reference read before the release.
     */
    method ReleaseOwnerCustody(id: string, weather: seq<Weather>, last: LastLook) returns (verdict: Verdict)
      requires |weather| == ATTEMPTS && Surroundings(weather, last, id)
      requires DistinctIds(History(authority.designation)) && Matches(History(authority.designation), id) == []
      modifies this`custodyGeneration, this`releasedAnchor, authority`designation
      ensures var call := Relinquish(actor, old(custodyGeneration), id, ownerEpoch);
        var found := Matches(History(authority.designation), id);
        && (verdict.Returned? ==>
              && found == [Transition(id, IntentOf(call), verdict.ack)]
              && custodyGeneration == verdict.ack.generation
              && old(authority.designation).Some?
              && releasedAnchor == Some(ReferenceTo(authority.root, old(authority.designation).value)))
        && (!verdict.Returned? ==> custodyGeneration == old(custodyGeneration) && releasedAnchor == old(releasedAnchor))
        && (verdict.NeverCommitted? || verdict.Unstated? ==> found == [])
        && |found| <= 1
        && Driven(verdict, authority.designation) == Asked(authority.root, authority.role, old(authority.designation), call, weather, last)
    {
      if authority.designation.None? || !Readable(authority.role, authority.designation.value) { return Unstated; }
      var anchor := ReferenceTo(authority.root, authority.designation.value);
      var call := Relinquish(actor, custodyGeneration, id, ownerEpoch);
      DriverIsAtMostOnce(authority.root, authority.role, authority.designation, call, weather, last);
      verdict := CommitOwnerTransition(call, weather, last);
      if verdict.Returned? {
        custodyGeneration := verdict.ack.generation;
        releasedAnchor := Some(anchor);
      }
    }

    /** Taking custody back before a stop: a claim at the current generation against the kept anchor. */
    method ReclaimBeforeStop(id: string, weather: seq<Weather>, last: LastLook)
      returns (verdict: Verdict)
      requires |weather| == ATTEMPTS && Surroundings(weather, last, id)
      requires DistinctIds(History(authority.designation)) && Matches(History(authority.designation), id) == []
      requires releasedAnchor.Some?
      modifies this`custodyGeneration, this`releasedAnchor, authority`designation
      ensures verdict.Returned? ==>
        && releasedAnchor == None && custodyGeneration == verdict.ack.generation
        && |Matches(History(authority.designation), id)| == 1
        && Matches(History(authority.designation), id)[0].ack == verdict.ack
        && Matches(History(authority.designation), id)[0].intent.ClaimIntent?
        && Some(Matches(History(authority.designation), id)[0].intent.sealed) == old(releasedAnchor)
      ensures !verdict.Returned? ==> custodyGeneration == old(custodyGeneration) && releasedAnchor == old(releasedAnchor)
      ensures verdict.NeverCommitted? || verdict.Unstated? ==> Matches(History(authority.designation), id) == []
      ensures old(authority.designation).Some? ==>
        var call := Claim(actor, old(authority.designation).value.generation, id, old(releasedAnchor).value, ownerEpoch, None);
        Driven(verdict, authority.designation) == Asked(authority.root, authority.role, old(authority.designation), call, weather, last)
    {
      if authority.designation.None? || !Readable(authority.role, authority.designation.value) { return Unstated; }
      var generation := authority.designation.value.generation;
      var call := Claim(actor, generation, id, releasedAnchor.value, ownerEpoch, None);
      DriverIsAtMostOnce(authority.root, authority.role, authority.designation, call, weather, last);
      verdict := CommitOwnerTransition(call, weather, last);
      if verdict.Returned? {
        custodyGeneration := verdict.ack.generation;
        releasedAnchor := None;
      }
    }
  }
}
