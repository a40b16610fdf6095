/**
  The cleanup guard as a machine of interleaved steps: any number of signallers under the
  shared guard, one caller at a time under the exclusive guard, each reading, deciding and
  acting in separate steps, and each able to die at any point. The log records every
  durable commit and every signal delivered, in order.
 */
module CustodyFencing {
  import opened Wrappers
  import opened CustodyRecords

  /** A signal as requested, with the numbers the platform admits and what the callbacks and the process table will answer. */
  datatype SignalRequest = SignalRequest(actor: Actor, generation: int, expected: Target, signum: int, admitted: set<int>,
                                         authorized: bool, observed: Option<Identity>)

  predicate MaySignal(role: string, file: Option<Record>, q: SignalRequest) {
    var read := ReadBack(role, file);
    && q.signum in q.admitted && read.Some?
    && var r := read.value;
       && r.generation == q.generation && q.actor.verified && r.actor == q.actor.pinned
       && q.authorized
       && r.state == Active && r.target.Bound? && Visible(r.target) == q.expected
       && q.observed.Some?
       && SameProcess(r.target.who, q.observed.value.pid, q.observed.value.uid, q.observed.value.birth)
  }

  /** How far the holder of the exclusive guard has come. */
  datatype Progress = Deciding | Decided(outcome: Outcome) | Settled

  /** What a process holding the guard is doing. */
  datatype Hold =
    | Signalling(request: SignalRequest, read: bool, seen: Option<Record>, sent: bool)
    | Calling(call: Call, progress: Progress)

  datatype Event =
    | Delivered(request: SignalRequest, words: seq<int>)
    | Wrote(call: Call, before: Option<Record>, after: Record)

  /** The designation file, the processes inside the guard, and what has happened. */
  datatype World = World(file: Option<Record>, holders: map<nat, Hold>, log: seq<Event>)

  datatype Step =
    | EnterShared(p: nat, request: SignalRequest)
    | ReadRecord(p: nat)
    | Deliver(p: nat)
    | EnterExclusive(p: nat, call: Call)
    | Decide(p: nat)
    | WriteRecord(p: nat, fate: Fate)
    | Leave(p: nat)

  predicate Enabled(role: string, w: World, s: Step) {
    match s
    case EnterShared(p, _) => p !in w.holders && forall q | q in w.holders :: w.holders[q].Signalling?
    case ReadRecord(p) => p in w.holders && w.holders[p].Signalling? && !w.holders[p].read
    case Deliver(p) =>
      && p in w.holders && w.holders[p].Signalling? && w.holders[p].read && !w.holders[p].sent
      && MaySignal(role, w.holders[p].seen, w.holders[p].request)
    case EnterExclusive(p, _) => w.holders == map[]
    case Decide(p) => p in w.holders && w.holders[p].Calling? && w.holders[p].progress.Deciding?
    case WriteRecord(p, _) =>
      && p in w.holders && w.holders[p].Calling? && w.holders[p].progress.Decided?
      && w.holders[p].progress.outcome.Write?
    case Leave(p) => p in w.holders
  }

  function Next(root: string, role: string, w: World, s: Step): World
    requires Enabled(role, w, s)
  {
    match s
    case EnterShared(p, request) => w.(holders := w.holders[p := Signalling(request, false, None, false)])
    case ReadRecord(p) => w.(holders := w.holders[p := w.holders[p].(read := true, seen := w.file)])
    case Deliver(p) =>
      var r := w.holders[p].seen.value;
      w.(holders := w.holders[p := w.holders[p].(sent := true)],
         log := w.log + [Delivered(w.holders[p].request, r.target.words)])
    case EnterExclusive(p, call) => w.(holders := map[p := Calling(call, Deciding)])
    case Decide(p) =>
      var hold := w.holders[p];
      w.(holders := w.holders[p := hold.(progress := Decided(OutcomeOf(root, role, w.file, hold.call)))])
    case WriteRecord(p, fate) =>
      var hold := w.holders[p];
      var record := hold.progress.outcome.record;
      if fate == NotCommitted then w.(holders := w.holders[p := hold.(progress := Settled)])
      else World(Some(record), w.holders[p := hold.(progress := Settled)], w.log + [Wrote(hold.call, w.file, record)])
    case Leave(p) => w.(holders := w.holders - {p})
  }

  /** Steps that are not enabled are waits: they change nothing. */
  function Play(root: string, role: string, w: World, steps: seq<Step>): World
    decreases |steps|
  {
    if steps == [] then w
    else Play(root, role, if Enabled(role, w, steps[0]) then Next(root, role, w, steps[0]) else w, steps[1..])
  }

  /** The file as the log alone tells it. */
  function FileAt(start: Option<Record>, log: seq<Event>): Option<Record> {
    if log == [] then start
    else if log[|log| - 1].Wrote? then Some(log[|log| - 1].after)
    else FileAt(start, log[..|log| - 1])
  }

  /**
    The record is active and names the requester at the requested generation; the requester was
    authenticated and authorized for an admitted number; the bound target is the one it expects,
    and the process table shows that very process.
   */
  predicate Fenced(role: string, file: Option<Record>, q: SignalRequest) {
    && file.Some? && Readable(role, file.value) && file.value.state == Active
    && file.value.actor == q.actor.pinned && file.value.generation == q.generation
    && q.actor.verified && q.authorized && q.signum in q.admitted
    && file.value.target.Bound? && q.expected == Pinned(file.value.target.who)
    && var who := file.value.target.who; q.observed == Some(Identity(who.pid, who.uid, who.birth))
  }

  /** Event `i` was lawful when it happened. */
  ghost predicate Lawful(root: string, role: string, start: Option<Record>, log: seq<Event>, i: nat)
    requires i < |log|
  {
    var file := FileAt(start, log[..i]);
    match log[i]
    case Wrote(call, before, after) =>
      before == file && exists reply :: OutcomeOf(root, role, before, call) == Write(reply, after)
    case Delivered(request, words) => Fenced(role, file, request) && file.value.target.words == words
  }

  /** The log tells the file, and each event was lawful. */
  ghost predicate Told(root: string, role: string, start: Option<Record>, w: World) {
    && FileAt(start, w.log) == w.file
    && (forall i: nat | i < |w.log| :: Lawful(root, role, start, w.log, i))
  }

  /** The holder of the exclusive guard is alone. */
  predicate Exclusive(holders: map<nat, Hold>) {
    forall p | p in holders && holders[p].Calling? :: holders.Keys == {p}
  }

  /** What a holder has read or decided is still what the file says. */
  predicate UpToDate(root: string, role: string, file: Option<Record>, hold: Hold) {
    match hold
    case Signalling(_, read, seen, _) => read ==> seen == file
    case Calling(call, progress) => progress.Decided? ==> progress.outcome == OutcomeOf(root, role, file, call)
  }

  predicate AllUpToDate(root: string, role: string, w: World) {
    forall p | p in w.holders :: UpToDate(root, role, w.file, w.holders[p])
  }

  ghost predicate Inv(root: string, role: string, start: Option<Record>, w: World) {
    Told(root, role, start, w) && Exclusive(w.holders) && AllUpToDate(root, role, w)
  }

  lemma LogGrows(root: string, role: string, start: Option<Record>, log: seq<Event>, e: Event)
    requires forall i: nat | i < |log| :: Lawful(root, role, start, log, i)
    requires Lawful(root, role, start, log + [e], |log|)
    ensures forall i: nat | i < |log + [e]| :: Lawful(root, role, start, log + [e], i)
    ensures FileAt(start, log + [e]) == if e.Wrote? then Some(e.after) else FileAt(start, log)
  {
    assert (log + [e])[..|log|] == log;
    forall i: nat | i < |log| ensures Lawful(root, role, start, log + [e], i) {
      assert (log + [e])[..i] == log[..i];
      assert Lawful(root, role, start, log, i);
    }
  }

  lemma StaysExclusive(root: string, role: string, w: World, s: Step)
    requires Exclusive(w.holders) && Enabled(role, w, s)
    ensures Exclusive(Next(root, role, w, s).holders)
  {
  }

  /** A step that writes nothing leaves the file and touches one holder only. */
  lemma QuietStaysUpToDate(root: string, role: string, w: World, s: Step)
    requires AllUpToDate(root, role, w) && Enabled(role, w, s) && !s.WriteRecord?
    ensures AllUpToDate(root, role, Next(root, role, w, s))
  {
    var w' := Next(root, role, w, s);
    forall p | p in w'.holders
      ensures UpToDate(root, role, w'.file, w'.holders[p])
    {
      if p in w.holders {
        assert UpToDate(root, role, w.file, w.holders[p]);
      }
    }
  }

  /** The writer is alone, so that no other holder's reading goes stale. */
  lemma WriteStaysUpToDate(root: string, role: string, w: World, s: Step)
    requires Exclusive(w.holders) && Enabled(role, w, s) && s.WriteRecord?
    ensures AllUpToDate(root, role, Next(root, role, w, s))
  {
    assert w.holders.Keys == {s.p};
  }

  lemma DeliveryIsTold(root: string, role: string, start: Option<Record>, w: World, s: Step)
    requires Told(root, role, start, w) && AllUpToDate(root, role, w) && Enabled(role, w, s) && s.Deliver?
    ensures Told(root, role, start, Next(root, role, w, s))
  {
    var hold := w.holders[s.p];
    assert UpToDate(root, role, w.file, hold);
    var e := Delivered(hold.request, hold.seen.value.target.words);
    assert (w.log + [e])[..|w.log|] == w.log;
    LogGrows(root, role, start, w.log, e);
  }

  lemma WriteIsTold(root: string, role: string, start: Option<Record>, w: World, s: Step)
    requires Told(root, role, start, w) && AllUpToDate(root, role, w) && Enabled(role, w, s) && s.WriteRecord?
    ensures Told(root, role, start, Next(root, role, w, s))
  {
    if s.fate != NotCommitted {
      var hold := w.holders[s.p];
      var e := Wrote(hold.call, w.file, hold.progress.outcome.record);
      assert UpToDate(root, role, w.file, hold);
      assert (w.log + [e])[..|w.log|] == w.log;
      assert OutcomeOf(root, role, w.file, hold.call) == Write(hold.progress.outcome.reply, e.after);
      LogGrows(root, role, start, w.log, e);
    }
  }

  lemma StepKeepsInv(root: string, role: string, start: Option<Record>, w: World, s: Step)
    requires Inv(root, role, start, w) && Enabled(role, w, s)
    ensures Inv(root, role, start, Next(root, role, w, s))
  {
    StaysExclusive(root, role, w, s);
    if s.WriteRecord? {
      WriteStaysUpToDate(root, role, w, s);
      WriteIsTold(root, role, start, w, s);
    } else {
      QuietStaysUpToDate(root, role, w, s);
      if s.Deliver? {
        DeliveryIsTold(root, role, start, w, s);
      }
    }
  }

  lemma {:induction false} PlayKeepsInv(root: string, role: string, start: Option<Record>, w: World, steps: seq<Step>)
    requires Inv(root, role, start, w)
    ensures Inv(root, role, start, Play(root, role, w, steps))
    decreases |steps|
  {
    if steps != [] {
      if Enabled(role, w, steps[0]) {
        StepKeepsInv(root, role, start, w, steps[0]);
        PlayKeepsInv(root, role, start, Next(root, role, w, steps[0]), steps[1..]);
      } else {
        PlayKeepsInv(root, role, start, w, steps[1..]);
      }
    }
  }

  /** No write lowers the generation. */
  lemma {:induction false} GenerationsRise(root: string, role: string, start: Option<Record>, log: seq<Event>, i: nat, j: nat)
    requires forall k: nat | k < |log| :: Lawful(root, role, start, log, k)
    requires i <= j <= |log| && FileAt(start, log[..i]).Some?
    ensures FileAt(start, log[..j]).Some?
    ensures FileAt(start, log[..i]).value.generation <= FileAt(start, log[..j]).value.generation
    decreases j - i
  {
    if i < j {
      GenerationsRise(root, role, start, log, i, j - 1);
      assert log[..j][..j - 1] == log[..j - 1];
      assert Lawful(root, role, start, log, j - 1);
    }
  }

  /**
    A signal went out only while the record was active and named its requester at its generation, to
    the process the requester meant and the process table still showed, with that target's token.
   */
  lemma SignalsAreFenced(root: string, role: string, start: Option<Record>, steps: seq<Step>, i: nat)
    requires var log := Play(root, role, World(start, map[], []), steps).log; i < |log| && log[i].Delivered?
    ensures var log := Play(root, role, World(start, map[], []), steps).log;
      var current := FileAt(start, log[..i]);
      Fenced(role, current, log[i].request) && current.value.target.words == log[i].words
  {
    var w := Play(root, role, World(start, map[], []), steps);
    PlayKeepsInv(root, role, start, World(start, map[], []), steps);
    assert Lawful(root, role, start, w.log, i);
  }

  // -- a signal that meets the fence goes out

  predicate StepsOfOthers(steps: seq<Step>, p: nat) {
    forall s | s in steps :: s.p != p
  }

  /** While one process holds the shared guard, nothing the others do changes the file or its hold. */
  lemma {:induction false} SharedGuardHoldsTheFile(root: string, role: string, w: World, p: nat, steps: seq<Step>)
    requires Exclusive(w.holders) && p in w.holders && w.holders[p].Signalling? && StepsOfOthers(steps, p)
    ensures var end := Play(root, role, w, steps);
      && Exclusive(end.holders) && p in end.holders && end.holders[p] == w.holders[p] && end.file == w.file
    decreases |steps|
  {
    if steps != [] {
      var s := steps[0];
      assert s.p != p;
      assert StepsOfOthers(steps[1..], p);
      if Enabled(role, w, s) {
        StaysExclusive(root, role, w, s);
        assert s.WriteRecord? ==> w.holders.Keys == {s.p};
        SharedGuardHoldsTheFile(root, role, Next(root, role, w, s), p, steps[1..]);
      } else {
        SharedGuardHoldsTheFile(root, role, w, p, steps[1..]);
      }
    }
  }

  function Try(root: string, role: string, w: World, s: Step): World {
    if Enabled(role, w, s) then Next(root, role, w, s) else w
  }

  /** One whole signal by `p`, with any steps of others between its own. */
  function SignalRun(root: string, role: string, w: World, p: nat, q: SignalRequest, waiting: seq<Step>, deciding: seq<Step>): World {
    var entered := Play(root, role, Try(root, role, w, EnterShared(p, q)), waiting);
    var seen := Play(root, role, Try(root, role, entered, ReadRecord(p)), deciding);
    Try(root, role, seen, Deliver(p))
  }

  /**
    A signaller that entered the guard gets its signal out exactly when the record at its entry
    fences it in, whatever others do meanwhile: the observation and the kernel call see one record.
   */
  lemma SignalIsDeliveredIff(root: string, role: string, w: World, p: nat, q: SignalRequest, waiting: seq<Step>, deciding: seq<Step>)
    requires Exclusive(w.holders) && Enabled(role, w, EnterShared(p, q))
    requires StepsOfOthers(waiting, p) && StepsOfOthers(deciding, p)
    ensures var end := SignalRun(root, role, w, p, q, waiting, deciding);
      && end.file == w.file && p in end.holders && end.holders[p].Signalling?
      && (end.holders[p].sent <==> Fenced(role, w.file, q))
      && (end.holders[p].sent ==> |end.log| > 0 && end.log[|end.log| - 1] == Delivered(q, w.file.value.target.words))
  {
    var first := Next(root, role, w, EnterShared(p, q));
    StaysExclusive(root, role, w, EnterShared(p, q));
    SharedGuardHoldsTheFile(root, role, first, p, waiting);
    var entered := Play(root, role, first, waiting);
    assert Enabled(role, entered, ReadRecord(p));
    var second := Next(root, role, entered, ReadRecord(p));
    StaysExclusive(root, role, entered, ReadRecord(p));
    SharedGuardHoldsTheFile(root, role, second, p, deciding);
    var seen := Play(root, role, second, deciding);
    assert seen.holders[p] == Signalling(q, true, w.file, false);
    assert Enabled(role, seen, Deliver(p)) <==> Fenced(role, w.file, q);
  }

  /** Once a transition out of generation g is durable, nothing is ever signalled at g or below. */
  lemma NoSignalAfterTransition(root: string, role: string, start: Option<Record>, steps: seq<Step>, i: nat, j: nat)
    requires var log := Play(root, role, World(start, map[], []), steps).log;
      && i < j < |log| && log[i].Wrote? && log[i].before.Some?
      && log[i].before.value.generation < log[i].after.generation && log[j].Delivered?
    ensures var log := Play(root, role, World(start, map[], []), steps).log;
      log[j].request.generation > log[i].before.value.generation
  {
    var log := Play(root, role, World(start, map[], []), steps).log;
    PlayKeepsInv(root, role, start, World(start, map[], []), steps);
    SignalsAreFenced(root, role, start, steps, j);
    assert log[..i + 1][|log[..i + 1]| - 1] == log[i];
    GenerationsRise(root, role, start, log, i + 1, j);
  }

  /** Between a relinquish and the next claim nothing is signalled at all. */
  lemma NoSignalWhileRelinquished(root: string, role: string, start: Option<Record>, steps: seq<Step>, i: nat, j: nat)
    requires var log := Play(root, role, World(start, map[], []), steps).log;
      && i < j < |log| && log[i].Wrote? && log[i].after.state == Relinquished
      && (forall k | i < k < j :: !log[k].Wrote?)
    ensures var log := Play(root, role, World(start, map[], []), steps).log; !log[j].Delivered?
  {
    var log := Play(root, role, World(start, map[], []), steps).log;
    FileSince(start, log, i, j);
    if log[j].Delivered? {
      SignalsAreFenced(root, role, start, steps, j);
    }
  }

  lemma {:induction false} FileSince(start: Option<Record>, log: seq<Event>, i: nat, j: nat)
    requires i < j <= |log| && log[i].Wrote? && forall k | i < k < j :: !log[k].Wrote?
    ensures FileAt(start, log[..j]) == Some(log[i].after)
    decreases j
  {
    if j > i + 1 {
      assert log[..j][..j - 1] == log[..j - 1];
      FileSince(start, log, i, j - 1);
    }
  }
}
