/**
  Closing an authority scope: admitters take the shared lock and only then look for the
  close marker; closers write the marker and only then ask for the exclusive lock. Any
  number of both interleave, and each may give up, fail or die between two steps.
 */
module ScopeClose {

  datatype Phase =
    | Checking      // admitter: shared lock held, marker not looked at yet
    | Admitted      // admitter: shared lock held, admission granted
    | Closing       // closer: lock file open, marker not written yet
    | Polling       // closer: marker exists, asking for the exclusive lock
    | Draining      // closer: exclusive lock held, drain reported

  datatype Event = Admission(p: nat) | Refusal(p: nat) | Marked(p: nat) | Drained(p: nat) | Released(p: nat)

  datatype World = World(marker: bool, at: map<nat, Phase>, log: seq<Event>)

  datatype Step =
    | LockShared(p: nat)
    | LookForMarker(p: nat)
    | BeginClose(p: nat)
    | WriteMarker(p: nat)
    | LockExclusive(p: nat)
    | Leave(p: nat)

  predicate Locks(phase: Phase) {
    phase.Checking? || phase.Admitted? || phase.Draining?
  }

  predicate Enabled(w: World, s: Step) {
    match s
    case LockShared(p) => p !in w.at && forall q | q in w.at :: !w.at[q].Draining?
    case LookForMarker(p) => p in w.at && w.at[p].Checking?
    case BeginClose(p) => p !in w.at
    case WriteMarker(p) => p in w.at && w.at[p].Closing?
    case LockExclusive(p) => p in w.at && w.at[p].Polling? && forall q | q in w.at :: !Locks(w.at[q])
    case Leave(p) => p in w.at
  }

  function Next(w: World, s: Step): World
    requires Enabled(w, s)
  {
    match s
    case LockShared(p) => w.(at := w.at[p := Checking])
    case LookForMarker(p) =>
      if w.marker then w.(at := w.at - {p}, log := w.log + [Refusal(p)])
      else w.(at := w.at[p := Admitted], log := w.log + [Admission(p)])
    case BeginClose(p) => w.(at := w.at[p := Closing])
    case WriteMarker(p) => World(true, w.at[p := Polling], w.log + [Marked(p)])
    case LockExclusive(p) => w.(at := w.at[p := Draining], log := w.log + [Drained(p)])
    case Leave(p) => w.(at := w.at - {p}, log := w.log + [Released(p)])
  }

  /** A step that is not enabled is a failed poll: nothing changes. */
  function Play(w: World, steps: seq<Step>): World
    decreases |steps|
  {
    if steps == [] then w else Play(if Enabled(w, steps[0]) then Next(w, steps[0]) else w, steps[1..])
  }

  const OPEN := World(false, map[], [])

  predicate Inv(w: World) {
    && (forall p | p in w.at && (w.at[p].Polling? || w.at[p].Draining?) :: w.marker)
    && (forall p, q | p in w.at && q in w.at && w.at[p].Draining? && Locks(w.at[q]) :: p == q)
    && (forall i | 0 <= i < |w.log| && (w.log[i].Marked? || w.log[i].Drained?) :: w.marker)
    && (w.marker ==> exists i :: 0 <= i < |w.log| && w.log[i].Marked?)
    && (forall i | 0 <= i < |w.log| && w.log[i].Drained? :: forall p | p in w.at :: !w.at[p].Admitted?)
    && (forall i, j | 0 <= i < j < |w.log| && (w.log[i].Marked? || w.log[i].Drained?) :: !w.log[j].Admission?)
  }

  lemma {:induction false} PlayLast(w: World, steps: seq<Step>, s: Step)
    ensures Play(w, steps + [s]) == if Enabled(Play(w, steps), s) then Next(Play(w, steps), s) else Play(w, steps)
    decreases |steps|
  {
    if steps == [] {
      assert steps + [s] == [s];
      assert [s][1..] == [];
    } else {
      assert (steps + [s])[1..] == steps[1..] + [s];
      PlayLast(if Enabled(w, steps[0]) then Next(w, steps[0]) else w, steps[1..], s);
    }
  }

  lemma StepStaysMarked(w: World, s: Step)
    requires Inv(w) && Enabled(w, s)
    ensures var w' := Next(w, s); w'.marker ==> exists i :: 0 <= i < |w'.log| && w'.log[i].Marked?
  {
    var w' := Next(w, s);
    if w.marker {
      var i :| 0 <= i < |w.log| && w.log[i].Marked?;
      assert w'.log[i] == w.log[i];
    } else if w'.marker {
      assert w'.log[|w.log|].Marked?;
    }
  }

  lemma {:induction false} PlayKeepsInv(w: World, steps: seq<Step>)
    requires Inv(w)
    ensures Inv(Play(w, steps)) && w.log <= Play(w, steps).log
    decreases |steps|
  {
    if steps != [] {
      if Enabled(w, steps[0]) {
        StepStaysMarked(w, steps[0]);
        PlayKeepsInv(Next(w, steps[0]), steps[1..]);
      } else {
        PlayKeepsInv(w, steps[1..]);
      }
    }
  }

  /**
    Close and drain: from the moment a close reports drained, no admission is held, and in
    whatever follows none is granted or held again.
   */
  lemma DrainedScopeStaysEmpty(steps: seq<Step>, more: seq<Step>, i: nat)
    requires i < |Play(OPEN, steps).log| && Play(OPEN, steps).log[i].Drained?
    ensures var w := Play(Play(OPEN, steps), more);
      && (forall p | p in w.at :: !w.at[p].Admitted?)
      && (forall j | i < j < |w.log| :: !w.log[j].Admission?)
  {
    PlayKeepsInv(OPEN, steps);
    PlayKeepsInv(Play(OPEN, steps), more);
  }

  /** An admitter that looks is admitted exactly if no close had marked the scope, and refused and out of it otherwise. */
  lemma AdmittedExactlyWhenUnmarked(steps: seq<Step>, p: nat)
    requires p in Play(OPEN, steps).at && Play(OPEN, steps).at[p].Checking?
    ensures var w, end := Play(OPEN, steps), Play(OPEN, steps + [LookForMarker(p)]);
      var marked := exists i :: 0 <= i < |w.log| && w.log[i].Marked?;
      && end.log == w.log + [if marked then Refusal(p) else Admission(p)]
      && (p in end.at <==> !marked) && (p in end.at ==> end.at[p].Admitted?)
  {
    PlayKeepsInv(OPEN, steps);
    PlayLast(OPEN, steps, LookForMarker(p));
  }

  /** A close that asks drains exactly if nobody holds an admission, is being checked for one, or is draining. */
  lemma DrainsExactlyWhenEmpty(steps: seq<Step>, p: nat)
    requires p in Play(OPEN, steps).at && Play(OPEN, steps).at[p].Polling?
    ensures var w, end := Play(OPEN, steps), Play(OPEN, steps + [LockExclusive(p)]);
      var empty := forall q | q in w.at :: w.at[q].Closing? || w.at[q].Polling?;
      && end.log == (if empty then w.log + [Drained(p)] else w.log)
      && p in end.at && end.at[p] == (if empty then Draining else Polling)
  {
    PlayLast(OPEN, steps, LockExclusive(p));
  }

  /** The marker alone already denies every later admission; those begun before it may still be held. */
  lemma MarkerDeniesAdmission(steps: seq<Step>, more: seq<Step>, i: nat)
    requires i < |Play(OPEN, steps).log| && Play(OPEN, steps).log[i].Marked?
    ensures var w := Play(Play(OPEN, steps), more); forall j | i < j < |w.log| :: !w.log[j].Admission?
  {
    PlayKeepsInv(OPEN, steps);
    PlayKeepsInv(Play(OPEN, steps), more);
  }
}
