/**
  Replacing the active realm tree by a verified candidate, with rollback, and the startup
  cleanup that later removes a superseded tree. Every step of a replacement may succeed,
  raise before or after its effect, or be cut by a crash; after a crash the daemon starts
  again from whatever names and journal it finds, any number of times.

  A tree is `kept` once it has been served from the active name or taken out of it, and it
  is given up only when a replacement that does not retain it has started its candidate
  from the active name.
 */
module RealmReplacement {
  import opened Wrappers

  /** A directory tree; a removal that does not finish leaves it no longer whole. */
  datatype Tree = Tree(id: nat, whole: bool)

  datatype Name = Active | Candidate(c: nat) | Superseded(n: nat)

  datatype JournalState =
    | Verified | OwnerStopped | OldQuarantined | CandidatePublished | Complete | CleanupPending | RolledBack | RollbackFailed

  datatype Journal = Journal(state: JournalState, superseded: Option<nat>, retain: bool)

  /** Where a replacement has come to: forward steps, bookkeeping after the commit, rollback steps. */
  datatype Point =
    | JournalVerified | StopOwner | JournalStopped | VerifyAgain | MoveOld | SyncOld | JournalQuarantined
    | MoveCandidate | SyncCandidate | JournalPublished | StartCandidate
    | JournalComplete | RemoveOld | JournalRemoved | JournalPending
    | BackStop | BackCandidate | BackOld | BackSync | JournalRolledBack | JournalFailed | BackFinish

  datatype Attempt = Attempt(n: nat, c: nat, offline: bool, retain: bool, at: Point, movedOld: bool, movedCandidate: bool,
                             previous: Tree, candidate: Tree)

  datatype Phase = Down | Started | Serving | Working(a: Attempt)

  datatype World = World(names: map<Name, Tree>, journal: Option<Journal>, phase: Phase, next: nat,
                         kept: set<nat>, givenUp: set<nat>)

  /** What a step meets: success, an exception before or after its effect, a crash before or after it. */
  datatype Luck = Ok | Raise | RaiseLate | Crash | CrashLate

  predicate Happens(l: Luck) { l == Ok || l == RaiseLate || l == CrashLate }

  predicate Crashes(l: Luck) { l == Crash || l == CrashLate }

  datatype Step =
    | Materialize                                        // restore a backup into a new candidate directory
    | Start(luck: Luck)                                  // start the daemon from the active name
    | Cleanup(luck: Luck, written: bool)                 // the startup cleanup that follows
    | Begin(c: nat, offline: bool, retain: bool)         // begin a replacement by candidate c
    | Go(luck: Luck)                                     // the next step of the replacement
    | Escape                                             // an unforeseen exception after the commit leaves everything as it is
    | Kill                                               // the process dies, whatever it was doing

  predicate Enabled(w: World, s: Step) {
    match s
    case Materialize => !w.phase.Working?
    case Start(_) => w.phase.Down?
    case Cleanup(_, _) => w.phase.Started?
    case Begin(c, offline, _) =>
      Active in w.names && Candidate(c) in w.names && w.names[Candidate(c)].whole && (if offline then w.phase.Down? else w.phase.Serving?)
    case Go(_) => w.phase.Working?
    case Escape => w.phase.Working? && Committed(w.phase.a.at)
    case Kill => true
  }

  function Rename(names: map<Name, Tree>, source: Name, destination: Name): map<Name, Tree>
    requires source in names && destination !in names
  {
    (names - {source})[destination := names[source]]
  }

  /** A removal: complete, not begun, or broken off half-way. */
  function Remove(names: map<Name, Tree>, name: Name, luck: Luck): map<Name, Tree>
    requires name in names
  {
    if luck == Ok then names - {name}
    else if Happens(luck) then names[name := names[name].(whole := false)]
    else names
  }

  // -- one replacement

  function At(w: World, a: Attempt, p: Point): World {
    w.(phase := Working(a.(at := p)))
  }

  /** Continue at `p`, or fall into the rollback, or be gone. */
  function Onward(w: World, a: Attempt, luck: Luck, p: Point): World {
    if Crashes(luck) then w.(phase := Down)
    else if luck == Ok then At(w, a, p)
    else At(w, a, BackStop)
  }

  function Write(w: World, a: Attempt, luck: Luck, state: JournalState): World {
    if Happens(luck) then w.(journal := Some(Journal(state, Some(a.n), a.retain))) else w
  }

  function Forward(w: World, a: Attempt, luck: Luck): World
    requires a.at == MoveOld ==> Active in w.names && Superseded(a.n) !in w.names
    requires a.at == MoveCandidate ==> Candidate(a.c) in w.names && Active !in w.names
  {
    match a.at
    case JournalVerified =>
      Onward(Write(w, a, luck, Verified), a, luck, if a.offline then MoveOld else StopOwner)
    case StopOwner => Onward(w, a, luck, JournalStopped)
    case JournalStopped => Onward(Write(w, a, luck, OwnerStopped), a, luck, VerifyAgain)
    case VerifyAgain => Onward(w, a, luck, MoveOld)
    case MoveOld =>
      // A rename that raises has not happened; a crash may fall on either side of it.
      if luck == Ok || luck == CrashLate
      then Onward(w.(names := Rename(w.names, Active, Superseded(a.n))), a.(movedOld := true), luck, SyncOld)
      else Onward(w, a, luck, SyncOld)
    case SyncOld => Onward(w, a, luck, if a.offline then MoveCandidate else JournalQuarantined)
    case JournalQuarantined => Onward(Write(w, a, luck, OldQuarantined), a, luck, MoveCandidate)
    case MoveCandidate =>
      if luck == Ok || luck == CrashLate
      then Onward(w.(names := Rename(w.names, Candidate(a.c), Active)), a.(movedCandidate := true), luck, SyncCandidate)
      else Onward(w, a, luck, SyncCandidate)
    case SyncCandidate => Onward(w, a, luck, JournalPublished)
    case JournalPublished => Onward(Write(w, a, luck, CandidatePublished), a, luck, StartCandidate)
    case StartCandidate =>
      if luck == Ok
      then At(w.(kept := w.kept + {a.candidate.id}, givenUp := if a.retain then w.givenUp else w.givenUp + {a.previous.id}),
              a, JournalComplete)
      else Onward(w, a, luck, BackStop)
    case _ => w
  }

  /** After the commit: failures touch bookkeeping and cleanup only. */
  function Settle(w: World, a: Attempt, luck: Luck): World {
    var serving := w.(phase := if Crashes(luck) then Down else Serving);
    match a.at
    case JournalComplete =>
      var written := Write(w, a, luck, Complete);
      if Crashes(luck) then written.(phase := Down)
      else if a.retain then written.(phase := Serving)
      else At(written, a, RemoveOld)
    case RemoveOld =>
      if Superseded(a.n) !in w.names then serving
      else
        var removed := w.(names := Remove(w.names, Superseded(a.n), luck));
        if Crashes(luck) then removed.(phase := Down)
        else At(removed, a, if luck == Ok then JournalRemoved else JournalPending)
    case JournalRemoved =>
      if Happens(luck) then serving.(journal := Some(Journal(Complete, None, false))) else serving
    case JournalPending =>
      if Happens(luck) then serving.(journal := Some(Journal(CleanupPending, Some(a.n), false))) else serving
    case _ => serving
  }

  /** Every name is looked at again before it is put back. */
  function Backward(w: World, a: Attempt, luck: Luck): World {
    match a.at
    case BackStop => if Crashes(luck) then w.(phase := Down) else At(w, a, BackCandidate)
    case BackCandidate =>
      var due := a.movedCandidate && Candidate(a.c) !in w.names && Active in w.names;
      var moved := if due && (luck == Ok || luck == CrashLate)
                   then w.(names := Rename(w.names, Active, Candidate(a.c))) else w;
      if Crashes(luck) then moved.(phase := Down)
      else if due && luck != Ok then At(moved, a, JournalFailed)
      else At(moved, a, BackOld)
    case BackOld =>
      var due := a.movedOld && Active !in w.names && Superseded(a.n) in w.names;
      var moved := if due && (luck == Ok || luck == CrashLate)
                   then w.(names := Rename(w.names, Superseded(a.n), Active)) else w;
      if Crashes(luck) then moved.(phase := Down)
      else if due && luck != Ok then At(moved, a, JournalFailed)
      else At(moved, a, BackSync)
    case BackSync =>
      if Crashes(luck) then w.(phase := Down)
      else At(w, a, if luck == Ok then JournalRolledBack else JournalFailed)
    case JournalRolledBack =>
      var left := if !a.offline && Superseded(a.n) in w.names then Some(a.n) else None;
      var written := if Happens(luck) then w.(journal := Some(Journal(RolledBack, left, false))) else w;
      if Crashes(luck) then written.(phase := Down)
      else At(written, a, if luck == Ok then BackFinish else JournalFailed)
    case JournalFailed =>
      var written := if Happens(luck) then w.(journal := Some(Journal(RollbackFailed, Some(a.n), false))) else w;
      written.(phase := Down)
    case BackFinish =>
      // Offline: the temporary candidate is removed. Online: the old owner is started again.
      if a.offline then
        (if Candidate(a.c) in w.names then w.(names := Remove(w.names, Candidate(a.c), luck)) else w).(phase := Down)
      else w.(phase := if luck == Ok then Serving else Down)
    case _ => w
  }

  predicate Committed(p: Point) {
    StageOf(p).Done?
  }

  predicate Rolling(p: Point) {
    var s := StageOf(p);
    s.Returning? || s.HalfBack? || s.AllBack? || s.Broken?
  }

  // -- the whole machine

  /** The names as one replacement sees them. */
  predicate Untouched(w: World, a: Attempt) {
    && Active in w.names && w.names[Active] == a.previous && Superseded(a.n) !in w.names
    && Candidate(a.c) in w.names && w.names[Candidate(a.c)] == a.candidate
  }

  predicate Quarantined(w: World, a: Attempt) {
    && Active !in w.names && Superseded(a.n) in w.names && w.names[Superseded(a.n)] == a.previous
    && Candidate(a.c) in w.names && w.names[Candidate(a.c)] == a.candidate
  }

  predicate Published(w: World, a: Attempt) {
    && Active in w.names && w.names[Active] == a.candidate
    && Superseded(a.n) in w.names && w.names[Superseded(a.n)] == a.previous && Candidate(a.c) !in w.names
  }

  /** Where the trees are supposed to be at a point of a replacement. */
  datatype Stage = Ahead | Between | Out | Done | Returning | HalfBack | AllBack | Broken

  function StageOf(p: Point): Stage {
    match p
    case JournalVerified => Ahead case StopOwner => Ahead case JournalStopped => Ahead case VerifyAgain => Ahead
    case MoveOld => Ahead
    case SyncOld => Between case JournalQuarantined => Between case MoveCandidate => Between
    case SyncCandidate => Out case JournalPublished => Out case StartCandidate => Out
    case JournalComplete => Done case RemoveOld => Done case JournalRemoved => Done case JournalPending => Done
    case BackStop => Returning case BackCandidate => Returning
    case BackOld => HalfBack
    case BackSync => AllBack case JournalRolledBack => AllBack case BackFinish => AllBack
    case JournalFailed => Broken
  }

  predicate Placed(w: World, a: Attempt) {
    match StageOf(a.at)
    case Ahead => !a.movedOld && !a.movedCandidate && Untouched(w, a)
    case Between => a.movedOld && !a.movedCandidate && Quarantined(w, a)
    case Out => a.movedOld && a.movedCandidate && Published(w, a)
    case Done =>
      && Active in w.names && w.names[Active] == a.candidate
      && (Superseded(a.n) in w.names ==> w.names[Superseded(a.n)].id == a.previous.id)
    case Returning =>
      if a.movedCandidate then a.movedOld && Published(w, a)
      else if a.movedOld then Quarantined(w, a) else Untouched(w, a)
    case HalfBack => if a.movedOld then Quarantined(w, a) else Untouched(w, a)
    case AllBack => Untouched(w, a)
    case Broken => Untouched(w, a) || Quarantined(w, a) || Published(w, a)
  }

  /** What is kept and given up at a point of a replacement. */
  predicate Accounted(w: World, a: Attempt) {
    && a.n < w.next && a.c < w.next && a.previous.whole && a.candidate.whole && a.candidate.id != a.previous.id
    && a.previous.id in w.kept && a.candidate.id !in w.givenUp
    && if StageOf(a.at).Done?
       then a.candidate.id in w.kept && (if a.retain then a.at.JournalComplete? else a.previous.id in w.givenUp)
       else a.candidate.id !in w.kept && a.previous.id !in w.givenUp
  }

  predicate OnCourse(w: World, a: Attempt) {
    Placed(w, a) && Accounted(w, a)
  }

  function Next(w: World, s: Step): World
    requires Enabled(w, s) && (w.phase.Working? ==> OnCourse(w, w.phase.a))
  {
    match s
    case Materialize => w.(names := w.names[Candidate(w.next) := Tree(w.next, true)], next := w.next + 1)
    case Start(luck) =>
      // An absent realm is initialized afresh; a start that raises may already have done that.
      var w' := if Active !in w.names && Happens(luck)
                then w.(names := w.names[Active := Tree(w.next, true)], next := w.next + 1) else w;
      if luck == Ok then w'.(phase := Started, kept := w'.kept + {w'.names[Active].id}) else w'
    case Cleanup(luck, written) =>
      if !Removable(w) then w.(phase := Serving)
      else
        var removed := w.(names := Remove(w.names, Superseded(w.journal.value.superseded.value), luck));
        if Crashes(luck) then removed.(phase := Down)
        else if luck == Ok && written
        then removed.(phase := Serving, journal := Some(Journal(Complete, None, w.journal.value.retain)))
        else removed.(phase := Serving)
    case Begin(c, offline, retain) =>
      var a := Attempt(w.next, c, offline, retain, JournalVerified, false, false, w.names[Active], w.names[Candidate(c)]);
      w.(phase := Working(a), next := w.next + 1, kept := w.kept + {w.names[Active].id})
    case Go(luck) =>
      var a := w.phase.a;
      if Committed(a.at) then Settle(w, a, luck)
      else if Rolling(a.at) then Backward(w, a, luck)
      else Forward(w, a, luck)
    case Escape => w.(phase := Serving)
    case Kill => w.(phase := Down)
  }

  /** The startup cleanup acts only on a completed replacement that does not retain the old tree. */
  predicate Removable(w: World) {
    && w.journal.Some? && (w.journal.value.state.Complete? || w.journal.value.state.CleanupPending?)
    && !w.journal.value.retain && w.journal.value.superseded.Some?
    && Superseded(w.journal.value.superseded.value) in w.names
  }

  /** The tree is whole under the active name or a superseded one. */
  predicate Held(names: map<Name, Tree>, id: nat) {
    exists name | name in names :: !name.Candidate? && names[name] == Tree(id, true)
  }

  /** No two names share a tree, and every kept tree that was not given up is held. */
  ghost predicate Sound(names: map<Name, Tree>, next: nat, kept: set<nat>, givenUp: set<nat>) {
    && (forall name | name in names :: names[name].id < next && Index(name) < next)
    && (forall id | id in kept :: id < next)
    && (forall a, b | a in names && b in names && names[a].id == names[b].id :: a == b)
    && (Active in names ==> names[Active].whole && names[Active].id !in givenUp)
    && (forall name | name in names && name.Candidate? :: names[name].id !in kept)
    && givenUp <= kept
    && (forall id | id in kept - givenUp :: Held(names, id))
  }

  function Index(name: Name): int {
    match name case Active => -1 case Candidate(c) => c case Superseded(n) => n
  }

  predicate Finished(j: Journal) {
    j.state.Complete? || j.state.CleanupPending?
  }

  /** The journal never tells the startup cleanup to remove a tree that was not given up. */
  predicate Tidy(w: World) {
    && (w.journal.Some? && w.journal.value.superseded.Some? ==> w.journal.value.superseded.value < w.next)
    && (Removable(w) ==> w.names[Superseded(w.journal.value.superseded.value)].id in w.givenUp)
    && (w.phase.Working? && !Committed(w.phase.a.at) && w.journal.Some? && Finished(w.journal.value) ==>
          w.journal.value.superseded != Some(w.phase.a.n))
  }

  predicate PhaseFits(w: World) {
    match w.phase
    case Down => true
    case Working(a) => OnCourse(w, a)
    case _ => Active in w.names && w.names[Active].id in w.kept
  }

  /** The phase, the names and the journal agree. */
  predicate Fits(w: World) {
    Tidy(w) && PhaseFits(w)
  }

  ghost predicate Inv(w: World) {
    Sound(w.names, w.next, w.kept, w.givenUp) && Fits(w)
  }

  /** Steps that are not enabled do nothing. */
  function Play(w: World, steps: seq<Step>): World
    requires Inv(w)
    decreases |steps|
  {
    if steps == [] then w
    else if !Enabled(w, steps[0]) then Play(w, steps[1..])
    else
      StepKeepsInv(w, steps[0]);
      Play(Next(w, steps[0]), steps[1..])
  }

  // -- where a held tree goes

  lemma RenameHolds(names: map<Name, Tree>, source: Name, destination: Name, id: nat)
    requires source in names && destination !in names && Held(names, id)
    requires names[source].id == id ==> !destination.Candidate?
    ensures Held(Rename(names, source, destination), id)
  {
    var name :| name in names && !name.Candidate? && names[name] == Tree(id, true);
    var names' := Rename(names, source, destination);
    assert if name == source then names'[destination] == Tree(id, true) else names'[name] == Tree(id, true);
  }

  lemma RemoveHolds(names: map<Name, Tree>, name: Name, luck: Luck, id: nat)
    requires name in names && Held(names, id) && names[name].id != id
    ensures Held(Remove(names, name, luck), id)
  {
    var place :| place in names && !place.Candidate? && names[place] == Tree(id, true);
    assert Remove(names, name, luck)[place] == Tree(id, true);
  }

  lemma GrowHolds(names: map<Name, Tree>, name: Name, tree: Tree, id: nat)
    requires name !in names && Held(names, id)
    ensures Held(names[name := tree], id)
  {
    var place :| place in names && !place.Candidate? && names[place] == Tree(id, true);
    assert names[name := tree][place] == Tree(id, true);
  }

  lemma RenameKeepsSound(names: map<Name, Tree>, source: Name, destination: Name, next: nat, kept: set<nat>, givenUp: set<nat>)
    requires Sound(names, next, kept, givenUp) && source in names && destination !in names && Index(destination) < next
    requires destination.Candidate? ==> names[source].id !in kept
    requires destination.Active? ==> names[source].whole && names[source].id !in givenUp
    ensures Sound(Rename(names, source, destination), next, kept, givenUp)
  {
    forall id | id in kept - givenUp ensures Held(Rename(names, source, destination), id) {
      RenameHolds(names, source, destination, id);
    }
  }

  lemma RemoveKeepsSound(names: map<Name, Tree>, name: Name, luck: Luck, next: nat, kept: set<nat>, givenUp: set<nat>)
    requires Sound(names, next, kept, givenUp) && name in names && !name.Active? && names[name].id !in kept - givenUp
    ensures Sound(Remove(names, name, luck), next, kept, givenUp)
  {
    forall id | id in kept - givenUp ensures Held(Remove(names, name, luck), id) {
      RemoveHolds(names, name, luck, id);
    }
  }

  lemma GrowKeepsSound(names: map<Name, Tree>, name: Name, next: nat, kept: set<nat>, givenUp: set<nat>)
    requires Sound(names, next, kept, givenUp) && name !in names && Index(name) <= next
    ensures Sound(names[name := Tree(next, true)], next + 1, kept, givenUp)
  {
    forall id | id in kept - givenUp ensures Held(names[name := Tree(next, true)], id) {
      GrowHolds(names, name, Tree(next, true), id);
    }
  }

  /** Keeping the active tree, and giving up any other. */
  lemma KeepActive(names: map<Name, Tree>, next: nat, kept: set<nat>, givenUp: set<nat>, more: set<nat>)
    requires Sound(names, next, kept, givenUp) && Active in names
    requires more <= kept && names[Active].id !in more
    ensures Sound(names, next, kept + {names[Active].id}, givenUp + more)
  {
    assert names[Active] == Tree(names[Active].id, true);
    forall name | name in names && name.Candidate? ensures names[name].id != names[Active].id {
      assert name != Active;
    }
  }

  // -- every step keeps the invariant

  lemma StartKeepsInv(w: World, luck: Luck)
    requires Inv(w) && Enabled(w, Start(luck))
    ensures Inv(Next(w, Start(luck)))
  {
    var w' := Next(w, Start(luck));
    if Active !in w.names && Happens(luck) { GrowKeepsSound(w.names, Active, w.next, w.kept, w.givenUp); }
    if luck == Ok { KeepActive(w'.names, w'.next, w.kept, w.givenUp, {}); assert w.givenUp + {} == w.givenUp; }
  }

  lemma CleanupKeepsInv(w: World, luck: Luck, written: bool)
    requires Inv(w) && Enabled(w, Cleanup(luck, written))
    ensures Inv(Next(w, Cleanup(luck, written)))
  {
    if Removable(w) {
      RemoveKeepsSound(w.names, Superseded(w.journal.value.superseded.value), luck, w.next, w.kept, w.givenUp);
    }
  }

  lemma BeginKeepsInv(w: World, c: nat, offline: bool, retain: bool)
    requires Inv(w) && Enabled(w, Begin(c, offline, retain))
    ensures Inv(Next(w, Begin(c, offline, retain)))
  {
    KeepActive(w.names, w.next, w.kept, w.givenUp, {});
    assert w.givenUp + {} == w.givenUp;
  }

  /** A replacement in course, with a journal that says nothing untrue about it. */
  predicate Good(w: World, a: Attempt) {
    OnCourse(w, a) && Tidy(w.(phase := Working(a)))
  }

  /** Going on within the same stage, or turning back. */
  lemma GoingOn(w: World, a: Attempt, luck: Luck, p: Point)
    requires Good(w, a) && StageOf(p) == StageOf(a.at) && !Committed(p) && !Rolling(p)
    ensures Fits(Onward(w, a, luck, p))
  {
    assert OnCourse(w, a.(at := p)) && OnCourse(w, a.(at := BackStop));
  }

  lemma Writing(w: World, a: Attempt, luck: Luck, state: JournalState)
    requires Good(w, a) && !state.Complete? && !state.CleanupPending?
    ensures Good(Write(w, a, luck, state), a)
  {}

  lemma AheadFits(w: World, a: Attempt, luck: Luck)
    requires Good(w, a) && StageOf(a.at).Ahead? && !a.at.MoveOld?
    ensures Fits(Forward(w, a, luck))
  {
    match a.at
    case JournalVerified =>
      Writing(w, a, luck, Verified);
      GoingOn(Write(w, a, luck, Verified), a, luck, if a.offline then MoveOld else StopOwner);
    case StopOwner => GoingOn(w, a, luck, JournalStopped);
    case JournalStopped =>
      Writing(w, a, luck, OwnerStopped);
      GoingOn(Write(w, a, luck, OwnerStopped), a, luck, VerifyAgain);
    case VerifyAgain => GoingOn(w, a, luck, MoveOld);
  }

  lemma BetweenFits(w: World, a: Attempt, luck: Luck)
    requires Good(w, a) && StageOf(a.at).Between? && !a.at.MoveCandidate?
    ensures Fits(Forward(w, a, luck))
  {
    match a.at
    case SyncOld => GoingOn(w, a, luck, if a.offline then MoveCandidate else JournalQuarantined);
    case JournalQuarantined =>
      Writing(w, a, luck, OldQuarantined);
      GoingOn(Write(w, a, luck, OldQuarantined), a, luck, MoveCandidate);
  }

  lemma OutFits(w: World, a: Attempt, luck: Luck)
    requires Good(w, a) && StageOf(a.at).Out? && !a.at.StartCandidate?
    ensures Fits(Forward(w, a, luck))
  {
    match a.at
    case SyncCandidate => GoingOn(w, a, luck, JournalPublished);
    case JournalPublished =>
      Writing(w, a, luck, CandidatePublished);
      GoingOn(Write(w, a, luck, CandidatePublished), a, luck, StartCandidate);
  }

  lemma MoveOldFits(w: World, a: Attempt, luck: Luck)
    requires Good(w, a) && a.at.MoveOld?
    ensures Fits(Forward(w, a, luck))
  {
    if luck == Ok || luck == CrashLate {
      var w' := w.(names := Rename(w.names, Active, Superseded(a.n)));
      var a' := a.(movedOld := true, at := SyncOld);
      assert Quarantined(w', a') && Good(w', a');
    } else {
      GoingOn(w, a, luck, MoveOld);
    }
  }

  lemma MoveCandidateFits(w: World, a: Attempt, luck: Luck)
    requires Good(w, a) && a.at.MoveCandidate?
    ensures Fits(Forward(w, a, luck))
  {
    if luck == Ok || luck == CrashLate {
      var w' := w.(names := Rename(w.names, Candidate(a.c), Active));
      var a' := a.(movedCandidate := true, at := SyncCandidate);
      assert Published(w', a') && Good(w', a');
    } else {
      GoingOn(w, a, luck, MoveCandidate);
    }
  }

  lemma CommitFits(w: World, a: Attempt, luck: Luck)
    requires Good(w, a) && a.at.StartCandidate?
    ensures Fits(Forward(w, a, luck))
  {
    if luck == Ok {
    } else {
      GoingOn(w, a, luck, StartCandidate);
    }
  }

  lemma CompleteFits(w: World, a: Attempt, luck: Luck)
    requires Good(w, a) && a.at.JournalComplete?
    ensures Fits(Settle(w, a, luck))
  {
    var w' := Write(w, a, luck, Complete);
    assert Good(w', a);
    assert !a.retain ==> OnCourse(w', a.(at := RemoveOld));
  }

  lemma RemoveOldFits(w: World, a: Attempt, luck: Luck)
    requires Good(w, a) && a.at.RemoveOld?
    ensures Fits(Settle(w, a, luck))
  {
    if Superseded(a.n) in w.names {
      var w' := w.(names := Remove(w.names, Superseded(a.n), luck));
      assert OnCourse(w', a.(at := JournalRemoved)) && OnCourse(w', a.(at := JournalPending));
      assert Removable(w') ==> Removable(w);
    }
  }

  lemma SettledFits(w: World, a: Attempt, luck: Luck)
    requires Good(w, a) && (a.at.JournalRemoved? || a.at.JournalPending?)
    ensures Fits(Settle(w, a, luck))
  {}

  lemma BackCandidateFits(w: World, a: Attempt, luck: Luck)
    requires Good(w, a) && a.at.BackCandidate?
    ensures Fits(Backward(w, a, luck))
  {
    if a.movedCandidate && (luck == Ok || luck == CrashLate) {
      var w' := w.(names := Rename(w.names, Active, Candidate(a.c)));
      assert Quarantined(w', a) && Good(w', a.(at := BackOld));
    } else {
      assert !a.movedCandidate ==> OnCourse(w, a.(at := BackOld));
      assert OnCourse(w, a.(at := JournalFailed));
    }
  }

  lemma BackOldFits(w: World, a: Attempt, luck: Luck)
    requires Good(w, a) && a.at.BackOld?
    ensures Fits(Backward(w, a, luck))
  {
    if a.movedOld && (luck == Ok || luck == CrashLate) {
      var w' := w.(names := Rename(w.names, Superseded(a.n), Active));
      assert Untouched(w', a) && Good(w', a.(at := BackSync));
    } else {
      assert !a.movedOld ==> OnCourse(w, a.(at := BackSync));
      assert OnCourse(w, a.(at := JournalFailed));
    }
  }

  /** From one rollback step to the next with the trees where they are. */
  lemma StayingBack(w: World, a: Attempt, p: Point)
    requires Good(w, a) && Rolling(a.at) && Rolling(p) && (StageOf(p) == StageOf(a.at) || p.JournalFailed?)
    ensures Fits(At(w, a, p)) && Fits(w.(phase := Down))
  {
    assert OnCourse(w, a.(at := p));
  }

  lemma RolledBackIsGood(w: World, a: Attempt)
    requires Good(w, a) && a.at.JournalRolledBack?
    ensures Good(w.(journal := Some(Journal(RolledBack, None, false))), a)
  {
    assert Superseded(a.n) !in w.names;
    assert OnCourse(w.(journal := Some(Journal(RolledBack, None, false))), a);
  }

  lemma RolledBackFits(w: World, a: Attempt, luck: Luck)
    requires Good(w, a) && a.at.JournalRolledBack?
    ensures Fits(Backward(w, a, luck))
  {
    if Happens(luck) {
      var w' := w.(journal := Some(Journal(RolledBack, None, false)));
      RolledBackIsGood(w, a);
      StayingBack(w', a, if luck == Ok then BackFinish else JournalFailed);
    } else {
      StayingBack(w, a, JournalFailed);
    }
  }

  lemma BackFinishFits(w: World, a: Attempt, luck: Luck)
    requires Good(w, a) && a.at.BackFinish?
    ensures Fits(Backward(w, a, luck))
  {}

  lemma BackwardFits(w: World, a: Attempt, luck: Luck)
    requires Good(w, a) && (a.at.BackStop? || a.at.BackSync? || a.at.JournalFailed?)
    ensures Fits(Backward(w, a, luck))
  {
    StayingBack(w, a, if a.at.BackStop? then BackCandidate else JournalFailed);
    if a.at.BackSync? { StayingBack(w, a, JournalRolledBack); }
  }

  /** The steps that move no tree. */
  lemma QuietGoFits(w: World, a: Attempt, luck: Luck)
    requires Fits(w) && w.phase == Working(a)
    requires !a.at.MoveOld? && !a.at.MoveCandidate? && !a.at.StartCandidate? && !a.at.BackCandidate? && !a.at.BackOld?
    requires !a.at.JournalComplete? && !a.at.RemoveOld? && !a.at.JournalRolledBack? && !a.at.BackFinish?
    ensures Fits(Next(w, Go(luck)))
  {
    assert w.(phase := Working(a)) == w;
    if Committed(a.at) {
      SettledFits(w, a, luck);
    } else if Rolling(a.at) {
      BackwardFits(w, a, luck);
    } else if StageOf(a.at).Ahead? {
      AheadFits(w, a, luck);
    } else if StageOf(a.at).Between? {
      BetweenFits(w, a, luck);
    } else {
      OutFits(w, a, luck);
    }
  }

  lemma GoFits(w: World, a: Attempt, luck: Luck)
    requires Fits(w) && w.phase == Working(a)
    ensures Fits(Next(w, Go(luck)))
  {
    assert w.(phase := Working(a)) == w;
    match a.at
    case MoveOld => MoveOldFits(w, a, luck);
    case MoveCandidate => MoveCandidateFits(w, a, luck);
    case StartCandidate => CommitFits(w, a, luck);
    case BackCandidate => BackCandidateFits(w, a, luck);
    case BackOld => BackOldFits(w, a, luck);
    case JournalComplete => CompleteFits(w, a, luck);
    case RemoveOld => RemoveOldFits(w, a, luck);
    case JournalRolledBack => RolledBackFits(w, a, luck);
    case BackFinish => BackFinishFits(w, a, luck);
    case _ => QuietGoFits(w, a, luck);
  }

  // -- and the trees stay held

  predicate SameTrees(w: World, w': World) {
    w'.names == w.names && w'.next == w.next && w'.kept == w.kept && w'.givenUp == w.givenUp
  }

  lemma ForwardMoves(w: World, a: Attempt, luck: Luck)
    requires OnCourse(w, a) && !Committed(a.at) && !Rolling(a.at)
    ensures var w' := Forward(w, a, luck);
      || SameTrees(w, w')
      || (a.at.MoveOld? && SameTrees(w.(names := Rename(w.names, Active, Superseded(a.n))), w'))
      || (a.at.MoveCandidate? && SameTrees(w.(names := Rename(w.names, Candidate(a.c), Active)), w'))
      || (a.at.StartCandidate? && SameTrees(w.(kept := w.kept + {a.candidate.id},
                                               givenUp := if a.retain then w.givenUp else w.givenUp + {a.previous.id}), w'))
  {}

  lemma SettleMoves(w: World, a: Attempt, luck: Luck)
    requires OnCourse(w, a) && Committed(a.at)
    ensures var w' := Settle(w, a, luck);
      || SameTrees(w, w')
      || (a.at.RemoveOld? && Superseded(a.n) in w.names && SameTrees(w.(names := Remove(w.names, Superseded(a.n), luck)), w'))
  {}

  lemma BackwardMoves(w: World, a: Attempt, luck: Luck)
    requires OnCourse(w, a) && Rolling(a.at)
    ensures var w' := Backward(w, a, luck);
      || SameTrees(w, w')
      || (a.at.BackCandidate? && a.movedCandidate && SameTrees(w.(names := Rename(w.names, Active, Candidate(a.c))), w'))
      || (a.at.BackOld? && a.movedOld && SameTrees(w.(names := Rename(w.names, Superseded(a.n), Active)), w'))
      || (a.at.BackFinish? && SameTrees(w.(names := Remove(w.names, Candidate(a.c), luck)), w'))
  {}

  lemma GoIsSound(w: World, a: Attempt, luck: Luck)
    requires Inv(w) && w.phase == Working(a)
    ensures var w' := Next(w, Go(luck)); Sound(w'.names, w'.next, w'.kept, w'.givenUp)
  {
    if Committed(a.at) { SettleMoves(w, a, luck); }
    else if Rolling(a.at) { BackwardMoves(w, a, luck); }
    else { ForwardMoves(w, a, luck); }
    if !SameTrees(w, Next(w, Go(luck))) {
      match a.at
      case MoveOld => RenameKeepsSound(w.names, Active, Superseded(a.n), w.next, w.kept, w.givenUp);
      case MoveCandidate => RenameKeepsSound(w.names, Candidate(a.c), Active, w.next, w.kept, w.givenUp);
      case StartCandidate =>
        KeepActive(w.names, w.next, w.kept, w.givenUp, if a.retain then {} else {a.previous.id});
        assert w.givenUp + {} == w.givenUp;
      case BackCandidate => RenameKeepsSound(w.names, Active, Candidate(a.c), w.next, w.kept, w.givenUp);
      case BackOld => RenameKeepsSound(w.names, Superseded(a.n), Active, w.next, w.kept, w.givenUp);
      case RemoveOld => RemoveKeepsSound(w.names, Superseded(a.n), luck, w.next, w.kept, w.givenUp);
      case BackFinish => RemoveKeepsSound(w.names, Candidate(a.c), luck, w.next, w.kept, w.givenUp);
    }
  }

  lemma StepKeepsInv(w: World, s: Step)
    requires Inv(w) && Enabled(w, s)
    ensures Inv(Next(w, s))
  {
    match s
    case Materialize => GrowKeepsSound(w.names, Candidate(w.next), w.next, w.kept, w.givenUp);
    case Start(luck) => StartKeepsInv(w, luck);
    case Cleanup(luck, written) => CleanupKeepsInv(w, luck, written);
    case Begin(c, offline, retain) => BeginKeepsInv(w, c, offline, retain);
    case Escape =>
    case Kill =>
    case Go(luck) =>
      GoFits(w, w.phase.a, luck);
      GoIsSound(w, w.phase.a, luck);
  }

  // -- whole runs

  /** The daemon down, one realm under the active name, nothing else. */
  function Fresh(): (w: World)
    ensures Inv(w)
  {
    var names := map[Active := Tree(0, true)];
    assert names[Active] == Tree(0, true);
    World(names, None, Down, 1, {0}, {})
  }

  lemma {:induction false} PlayKeepsInv(w: World, steps: seq<Step>)
    requires Inv(w)
    ensures Inv(Play(w, steps))
    decreases |steps|
  {
    if steps != [] {
      if Enabled(w, steps[0]) {
        StepKeepsInv(w, steps[0]);
        PlayKeepsInv(Next(w, steps[0]), steps[1..]);
      } else {
        PlayKeepsInv(w, steps[1..]);
      }
    }
  }

  /**
    No realm is lost: after any run of replacements, exceptions, crashes, restarts and cleanups,
    every tree that was ever served or taken out of the active name, and not given up, is whole
    under the active name or a superseded one.
   */
  lemma NoRealmIsLost(steps: seq<Step>, id: nat)
    requires id in Play(Fresh(), steps).kept - Play(Fresh(), steps).givenUp
    ensures Held(Play(Fresh(), steps).names, id)
  {
    PlayKeepsInv(Fresh(), steps);
  }

  /** A tree is given up by one step only: the candidate's start from the active name, without retention. */
  lemma GivenUpOnlyAtCommit(w: World, s: Step)
    requires Inv(w) && Enabled(w, s) && Next(w, s).givenUp != w.givenUp
    ensures s == Go(Ok) && w.phase.Working? && w.phase.a.at.StartCandidate? && !w.phase.a.retain
    ensures Published(w, w.phase.a)
    ensures Next(w, s).givenUp == w.givenUp + {w.phase.a.previous.id}
  {
    if s.Go? {
      var a := w.phase.a;
      if Committed(a.at) { SettleMoves(w, a, s.luck); }
      else if Rolling(a.at) { BackwardMoves(w, a, s.luck); }
      else { ForwardMoves(w, a, s.luck); }
    }
  }

  /** A rollback that completes leaves the old tree under the active name and the candidate under its own. */
  lemma RollbackRestores(steps: seq<Step>)
    requires Play(Fresh(), steps).phase.Working? && Play(Fresh(), steps).phase.a.at.BackFinish?
    ensures var w := Play(Fresh(), steps);
      && Active in w.names && w.names[Active] == w.phase.a.previous && w.phase.a.previous.whole
      && Candidate(w.phase.a.c) in w.names && w.names[Candidate(w.phase.a.c)] == w.phase.a.candidate
  {
    PlayKeepsInv(Fresh(), steps);
  }

  /** Whatever the daemon serves is a whole tree that was never given up. */
  lemma ServedTreeIsWhole(steps: seq<Step>)
    requires Play(Fresh(), steps).phase.Serving?
    ensures var w := Play(Fresh(), steps);
      Active in w.names && w.names[Active].whole && w.names[Active].id in w.kept - w.givenUp
  {
    PlayKeepsInv(Fresh(), steps);
  }

  /** A daemon that is down, wherever a replacement left it, starts from the active tree it finds or a fresh one, and serves. */
  lemma DownCanServeAgain(w: World, luck: Luck, written: bool)
    requires Inv(w) && w.phase.Down? && !Crashes(luck)
    ensures var end := Play(w, [Start(Ok), Cleanup(luck, written)]);
      && end.phase == Serving && Active in end.names && end.names[Active].whole
      && (Active in w.names ==> end.names[Active] == w.names[Active])
  {
    var started := Next(w, Start(Ok));
    StepKeepsInv(w, Start(Ok));
    StepKeepsInv(started, Cleanup(luck, written));
    assert [Start(Ok), Cleanup(luck, written)][1..] == [Cleanup(luck, written)];
    assert [Cleanup(luck, written)][1..] == [];
    assert Play(started, [Cleanup(luck, written)]) == Play(Next(started, Cleanup(luck, written)), []);
  }
}
