/**
  One replacement request as the daemon runs it: renames and journal writes in order, the flags
  that remember which renames happened, and the handler that puts the names back. What the
  request does is a run of the replacement machine, and its answer says what is active after it.
 */
module ReplacementRequest {
  import opened Wrappers
  import opened RealmReplacement

  /** How one step of the request ends for the code around it. */
  datatype Verdict = Fine | Raised | Dead

  /** Replaced and reported, replaced with an exception after the commit, put back, not put back, or no answer at all. */
  datatype Answer = Replaced | Unreported | Restored | Unrestored | Died

  function VerdictOf(luck: Luck): Verdict {
    if luck == Ok then Fine else if Crashes(luck) then Dead else Raised
  }

  /** What each point of the request meets. */
  type Surroundings = Point -> Luck

  /** The points after the commit at which an exception that the code does not foresee ends the request. */
  type Escapes = Point -> bool

  // -- what the points of a request decide

  /** The verdict of running through these points in order: that of the first one that does not go well. */
  function Meets(points: seq<Point>, env: Surroundings): Verdict {
    if points == [] then Fine
    else if env(points[0]) != Ok then VerdictOf(env(points[0]))
    else Meets(points[1..], env)
  }

  /** Before any name moves. */
  function Preparing(offline: bool): seq<Point> {
    if offline then [JournalVerified] else [JournalVerified, StopOwner, JournalStopped, VerifyAgain]
  }

  /** Moving the old tree aside. */
  function SettingAside(offline: bool): seq<Point> {
    if offline then [MoveOld, SyncOld] else [MoveOld, SyncOld, JournalQuarantined]
  }

  /** Moving the candidate in. */
  const PUBLISHING := [MoveCandidate, SyncCandidate, JournalPublished]

  /** All points of a request up to and including the start of the candidate, which commits it. */
  function ForwardPoints(offline: bool): seq<Point> {
    Preparing(offline) + SettingAside(offline) + PUBLISHING + [StartCandidate]
  }

  /** The old tree was moved before anything went wrong. */
  predicate MovesOld(offline: bool, env: Surroundings) {
    Meets(Preparing(offline) + [MoveOld], env) == Fine
  }

  predicate MovesCandidate(offline: bool, env: Surroundings) {
    Meets(Preparing(offline) + SettingAside(offline) + [MoveCandidate], env) == Fine
  }

  /** What is left to do once the candidate serves. */
  function SettlingPoints(retain: bool, env: Surroundings): seq<Point> {
    if retain then [JournalComplete]
    else [JournalComplete, RemoveOld, if env(RemoveOld) == Ok then JournalRemoved else JournalPending]
  }

  /** What the journal says after a replacement that was reported, if the receipt was written at all. */
  function Receipt(n: nat, retain: bool, env: Surroundings): (Point, Journal) {
    if retain then (JournalComplete, Journal(Complete, Some(n), true))
    else if env(RemoveOld) == Ok then (JournalRemoved, Journal(Complete, None, false))
    else (JournalPending, Journal(CleanupPending, Some(n), false))
  }

  /** The receipt is on disk whenever its write took place. */
  predicate Receipted(journal: Option<Journal>, n: nat, retain: bool, env: Surroundings) {
    var (at, receipt) := Receipt(n, retain, env);
    Happens(env(at)) ==> journal == Some(receipt)
  }

  /** The names go back: nothing dies, no rename that is due raises, and the directory is synced. */
  predicate PutsBack(movedOld: bool, movedCandidate: bool, env: Surroundings) {
    && !Crashes(env(BackStop))
    && (if movedCandidate then env(BackCandidate) == Ok else !Crashes(env(BackCandidate)))
    && (if movedOld then env(BackOld) == Ok else !Crashes(env(BackOld)))
    && env(BackSync) == Ok
  }

  /** The whole reverse goes through and answers. */
  predicate GoesBack(movedOld: bool, movedCandidate: bool, env: Surroundings) {
    PutsBack(movedOld, movedCandidate, env) && env(JournalRolledBack) == Ok && !Crashes(env(BackFinish))
  }

  lemma {:induction false} MeetsAppend(a: seq<Point>, b: seq<Point>, env: Surroundings)
    ensures Meets(a + b, env) == if Meets(a, env) == Fine then Meets(b, env) else Meets(a, env)
    decreases |a|
  {
    if a == [] {
      assert a + b == b;
    } else {
      assert (a + b)[1..] == a[1..] + b;
      MeetsAppend(a[1..], b, env);
    }
  }

  lemma {:induction false} FineIffAllOk(points: seq<Point>, env: Surroundings)
    ensures Meets(points, env) == Fine <==> forall p | p in points :: env(p) == Ok
    decreases |points|
  {
    if points != [] {
      FineIffAllOk(points[1..], env);
      assert forall p | p in points :: p == points[0] || p in points[1..];
    }
  }

  lemma MeetsFirst(p: Point, rest: seq<Point>, env: Surroundings)
    ensures Meets([p] + rest, env) == if env(p) != Ok then VerdictOf(env(p)) else Meets(rest, env)
  {
    assert ([p] + rest)[1..] == rest;
  }

  /** Up to four points, written out. */
  lemma MeetsInOrder(p: Point, q: Point, r: Point, s: Point, env: Surroundings)
    ensures Meets([p], env) == VerdictOf(env(p))
    ensures Meets([p, q], env) == if env(p) != Ok then VerdictOf(env(p)) else VerdictOf(env(q))
    ensures Meets([p, q, r], env)
         == if env(p) != Ok then VerdictOf(env(p)) else if env(q) != Ok then VerdictOf(env(q)) else VerdictOf(env(r))
    ensures Meets([p, q, r, s], env)
         == if env(p) != Ok then VerdictOf(env(p)) else if env(q) != Ok then VerdictOf(env(q))
            else if env(r) != Ok then VerdictOf(env(r)) else VerdictOf(env(s))
  {
    assert [p] == [p] + [] && [q] == [q] + [] && [r] == [r] + [] && [s] == [s] + [];
    assert [p, q] == [p] + [q] && [p, q, r] == [p] + [q, r] && [p, q, r, s] == [p] + [q, r, s];
    assert [q, r] == [q] + [r] && [q, r, s] == [q] + [r, s] && [r, s] == [r] + [s];
    MeetsFirst(s, [], env);
    MeetsFirst(r, [], env);
    MeetsFirst(q, [], env);
    MeetsFirst(p, [], env);
    MeetsFirst(r, [s], env);
    MeetsFirst(q, [r], env);
    MeetsFirst(q, [r, s], env);
    MeetsFirst(p, [q], env);
    MeetsFirst(p, [q, r], env);
    MeetsFirst(p, [q, r, s], env);
  }

  /** The forward points, part by part: where the first trouble is, and which names had moved by then. */
  lemma ForwardInParts(offline: bool, env: Surroundings)
    ensures Meets(ForwardPoints(offline), env)
         == if Meets(Preparing(offline), env) != Fine then Meets(Preparing(offline), env)
            else if Meets(SettingAside(offline), env) != Fine then Meets(SettingAside(offline), env)
            else if Meets(PUBLISHING, env) != Fine then Meets(PUBLISHING, env)
            else VerdictOf(env(StartCandidate))
    ensures MovesOld(offline, env) <==> Meets(Preparing(offline), env) == Fine && env(MoveOld) == Ok
    ensures MovesCandidate(offline, env) <==>
      Meets(Preparing(offline), env) == Fine && Meets(SettingAside(offline), env) == Fine && env(MoveCandidate) == Ok
  {
    MeetsInOrder(StartCandidate, MoveOld, MoveCandidate, MoveOld, env);
    MeetsInOrder(MoveOld, MoveCandidate, MoveOld, MoveOld, env);
    MeetsInOrder(MoveCandidate, MoveOld, MoveOld, MoveOld, env);
    MeetsAppend(Preparing(offline), [MoveOld], env);
    MeetsAppend(Preparing(offline), SettingAside(offline), env);
    MeetsAppend(Preparing(offline) + SettingAside(offline), [MoveCandidate], env);
    MeetsAppend(Preparing(offline) + SettingAside(offline), PUBLISHING, env);
    MeetsAppend(Preparing(offline) + SettingAside(offline) + PUBLISHING, [StartCandidate], env);
  }

  /** The two maps differ at most in what the request's three names hold. */
  predicate SameElse(x: map<Name, Tree>, y: map<Name, Tree>, c: nat, n: nat) {
    var mine := {Active, Candidate(c), Superseded(n)};
    x - mine == y - mine
  }

  /** Maps that agree on the three names and everywhere else are the same. */
  lemma SameNames(x: map<Name, Tree>, y: map<Name, Tree>, c: nat, n: nat)
    requires SameElse(x, y, c, n)
    requires forall name | name in {Active, Candidate(c), Superseded(n)} ::
      (name in x <==> name in y) && (name in x ==> x[name] == y[name])
    ensures x == y
  {
    var mine := {Active, Candidate(c), Superseded(n)};
    forall name ensures name in x <==> name in y {
      if name !in mine {
        assert name in x <==> name in x - mine;
        assert name in y <==> name in y - mine;
      }
    }
    forall name | name in x ensures x[name] == y[name] {
      if name !in mine {
        assert (x - mine)[name] == (y - mine)[name];
      }
    }
  }

  /** The names a finished request leaves, from the names before it. */
  lemma RetainedNames(x: map<Name, Tree>, y: map<Name, Tree>, c: nat, n: nat, candidate: Tree, previous: Tree)
    requires SameElse(x, y, c, n) && Active in x && x[Active] == candidate && Candidate(c) !in x
    requires Superseded(n) in x && x[Superseded(n)] == previous
    ensures x == (y - {Candidate(c)})[Active := candidate][Superseded(n) := previous]
  {
    SameNames(x, (y - {Candidate(c)})[Active := candidate][Superseded(n) := previous], c, n);
  }

  lemma TidiedNames(x: map<Name, Tree>, y: map<Name, Tree>, c: nat, n: nat, candidate: Tree)
    requires SameElse(x, y, c, n) && Active in x && x[Active] == candidate && Candidate(c) !in x && Superseded(n) !in x
    requires Superseded(n) !in y
    ensures x == (y - {Candidate(c)})[Active := candidate]
  {
    SameNames(x, (y - {Candidate(c)})[Active := candidate], c, n);
  }

  lemma RestoredNames(x: map<Name, Tree>, y: map<Name, Tree>, c: nat, n: nat)
    requires SameElse(x, y, c, n) && Superseded(n) !in x && Superseded(n) !in y
    requires Active in x && Active in y && x[Active] == y[Active] && Candidate(c) in y
    ensures Candidate(c) in x && x[Candidate(c)] == y[Candidate(c)] ==> x == y
    ensures Candidate(c) !in x ==> x == y - {Candidate(c)}
  {
    if Candidate(c) !in x {
      SameNames(x, y - {Candidate(c)}, c, n);
    } else if x[Candidate(c)] == y[Candidate(c)] {
      SameNames(x, y, c, n);
    }
  }

  /** A removal, however it ends, touches one name. */
  predicate SameButOld(x: map<Name, Tree>, y: map<Name, Tree>, n: nat) {
    x - {Superseded(n)} == y - {Superseded(n)}
  }

  lemma SameButOldIsSameElse(x: map<Name, Tree>, y: map<Name, Tree>, c: nat, n: nat)
    requires SameButOld(x, y, n)
    ensures SameElse(x, y, c, n) && (Candidate(c) in x <==> Candidate(c) in y)
  {
    var mine := {Active, Candidate(c), Superseded(n)};
    assert x - mine == (x - {Superseded(n)}) - mine && y - mine == (y - {Superseded(n)}) - mine;
    assert Candidate(c) in x <==> Candidate(c) in x - {Superseded(n)};
    assert Candidate(c) in y <==> Candidate(c) in y - {Superseded(n)};
  }

  // -- runs of the machine

  ghost predicate Reaches(w: World, w': World) {
    Inv(w) && Inv(w') && exists steps :: Play(w, steps) == w'
  }

  lemma {:induction false} PlayAppend(w: World, before: seq<Step>, after: seq<Step>)
    requires Inv(w)
    ensures Inv(Play(w, before)) && Play(w, before + after) == Play(Play(w, before), after)
    decreases |before|
  {
    PlayKeepsInv(w, before);
    if before == [] {
      assert before + after == after;
    } else {
      assert (before + after)[1..] == before[1..] + after;
      if Enabled(w, before[0]) {
        StepKeepsInv(w, before[0]);
        PlayAppend(Next(w, before[0]), before[1..], after);
      } else {
        PlayAppend(w, before[1..], after);
      }
    }
  }

  ghost predicate Came(w: World, w': World) {
    Inv(w) && exists steps :: Play(w, steps) == w'
  }

  lemma CameKeepsInv(w: World, w': World)
    requires Came(w, w')
    ensures Inv(w')
  {
    var steps :| Play(w, steps) == w';
    PlayKeepsInv(w, steps);
  }

  lemma OneStep(w: World, s: Step)
    requires Inv(w) && Enabled(w, s)
    ensures Inv(Next(w, s)) && Play(w, [s]) == Next(w, s)
  {
    StepKeepsInv(w, s);
    assert [s][1..] == [];
    assert Play(w, [s]) == Play(Next(w, s), []);
  }

  lemma CameStep(start: World, w: World, s: Step)
    requires Came(start, w) && Enabled(w, s)
    ensures Inv(w) && Came(start, Next(w, s))
  {
    CameKeepsInv(start, w);
    var steps :| Play(start, steps) == w;
    PlayAppend(start, steps, [s]);
    OneStep(w, s);
    assert Play(start, steps + [s]) == Next(w, s);
  }

  lemma StepReaches(w: World, s: Step)
    requires Inv(w) && Enabled(w, s)
    ensures Reaches(w, Next(w, s))
  {
    OneStep(w, s);
  }

  predicate JournalStep(a: Attempt, state: JournalState, after: Point) {
    match state
    case Verified => a.at.JournalVerified? && after == if a.offline then MoveOld else StopOwner
    case OwnerStopped => a.at.JournalStopped? && after.VerifyAgain?
    case OldQuarantined => a.at.JournalQuarantined? && after.MoveCandidate?
    case CandidatePublished => a.at.JournalPublished? && after.StartCandidate?
    case _ => false
  }

  lemma RecordStep(w: World, a: Attempt, state: JournalState, after: Point, luck: Luck)
    requires Inv(w) && w.phase == Working(a) && JournalStep(a, state, after)
    ensures Next(w, Go(luck)) == Onward(Write(w, a, luck, state), a, luck, after)
  {
  }

  lemma RemoveStep(w: World, a: Attempt, luck: Luck)
    requires Inv(w) && w.phase == Working(a) && a.at.RemoveOld?
    ensures var w' := Next(w, Go(luck));
            && Active in w'.names && w'.names[Active] == a.candidate
            && w' == w.(names := if Superseded(a.n) in w.names then Remove(w.names, Superseded(a.n), luck) else w.names,
                        phase := if Crashes(luck) then Down
                                 else if Superseded(a.n) !in w.names then Serving
                                 else Working(a.(at := if luck == Ok then JournalRemoved else JournalPending)))
  {
  }

  lemma RolledBackStep(w: World, a: Attempt, luck: Luck)
    requires Inv(w) && w.phase == Working(a) && a.at.JournalRolledBack?
    ensures var receipt := Journal(RolledBack, if !a.offline && Superseded(a.n) in w.names then Some(a.n) else None, false);
      Next(w, Go(luck)) == w.(journal := if Happens(luck) then Some(receipt) else w.journal,
                              phase := if Crashes(luck) then Down
                                       else Working(a.(at := if luck == Ok then BackFinish else JournalFailed)))
  {
  }

  lemma RemovalStep(w: World, a: Attempt, luck: Luck)
    requires Inv(w) && w.phase == Working(a) && (a.at.JournalRemoved? || a.at.JournalPending?)
    ensures var receipt := if a.at.JournalRemoved? then Journal(Complete, None, false) else Journal(CleanupPending, Some(a.n), false);
      Next(w, Go(luck)) == w.(journal := if Happens(luck) then Some(receipt) else w.journal,
                              phase := if Crashes(luck) then Down else Serving)
  {
  }

  predicate QuietStep(a: Attempt, after: Point) {
    || (a.at.StopOwner? && after.JournalStopped?) || (a.at.VerifyAgain? && after.MoveOld?)
    || (a.at.SyncOld? && after == if a.offline then MoveCandidate else JournalQuarantined)
    || (a.at.SyncCandidate? && after.JournalPublished?)
  }

  lemma QuietGo(w: World, a: Attempt, after: Point, luck: Luck)
    requires Inv(w) && w.phase == Working(a) && QuietStep(a, after)
    ensures Next(w, Go(luck)) == Onward(w, a, luck, after)
  {
  }

  lemma FinishStep(w: World, a: Attempt, luck: Luck)
    requires Inv(w) && w.phase == Working(a) && a.at.BackFinish?
    ensures var w' := Next(w, Go(luck));
            && Active in w'.names && w'.names[Active] == a.previous
            && w' == w.(names := if a.offline && Candidate(a.c) in w.names then Remove(w.names, Candidate(a.c), luck) else w.names,
                        phase := if !a.offline && luck == Ok then Serving else Down)
  {
  }

  class RealmDaemon {
    var names: map<Name, Tree>
    var journal: Option<Journal>
    ghost var phase: Phase
    ghost var next: nat
    ghost var kept: set<nat>
    ghost var givenUp: set<nat>
    ghost var origin: World

    ghost function Here(): World
      reads this
    {
      World(names, journal, phase, next, kept, givenUp)
    }

    /** The request so far is a run of the machine from where it began. */
    ghost predicate OnPath()
      reads this
    {
      Came(origin, Here())
    }

    /** After a forward step: on at `after`, in the handler, or gone. */
    ghost predicate Stands(v: Verdict, a: Attempt, after: Point)
      reads this
    {
      phase == match v case Fine => Working(a.(at := after)) case Raised => Working(a.(at := BackStop)) case Dead => Down
    }

    /** Stopping the owner, verifying again, syncing the directory: no name and no journal changes. */
    method Quiet(ghost a: Attempt, ghost after: Point, luck: Luck) returns (v: Verdict)
      requires OnPath() && phase == Working(a)
      requires QuietStep(a, after)
      modifies this`phase
      ensures OnPath() && Stands(v, a, after) && v == VerdictOf(luck)
    {
      v := VerdictOf(luck);
      CameStep(origin, Here(), Go(luck));
      QuietGo(Here(), a, after, luck);
      phase := match v case Fine => Working(a.(at := after)) case Raised => Working(a.(at := BackStop)) case Dead => Down;
      assert Here() == Next(old(Here()), Go(luck));
    }

    /** One journal write on the way forward. */
    method Record(state: JournalState, n: nat, retain: bool, ghost a: Attempt, ghost after: Point, luck: Luck) returns (v: Verdict)
      requires OnPath() && phase == Working(a) && a.n == n && a.retain == retain
      requires JournalStep(a, state, after)
      modifies this`phase, this`journal
      ensures OnPath() && Stands(v, a, after) && v == VerdictOf(luck)
    {
      v := VerdictOf(luck);
      CameStep(origin, Here(), Go(luck));
      RecordStep(Here(), a, state, after, luck);
      if Happens(luck) {
        journal := Some(Journal(state, Some(n), retain));
      }
      phase := match v case Fine => Working(a.(at := after)) case Raised => Working(a.(at := BackStop)) case Dead => Down;
      assert Here() == Next(old(Here()), Go(luck));
    }

    /** The old tree out of the active name. */
    method RenameOld(n: nat, ghost a: Attempt, luck: Luck) returns (v: Verdict, movedOld: bool)
      requires OnPath() && phase == Working(a) && a.n == n && a.at.MoveOld?
      modifies this`phase, this`names
      ensures OnPath() && v == VerdictOf(luck) && movedOld == v.Fine?
      ensures Stands(v, a.(movedOld := movedOld), SyncOld) && SameElse(names, old(names), a.c, n)
    {
      v := VerdictOf(luck);
      CameStep(origin, Here(), Go(luck));
      if luck == Ok || luck == CrashLate {
        names := Rename(names, Active, Superseded(n));
      }
      movedOld := v.Fine?;
      phase := match v
        case Fine => Working(a.(movedOld := true, at := SyncOld)) case Raised => Working(a.(at := BackStop)) case Dead => Down;
      assert Here() == Next(old(Here()), Go(luck));
    }

    /** The candidate into the active name. */
    method RenameCandidate(c: nat, ghost a: Attempt, luck: Luck) returns (v: Verdict, movedCandidate: bool)
      requires OnPath() && phase == Working(a) && a.c == c && a.at.MoveCandidate?
      modifies this`phase, this`names
      ensures OnPath() && v == VerdictOf(luck) && movedCandidate == v.Fine?
      ensures Stands(v, a.(movedCandidate := movedCandidate), SyncCandidate) && SameElse(names, old(names), c, a.n)
    {
      v := VerdictOf(luck);
      CameStep(origin, Here(), Go(luck));
      if luck == Ok || luck == CrashLate {
        names := Rename(names, Candidate(c), Active);
      }
      movedCandidate := v.Fine?;
      phase := match v
        case Fine => Working(a.(movedCandidate := true, at := SyncCandidate)) case Raised => Working(a.(at := BackStop)) case Dead => Down;
      assert Here() == Next(old(Here()), Go(luck));
    }

    /** Starting the candidate from the active name is the commit. */
    method StartActive(ghost a: Attempt, luck: Luck) returns (v: Verdict)
      requires OnPath() && phase == Working(a) && a.at.StartCandidate?
      modifies this`phase, this`kept, this`givenUp
      ensures OnPath() && Stands(v, a, JournalComplete) && v == VerdictOf(luck)
      ensures old(kept) <= kept && (!v.Fine? || a.retain ==> givenUp == old(givenUp))
      ensures kept == if v.Fine? then old(kept) + {a.candidate.id} else old(kept)
      ensures Published(Here(), a)
    {
      v := VerdictOf(luck);
      CameStep(origin, Here(), Go(luck));
      ghost var w := Next(Here(), Go(luck));
      phase, kept, givenUp := w.phase, w.kept, w.givenUp;
      assert Here() == w;
    }

    /** Journal, stop the owner and verify again; an offline request has no owner to stop. */
    method Prepare(n: nat, offline: bool, retain: bool, ghost a: Attempt, env: Surroundings) returns (v: Verdict)
      requires OnPath() && phase == Working(a) && a.n == n && a.retain == retain && a.offline == offline && a.at.JournalVerified?
      modifies this`phase, this`journal
      ensures OnPath() && Stands(v, a, MoveOld)
      ensures v == Meets(Preparing(offline), env)
    {
      MeetsInOrder(JournalVerified, StopOwner, JournalStopped, VerifyAgain, env);
      v := Record(Verified, n, retain, a, if a.offline then MoveOld else StopOwner, env(JournalVerified));
      if v != Fine || offline { return; }
      v := Quiet(a.(at := StopOwner), JournalStopped, env(StopOwner));
      if v != Fine { return; }
      v := Record(OwnerStopped, n, retain, a.(at := JournalStopped), VerifyAgain, env(JournalStopped));
      if v != Fine { return; }
      v := Quiet(a.(at := VerifyAgain), MoveOld, env(VerifyAgain));
    }

    /** The old tree aside. */
    method Quarantine(n: nat, offline: bool, retain: bool, ghost a: Attempt, env: Surroundings) returns (v: Verdict, movedOld: bool)
      requires OnPath() && phase == Working(a) && a.n == n && a.retain == retain && a.offline == offline && a.at.MoveOld?
      modifies this`phase, this`journal, this`names
      ensures OnPath() && Stands(v, a.(movedOld := movedOld), MoveCandidate)
      ensures v == Meets(SettingAside(offline), env) && movedOld == (env(MoveOld) == Ok) && SameElse(names, old(names), a.c, n)
    {
      MeetsInOrder(MoveOld, SyncOld, JournalQuarantined, JournalQuarantined, env);
      v, movedOld := RenameOld(n, a, env(MoveOld));
      if v != Fine { return; }
      ghost var b := a.(movedOld := true);
      v := Quiet(b.(at := SyncOld), if a.offline then MoveCandidate else JournalQuarantined, env(SyncOld));
      if v != Fine || offline { return; }
      v := Record(OldQuarantined, n, retain, b.(at := JournalQuarantined), MoveCandidate, env(JournalQuarantined));
    }

    /** The candidate into the active name, journalled. */
    method Publish(c: nat, n: nat, retain: bool, ghost a: Attempt, env: Surroundings) returns (v: Verdict, movedCandidate: bool)
      requires OnPath() && phase == Working(a) && a.c == c && a.n == n && a.retain == retain && a.at.MoveCandidate?
      modifies this`phase, this`journal, this`names
      ensures OnPath() && Stands(v, a.(movedCandidate := movedCandidate), StartCandidate)
      ensures v == Meets(PUBLISHING, env) && movedCandidate == (env(MoveCandidate) == Ok) && SameElse(names, old(names), c, n)
    {
      MeetsInOrder(MoveCandidate, SyncCandidate, JournalPublished, JournalPublished, env);
      v, movedCandidate := RenameCandidate(c, a, env(MoveCandidate));
      if v != Fine { return; }
      ghost var b := a.(movedCandidate := true);
      v := Quiet(b.(at := SyncCandidate), JournalPublished, env(SyncCandidate));
      if v != Fine { return; }
      v := Record(CandidatePublished, n, retain, b.(at := JournalPublished), StartCandidate, env(JournalPublished));
    }

    // -- after the commit

    method RecordComplete(n: nat, retain: bool, ghost a: Attempt, luck: Luck) returns (alive: bool)
      requires OnPath() && phase == Working(a) && a.n == n && a.retain == retain && a.at.JournalComplete?
      modifies this`phase, this`journal
      ensures OnPath() && alive == !Crashes(luck)
      ensures phase == if !alive then Down else if retain then Serving else Working(a.(at := RemoveOld))
      ensures Active in names && names[Active] == a.candidate
      ensures Happens(luck) ==> journal == Some(Journal(Complete, Some(n), retain))
    {
      CameStep(origin, Here(), Go(luck));
      if Happens(luck) {
        journal := Some(Journal(Complete, Some(n), retain));
      }
      alive := !Crashes(luck);
      phase := if !alive then Down else if retain then Serving else Working(a.(at := RemoveOld));
      assert Here() == Next(old(Here()), Go(luck));
    }

    method RemoveTree(n: nat, ghost a: Attempt, luck: Luck) returns (alive: bool, found: bool)
      requires OnPath() && phase == Working(a) && a.n == n && a.at.RemoveOld?
      modifies this`phase, this`names
      ensures OnPath() && Active in names && names[Active] == a.candidate && alive == !Crashes(luck)
      ensures found == (Superseded(n) in old(names)) && SameButOld(names, old(names), n)
      ensures found && luck == Ok ==> names == old(names) - {Superseded(n)}
      ensures phase == if !alive then Down
                       else if !found then Serving
                       else Working(a.(at := if luck == Ok then JournalRemoved else JournalPending))
    {
      CameStep(origin, Here(), Go(luck));
      RemoveStep(Here(), a, luck);
      alive, found := !Crashes(luck), Superseded(n) in names;
      if found {
        names := Remove(names, Superseded(n), luck);
      }
      phase := if !alive then Down
               else if !found then Serving
               else Working(a.(at := if luck == Ok then JournalRemoved else JournalPending));
      assert Here() == Next(old(Here()), Go(luck));
    }

    method RecordRemoval(n: nat, removed: bool, ghost a: Attempt, luck: Luck) returns (alive: bool)
      requires OnPath() && phase == Working(a) && a.n == n && a.at == if removed then JournalRemoved else JournalPending
      modifies this`phase, this`journal
      ensures OnPath() && phase == if alive then Serving else Down
      ensures alive == !Crashes(luck)
      ensures Happens(luck) ==> journal == Some(if removed then Journal(Complete, None, false) else Journal(CleanupPending, Some(n), false))
    {
      CameStep(origin, Here(), Go(luck));
      RemovalStep(Here(), a, luck);
      if Happens(luck) {
        journal := Some(if removed then Journal(Complete, None, false) else Journal(CleanupPending, Some(n), false));
      }
      alive := !Crashes(luck);
      phase := if alive then Serving else Down;
      assert Here() == Next(old(Here()), Go(luck));
    }

    /** An exception other than an operating-system error, after the commit: the candidate stays active. */
    method Escape(ghost a: Attempt)
      requires OnPath() && phase == Working(a) && Committed(a.at)
      modifies this`phase
      ensures OnPath() && phase == Serving && Active in names && names[Active] == a.candidate
    {
      CameStep(origin, Here(), Step.Escape);
      phase := Serving;
    }

    /** Bookkeeping once the candidate serves: the receipt, and the superseded tree unless it is retained. */
    method SettleDown(n: nat, retain: bool, ghost a: Attempt, env: Surroundings, escapes: Escapes) returns (answer: Answer)
      requires OnPath() && phase == Working(a) && a.n == n && a.retain == retain && a.at.JournalComplete?
      requires Superseded(n) in names
      modifies this`phase, this`journal, this`names
      ensures OnPath() && phase == if answer == Died then Down else Serving
      ensures answer == Replaced || answer == Unreported || answer == Died
      ensures Active in names && names[Active] == a.candidate
      ensures retain ==> names == old(names)
      ensures answer == Replaced <==> forall p | p in SettlingPoints(retain, env) :: !escapes(p) && !Crashes(env(p))
      ensures SameButOld(names, old(names), n)
      ensures !retain && answer == Replaced && env(RemoveOld) == Ok ==> names == old(names) - {Superseded(n)}
      ensures answer == Replaced ==> Receipted(journal, n, retain, env)
    {
      if escapes(JournalComplete) {
        Escape(a);
        return Unreported;
      }
      var alive := RecordComplete(n, retain, a, env(JournalComplete));
      if !alive || retain { return if alive then Replaced else Died; }
      answer := RemoveOldTree(n, a.(at := RemoveOld), env, escapes);
    }

    method RemoveOldTree(n: nat, ghost a: Attempt, env: Surroundings, escapes: Escapes) returns (answer: Answer)
      requires OnPath() && phase == Working(a) && a.n == n && a.at.RemoveOld? && Superseded(n) in names
      modifies this`phase, this`journal, this`names
      ensures OnPath() && phase == if answer == Died then Down else Serving
      ensures answer == Replaced || answer == Unreported || answer == Died
      ensures Active in names && names[Active] == a.candidate
      ensures var at := if env(RemoveOld) == Ok then JournalRemoved else JournalPending;
        answer == Replaced <==> !escapes(RemoveOld) && !Crashes(env(RemoveOld)) && !escapes(at) && !Crashes(env(at))
      ensures SameButOld(names, old(names), n)
      ensures answer == Replaced && env(RemoveOld) == Ok ==> names == old(names) - {Superseded(n)}
      ensures answer == Replaced ==> Receipted(journal, n, false, env)
    {
      if escapes(RemoveOld) {
        Escape(a);
        return Unreported;
      }
      var alive, found := RemoveTree(n, a, env(RemoveOld));
      if !alive { return Died; }
      var removed := env(RemoveOld) == Ok;
      answer := CloseRemoval(n, removed, a.(at := if removed then JournalRemoved else JournalPending), env, escapes);
    }

    /** The receipt of a removal, done or not. */
    method CloseRemoval(n: nat, removed: bool, ghost a: Attempt, env: Surroundings, escapes: Escapes) returns (answer: Answer)
      requires OnPath() && phase == Working(a) && a.n == n && a.at == if removed then JournalRemoved else JournalPending
      modifies this`phase, this`journal
      ensures OnPath() && phase == if answer == Died then Down else Serving
      ensures answer == if escapes(a.at) then Unreported else if Crashes(env(a.at)) then Died else Replaced
      ensures answer == Replaced && Happens(env(a.at)) ==>
        journal == Some(if removed then Journal(Complete, None, false) else Journal(CleanupPending, Some(n), false))
    {
      var at := if removed then JournalRemoved else JournalPending;
      if escapes(at) {
        Escape(a);
        return Unreported;
      }
      var alive := RecordRemoval(n, removed, a, env(at));
      answer := if alive then Replaced else Died;
    }

    // -- the handler

    /** The candidate back under its own name, if it was moved and the names still say so. */
    method PutBackCandidate(c: nat, movedCandidate: bool, ghost a: Attempt, luck: Luck) returns (v: Verdict)
      requires OnPath() && phase == Working(a) && a.c == c && a.movedCandidate == movedCandidate && a.at.BackCandidate?
      modifies this`phase, this`names
      ensures OnPath() && SameElse(names, old(names), c, a.n)
      ensures v == if Crashes(luck) then Dead else if movedCandidate && luck != Ok then Raised else Fine
      ensures phase == match v case Fine => Working(a.(at := BackOld)) case Raised => Working(a.(at := JournalFailed)) case Dead => Down
    {
      CameStep(origin, Here(), Go(luck));
      var due := movedCandidate && Candidate(c) !in names && Active in names;
      if due && (luck == Ok || luck == CrashLate) {
        names := Rename(names, Active, Candidate(c));
      }
      v := if Crashes(luck) then Dead else if due && luck != Ok then Raised else Fine;
      phase := match v case Fine => Working(a.(at := BackOld)) case Raised => Working(a.(at := JournalFailed)) case Dead => Down;
      assert Here() == Next(old(Here()), Go(luck));
    }

    /** The old tree back under the active name. */
    method PutBackOld(n: nat, movedOld: bool, ghost a: Attempt, luck: Luck) returns (v: Verdict)
      requires OnPath() && phase == Working(a) && a.n == n && a.movedOld == movedOld && a.at.BackOld?
      modifies this`phase, this`names
      ensures OnPath() && SameElse(names, old(names), a.c, n)
      ensures v == if Crashes(luck) then Dead else if movedOld && luck != Ok then Raised else Fine
      ensures phase == match v case Fine => Working(a.(at := BackSync)) case Raised => Working(a.(at := JournalFailed)) case Dead => Down
    {
      CameStep(origin, Here(), Go(luck));
      var due := movedOld && Active !in names && Superseded(n) in names;
      if due && (luck == Ok || luck == CrashLate) {
        names := Rename(names, Superseded(n), Active);
      }
      v := if Crashes(luck) then Dead else if due && luck != Ok then Raised else Fine;
      phase := match v case Fine => Working(a.(at := BackSync)) case Raised => Working(a.(at := JournalFailed)) case Dead => Down;
      assert Here() == Next(old(Here()), Go(luck));
    }

    /** Stopping whatever was started; an exception here is swallowed. */
    method StopAgain(ghost a: Attempt, luck: Luck) returns (alive: bool)
      requires OnPath() && phase == Working(a) && a.at.BackStop?
      modifies this`phase
      ensures OnPath() && phase == if alive then Working(a.(at := BackCandidate)) else Down
      ensures alive == !Crashes(luck)
    {
      CameStep(origin, Here(), Go(luck));
      alive := !Crashes(luck);
      phase := if alive then Working(a.(at := BackCandidate)) else Down;
      assert Here() == Next(old(Here()), Go(luck));
    }

    method SyncBack(ghost a: Attempt, luck: Luck) returns (v: Verdict)
      requires OnPath() && phase == Working(a) && a.at.BackSync?
      modifies this`phase
      ensures OnPath() && v == VerdictOf(luck)
      ensures phase == match v
        case Fine => Working(a.(at := JournalRolledBack)) case Raised => Working(a.(at := JournalFailed)) case Dead => Down
    {
      CameStep(origin, Here(), Go(luck));
      v := VerdictOf(luck);
      phase := match v
        case Fine => Working(a.(at := JournalRolledBack)) case Raised => Working(a.(at := JournalFailed)) case Dead => Down;
      assert Here() == Next(old(Here()), Go(luck));
    }

    method RecordRolledBack(n: nat, offline: bool, ghost a: Attempt, luck: Luck) returns (v: Verdict)
      requires OnPath() && phase == Working(a) && a.n == n && a.offline == offline && a.at.JournalRolledBack?
      modifies this`phase, this`journal
      ensures OnPath() && v == VerdictOf(luck)
      ensures phase == match v
        case Fine => Working(a.(at := BackFinish)) case Raised => Working(a.(at := JournalFailed)) case Dead => Down
      ensures v.Fine? ==> journal == Some(Journal(RolledBack, None, false))
    {
      CameStep(origin, Here(), Go(luck));
      RolledBackStep(Here(), a, luck);
      v := VerdictOf(luck);
      if Happens(luck) {
        journal := Some(Journal(RolledBack, if !offline && Superseded(n) in names then Some(n) else None, false));
      }
      phase := match v
        case Fine => Working(a.(at := BackFinish)) case Raised => Working(a.(at := JournalFailed)) case Dead => Down;
      assert Here() == Next(old(Here()), Go(luck));
    }

    method RecordFailed(n: nat, ghost a: Attempt, luck: Luck)
      requires OnPath() && phase == Working(a) && a.n == n && a.at.JournalFailed?
      modifies this`phase, this`journal
      ensures OnPath() && phase == Down
    {
      CameStep(origin, Here(), Go(luck));
      if Happens(luck) {
        journal := Some(Journal(RollbackFailed, Some(n), false));
      }
      phase := Down;
      assert Here() == Next(old(Here()), Go(luck));
    }

    /** Offline the temporary candidate goes; online the old owner is started again. */
    method FinishBack(c: nat, offline: bool, ghost a: Attempt, luck: Luck)
      requires OnPath() && phase == Working(a) && a.c == c && a.offline == offline && a.at.BackFinish?
      modifies this`phase, this`names
      ensures OnPath() && !phase.Working? && SameElse(names, old(names), c, a.n)
      ensures IsBack(a, luck)
    {
      CameStep(origin, Here(), Go(luck));
      FinishStep(Here(), a, luck);
      if offline && Candidate(c) in names {
        names := Remove(names, Candidate(c), luck);
      }
      phase := if !offline && luck == Ok then Serving else Down;
      assert Here() == Next(old(Here()), Go(luck));
    }

    /** Put the names back, looking at each before it is moved. */
    method PutBack(c: nat, n: nat, movedOld: bool, movedCandidate: bool, ghost a: Attempt, env: Surroundings) returns (v: Verdict)
      requires OnPath() && phase == Working(a) && a.c == c && a.n == n && a.at.BackStop?
      requires a.movedOld == movedOld && a.movedCandidate == movedCandidate
      modifies this`phase, this`names
      ensures OnPath() && SameElse(names, old(names), c, n)
      ensures v.Fine? <==> PutsBack(movedOld, movedCandidate, env)
      ensures phase == match v
        case Fine => Working(a.(at := JournalRolledBack)) case Raised => Working(a.(at := JournalFailed)) case Dead => Down
    {
      var alive := StopAgain(a, env(BackStop));
      if !alive { return Dead; }
      v := PutBackCandidate(c, movedCandidate, a.(at := BackCandidate), env(BackCandidate));
      if v != Fine { return; }
      v := PutBackOld(n, movedOld, a.(at := BackOld), env(BackOld));
      if v != Fine { return; }
      v := SyncBack(a.(at := BackSync), env(BackSync));
    }

    /** The handler: names back, the outcome journalled, and the old owner or the recovery roots left. */
    method RollBack(c: nat, n: nat, offline: bool, movedOld: bool, movedCandidate: bool, ghost a: Attempt, env: Surroundings)
      returns (answer: Answer)
      requires OnPath() && phase == Working(a) && a.c == c && a.n == n && a.offline == offline && a.at.BackStop?
      requires a.movedOld == movedOld && a.movedCandidate == movedCandidate
      modifies this`phase, this`names, this`journal
      ensures OnPath() && !phase.Working? && answer != Replaced && answer != Unreported
      ensures answer == Restored <==> GoesBack(movedOld, movedCandidate, env)
      ensures answer == Restored ==> IsBack(a, env(BackFinish))
      ensures SameElse(names, old(names), c, n)
      ensures answer == Restored ==> journal == Some(Journal(RolledBack, None, false))
    {
      var v := PutBack(c, n, movedOld, movedCandidate, a, env);
      match v
      case Fine =>
        answer := CloseBack(c, n, offline, a.(at := JournalRolledBack), env);
      case Raised =>
        RecordFailed(n, a.(at := JournalFailed), env(JournalFailed));
        answer := Unrestored;
      case Dead => answer := Died;
    }

    /** The old tree is active again and the superseded name free; offline the candidate is gone if its removal went well. */
    ghost predicate IsBack(a: Attempt, luck: Luck)
      reads this
    {
      && Active in names && names[Active] == a.previous && Superseded(a.n) !in names
      && (!a.offline ==> Candidate(a.c) in names && names[Candidate(a.c)] == a.candidate)
      && (a.offline && luck == Ok ==> Candidate(a.c) !in names)
    }

    /** The names are back: the receipt, then the old owner again or the recovery roots. */
    method CloseBack(c: nat, n: nat, offline: bool, ghost a: Attempt, env: Surroundings) returns (answer: Answer)
      requires OnPath() && phase == Working(a) && a.c == c && a.n == n && a.offline == offline && a.at.JournalRolledBack?
      modifies this`phase, this`names, this`journal
      ensures OnPath() && !phase.Working? && answer != Replaced && answer != Unreported
      ensures answer == Restored <==> env(JournalRolledBack) == Ok && !Crashes(env(BackFinish))
      ensures answer == Restored ==> IsBack(a, env(BackFinish))
      ensures SameElse(names, old(names), c, n)
      ensures answer == Restored ==> journal == Some(Journal(RolledBack, None, false))
    {
      var v := RecordRolledBack(n, offline, a, env(JournalRolledBack));
      match v
      case Fine =>
        FinishBack(c, offline, a.(at := BackFinish), env(BackFinish));
        answer := if Crashes(env(BackFinish)) then Died else Restored;
      case Raised =>
        RecordFailed(n, a.(at := JournalFailed), env(JournalFailed));
        answer := Unrestored;
      case Dead => answer := Died;
    }

    // -- the request

    /** Up to the free active name. */
    method ClearTheName(n: nat, offline: bool, retain: bool, ghost a: Attempt, env: Surroundings) returns (v: Verdict, movedOld: bool)
      requires OnPath() && phase == Working(a) && a.n == n && a.offline == offline && a.retain == retain
      requires a.at.JournalVerified? && !a.movedOld
      modifies this`phase, this`journal, this`names
      ensures OnPath() && Stands(v, a.(movedOld := movedOld), MoveCandidate)
      ensures v == if Meets(Preparing(offline), env) != Fine then Meets(Preparing(offline), env) else Meets(SettingAside(offline), env)
      ensures movedOld == MovesOld(offline, env) && SameElse(names, old(names), a.c, n)
      ensures v.Fine? ==> movedOld
    {
      ForwardInParts(offline, env);
      MeetsInOrder(MoveOld, SyncOld, JournalQuarantined, JournalQuarantined, env);
      movedOld := false;
      v := Prepare(n, offline, retain, a, env);
      if v != Fine { return; }
      v, movedOld := Quarantine(n, offline, retain, a.(at := MoveOld), env);
    }

    /** The candidate in, and started. */
    method TakeTheName(c: nat, n: nat, retain: bool, ghost a: Attempt, env: Surroundings) returns (v: Verdict, movedCandidate: bool)
      requires OnPath() && phase == Working(a) && a.c == c && a.n == n && a.retain == retain && a.at.MoveCandidate?
      modifies this`phase, this`journal, this`names, this`kept, this`givenUp
      ensures OnPath() && Stands(v, a.(movedCandidate := movedCandidate), JournalComplete)
      ensures v == if Meets(PUBLISHING, env) != Fine then Meets(PUBLISHING, env) else VerdictOf(env(StartCandidate))
      ensures movedCandidate == (env(MoveCandidate) == Ok) && SameElse(names, old(names), c, n)
      ensures old(kept) <= kept && (!v.Fine? || retain ==> givenUp == old(givenUp))
      ensures kept == if v.Fine? then old(kept) + {a.candidate.id} else old(kept)
      ensures v.Fine? ==> movedCandidate && Published(Here(), a)
    {
      MeetsInOrder(MoveCandidate, SyncCandidate, JournalPublished, JournalPublished, env);
      v, movedCandidate := Publish(c, n, retain, a, env);
      if v != Fine { return; }
      v := StartActive(a.(movedCandidate := true, at := StartCandidate), env(StartCandidate));
    }

    /** Forward as far as the steps go; the flags say which renames happened. */
    method Advance(c: nat, n: nat, offline: bool, retain: bool, ghost a: Attempt, env: Surroundings)
      returns (v: Verdict, movedOld: bool, movedCandidate: bool)
      requires OnPath() && phase == Working(a) && a.c == c && a.n == n && a.offline == offline && a.retain == retain
      requires a.at.JournalVerified? && !a.movedOld && !a.movedCandidate
      modifies this`phase, this`journal, this`names, this`kept, this`givenUp
      ensures OnPath()
      ensures Stands(v, a.(movedOld := movedOld, movedCandidate := movedCandidate), JournalComplete)
      ensures old(kept) <= kept && (!v.Fine? || retain ==> givenUp == old(givenUp))
      ensures v == Meets(ForwardPoints(offline), env) && SameElse(names, old(names), c, n)
      ensures movedOld == MovesOld(offline, env) && movedCandidate == MovesCandidate(offline, env)
      ensures kept == if v.Fine? then old(kept) + {a.candidate.id} else old(kept)
      ensures v.Fine? ==> Published(Here(), a)
    {
      ForwardInParts(offline, env);
      movedCandidate := false;
      v, movedOld := ClearTheName(n, offline, retain, a, env);
      if v != Fine { return; }
      v, movedCandidate := TakeTheName(c, n, retain, a.(movedOld := true, at := MoveCandidate), env);
    }

    /** Open the attempt; `n` is the fresh name the superseded tree will get. */
    method Open(c: nat, n: nat, offline: bool, retain: bool) returns (ghost a: Attempt)
      requires Inv(Here()) && Enabled(Here(), Begin(c, offline, retain)) && n == next
      modifies this
      ensures OnPath() && origin == old(Here()) && names == old(names) && phase == Working(a)
      ensures a == Attempt(n, c, offline, retain, JournalVerified, false, false, names[Active], names[Candidate(c)])
      ensures names[Active].id in kept - givenUp && a.candidate.id !in kept && Superseded(n) !in names
    {
      origin := Here();
      assert Play(origin, []) == origin;
      CameStep(origin, Here(), Begin(c, offline, retain));
      ghost var w := Next(Here(), Begin(c, offline, retain));
      a := w.phase.a;
      phase, next, kept := w.phase, w.next, w.kept;
      assert Here() == w;
      CameKeepsInv(origin, Here());
    }

    /** The request from its first journal write on. */
    method Carry(c: nat, n: nat, offline: bool, retain: bool, ghost a: Attempt, env: Surroundings, escapes: Escapes)
      returns (answer: Answer)
      requires OnPath() && phase == Working(a) && a.c == c && a.n == n && a.offline == offline && a.retain == retain
      requires a.at.JournalVerified? && !a.movedOld && !a.movedCandidate && a.candidate.id !in kept
      modifies this`phase, this`journal, this`names, this`kept, this`givenUp
      ensures OnPath() && !phase.Working? && SameElse(names, old(names), c, n)
      ensures a.candidate.id in kept <==> Meets(ForwardPoints(offline), env) == Fine
      ensures answer == Replaced || answer == Unreported ==> Meets(ForwardPoints(offline), env) == Fine
      ensures Meets(ForwardPoints(offline), env) == Fine ==> Active in names && names[Active] == a.candidate
      ensures answer == Replaced <==>
        && Meets(ForwardPoints(offline), env) == Fine
        && forall p | p in SettlingPoints(retain, env) :: !escapes(p) && !Crashes(env(p))
      ensures answer == Replaced ==> IsReplaced(a, env)
      ensures answer == Restored <==>
        Meets(ForwardPoints(offline), env) == Raised && GoesBack(MovesOld(offline, env), MovesCandidate(offline, env), env)
      ensures answer == Restored ==> IsBack(a, env(BackFinish))
      ensures old(kept) <= kept && (answer == Restored || answer == Unrestored || retain ==> givenUp == old(givenUp))
      ensures Meets(ForwardPoints(offline), env) != Fine ==> givenUp == old(givenUp)
      ensures answer == Replaced ==> Receipted(journal, n, retain, env)
      ensures answer == Restored ==> journal == Some(Journal(RolledBack, None, false))
    {
      var v, movedOld, movedCandidate := Advance(c, n, offline, retain, a, env);
      ghost var b := a.(movedOld := movedOld, movedCandidate := movedCandidate);
      match v
      case Fine =>
        ghost var published := names;
        answer := SettleDown(n, retain, b.(at := JournalComplete), env, escapes);
        SameButOldIsSameElse(names, published, c, n);
      case Raised => answer := RollBack(c, n, offline, movedOld, movedCandidate, b.(at := BackStop), env);
      case Dead => answer := Died;
    }

    /** The candidate is active and no longer under its own name; the old tree is kept aside, or gone if its removal went well. */
    ghost predicate IsReplaced(a: Attempt, env: Surroundings)
      reads this
    {
      && Active in names && names[Active] == a.candidate && Candidate(a.c) !in names
      && (a.retain ==> Superseded(a.n) in names && names[Superseded(a.n)] == a.previous)
      && (!a.retain && env(RemoveOld) == Ok ==> Superseded(a.n) !in names)
    }

    /**
      The whole request, a run of the machine. The candidate takes over exactly if every forward
      point goes well; "replaced" is answered exactly if the bookkeeping then neither dies nor
      escapes, and the names are the old ones with the candidate in place. "Restored" is answered
      exactly if a forward point raised and the reverse goes through, and the names are then the old
      ones. Unless the candidate took over without retention, the old tree is still whole under the
      active or a superseded name.
     */
    method Replace(c: nat, n: nat, offline: bool, retain: bool, env: Surroundings, escapes: Escapes) returns (answer: Answer)
      requires Inv(Here()) && Enabled(Here(), Begin(c, offline, retain)) && n == next
      modifies this
      ensures Reaches(old(Here()), Here()) && !phase.Working?
      ensures old(names[Candidate(c)].id) in kept <==> forall p | p in ForwardPoints(offline) :: env(p) == Ok
      ensures answer == Replaced <==>
        && (forall p | p in ForwardPoints(offline) :: env(p) == Ok)
        && (forall p | p in SettlingPoints(retain, env) :: !escapes(p) && !Crashes(env(p)))
      ensures answer == Restored <==>
        Meets(ForwardPoints(offline), env) == Raised && GoesBack(MovesOld(offline, env), MovesCandidate(offline, env), env)
      ensures answer == Replaced || answer == Unreported ==> Active in names && names[Active] == old(names[Candidate(c)])
      ensures answer == Replaced && retain ==>
        names == (old(names) - {Candidate(c)})[Active := old(names[Candidate(c)])][Superseded(n) := old(names[Active])]
      ensures answer == Replaced && !retain && env(RemoveOld) == Ok ==>
        names == (old(names) - {Candidate(c)})[Active := old(names[Candidate(c)])]
      ensures answer == Restored ==> Active in names && names[Active] == old(names[Active])
      ensures answer == Restored && !offline ==> names == old(names)
      ensures answer == Restored && offline && env(BackFinish) == Ok ==> names == old(names) - {Candidate(c)}
      ensures answer == Restored || answer == Unrestored || retain ==> Held(names, old(names[Active].id))
      ensures Held(names, old(names[Active].id)) || (Active in names && names[Active] == old(names[Candidate(c)]))
      ensures answer == Replaced ==> Receipted(journal, n, retain, env)
      ensures answer == Restored ==> journal == Some(Journal(RolledBack, None, false))
    {
      ghost var a := Open(c, n, offline, retain);
      FineIffAllOk(ForwardPoints(offline), env);
      answer := Carry(c, n, offline, retain, a, env, escapes);
      CameKeepsInv(origin, Here());
      if answer == Replaced && retain {
        RetainedNames(names, old(names), c, n, a.candidate, a.previous);
      } else if answer == Replaced && env(RemoveOld) == Ok {
        TidiedNames(names, old(names), c, n, a.candidate);
      } else if answer == Restored {
        RestoredNames(names, old(names), c, n);
      }
    }

    /** The startup cleanup: it removes a superseded tree only on an explicit receipt of no retention. */
    method CleanupCompleted(luck: Luck, written: bool)
      requires Inv(Here()) && phase.Started?
      modifies this`phase, this`journal, this`names
      ensures Reaches(old(Here()), Here()) && phase == if Removable(old(Here())) && Crashes(luck) then Down else Serving
      ensures !Removable(old(Here())) ==> names == old(names) && journal == old(journal)
      ensures forall id | id in kept - givenUp :: Held(names, id)
      ensures Removable(old(Here())) && luck == Ok ==>
        && names == old(names) - {Superseded(old(journal).value.superseded.value)}
        && journal == if written then Some(Journal(Complete, None, false)) else old(journal)
    {
      StepReaches(Here(), Cleanup(luck, written));
      if journal.Some? && (journal.value.state.Complete? || journal.value.state.CleanupPending?) && !journal.value.retain
         && journal.value.superseded.Some? && Superseded(journal.value.superseded.value) in names {
        names := Remove(names, Superseded(journal.value.superseded.value), luck);
        if !Crashes(luck) && luck == Ok && written {
          journal := Some(Journal(Complete, None, journal.value.retain));
        }
        phase := if Crashes(luck) then Down else Serving;
      } else {
        phase := Serving;
      }
      assert Here() == Next(old(Here()), Cleanup(luck, written));
    }
  }
}
