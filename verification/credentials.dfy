/**
  Bearer credentials on disk: a token file, a metadata file and a commit marker that holds the
  digests of both. The marker is written last and removed first, so that a crash between two
  file operations leaves nothing that authenticates as a mixture of two generations. One path
  writes a marker without a publication: a provision that finds both data files and no marker
  takes them for the format that had none, and adopts them as they are.
 */
module Credentials {
  import opened Ascii
  import opened Wrappers

  datatype Metadata = Metadata(actor: string, scopes: set<string>, extra: string)

  datatype Marker = Marker(tokenSha: nat, metadataSha: nat)

  /** SHA-256 of the token bytes and of the serialized metadata. */
  datatype Hash = Hash(token: string -> nat, metadata: Metadata -> nat)

  /** Two different byte strings never share a digest. */
  ghost predicate CollisionFree(h: Hash) {
    && (forall a: string, b: string :: h.token(a) == h.token(b) ==> a == b)
    && (forall a: Metadata, b: Metadata :: h.metadata(a) == h.metadata(b) ==> a == b)
  }

  datatype Store = Store(tokens: map<string, string>, metadata: map<string, Metadata>, markers: map<string, Marker>, disabled: set<string>)

  /** What the store does, with the number of file operations that took effect before a crash. */
  datatype Op =
    | Publish(actor: string, token: string, value: Metadata, effects: nat)
    | Adopt(actor: string, value: Metadata, effects: nat)
    | Revoke(actor: string, effects: nat)
    | Disable(actor: string)
    | Enable(actor: string)
    | Restart

  function Mark(h: Hash, token: string, value: Metadata): Marker {
    Marker(h.token(token), h.metadata(value))
  }

  /** The generation on disk, when the three files agree. */
  function Generation(h: Hash, s: Store, actor: string): Option<(string, Metadata)> {
    if actor in s.tokens && actor in s.metadata && actor in s.markers
       && Strip(s.tokens[actor]) != []
       && s.markers[actor] == Mark(h, s.tokens[actor], s.metadata[actor])
    then Some((Strip(s.tokens[actor]), s.metadata[actor])) else None
  }

  function Published(h: Hash, s: Store, actor: string, token: string, value: Metadata, effects: nat): Store {
    s.(tokens := if effects >= 1 then s.tokens[actor := token] else s.tokens,
       metadata := if effects >= 2 then s.metadata[actor := value] else s.metadata,
       markers := if effects >= 3 then s.markers[actor := Mark(h, token, value)] else s.markers)
  }

  /** Data files without a marker, a token that is not blank, and the metadata that is asked for. */
  predicate Adoptable(s: Store, actor: string, value: Metadata) {
    && actor !in s.markers && actor in s.tokens && actor in s.metadata
    && Strip(s.tokens[actor]) != [] && s.metadata[actor] == value
  }

  function Adopted(h: Hash, s: Store, actor: string, value: Metadata, effects: nat): Store {
    if Adoptable(s, actor, value) && effects >= 1
    then s.(markers := s.markers[actor := Mark(h, s.tokens[actor], s.metadata[actor])]) else s
  }

  function Revoked(s: Store, actor: string, effects: nat): Store {
    s.(markers := if effects >= 1 then s.markers - {actor} else s.markers,
       metadata := if effects >= 2 then s.metadata - {actor} else s.metadata,
       tokens := if effects >= 3 then s.tokens - {actor} else s.tokens,
       disabled := s.disabled + {actor})
  }

  function Apply(h: Hash, s: Store, op: Op): Store {
    match op
    case Publish(actor, token, value, effects) => Published(h, s, actor, token, value, effects)
    case Adopt(actor, value, effects) => Adopted(h, s, actor, value, effects)
    case Revoke(actor, effects) => Revoked(s, actor, effects)
    case Disable(actor) => s.(disabled := s.disabled + {actor})
    case Enable(actor) => if Generation(h, s, actor).Some? then s.(disabled := s.disabled - {actor}) else s
    case Restart => s.(disabled := {})
  }

  const EMPTY := Store(map[], map[], map[], {})

  function Run(h: Hash, ops: seq<Op>): Store
    decreases |ops|
  {
    if ops == [] then EMPTY else Apply(h, Run(h, ops[..|ops| - 1]), ops[|ops| - 1])
  }

  /** An adoption by this operation, as the store stands. */
  predicate Adopts(s: Store, op: Op, actor: string) {
    op.Adopt? && op.actor == actor && op.effects >= 1 && Adoptable(s, actor, op.value)
  }

  /**
    The pair the last commit marker of an actor was written for, by a completed publication or an
    adoption, unless a later revocation took that marker away.
   */
  function Named(h: Hash, ops: seq<Op>, actor: string): Option<(string, Metadata)>
    decreases |ops|
  {
    if ops == [] then None else
      var last, before := ops[|ops| - 1], Run(h, ops[..|ops| - 1]);
      if last.Publish? && last.actor == actor && last.effects >= 3 then Some((last.token, last.value))
      else if Adopts(before, last, actor) then Some((before.tokens[actor], before.metadata[actor]))
      else if last.Revoke? && last.actor == actor && last.effects >= 1 then None
      else Named(h, ops[..|ops| - 1], actor)
  }

  // -- what holds of every history, crashes included

  lemma {:induction false} MarkerIsNamed(h: Hash, ops: seq<Op>, actor: string)
    ensures actor in Run(h, ops).markers <==> Named(h, ops, actor).Some?
    ensures actor in Run(h, ops).markers ==>
              Run(h, ops).markers[actor] == Mark(h, Named(h, ops, actor).value.0, Named(h, ops, actor).value.1)
    decreases |ops|
  {
    if ops != [] {
      MarkerIsNamed(h, ops[..|ops| - 1], actor);
    }
  }

  /**
    Whatever authenticates is the pair the last marker was written for, and that marker has not
    been revoked since. It authenticates exactly while both data files still hold that pair.
   */
  lemma AcceptedIsTheLastCommit(h: Hash, ops: seq<Op>, actor: string)
    requires CollisionFree(h)
    ensures var s := Run(h, ops);
            Generation(h, s, actor).Some? <==>
              && Named(h, ops, actor).Some?
              && actor in s.tokens && s.tokens[actor] == Named(h, ops, actor).value.0
              && actor in s.metadata && s.metadata[actor] == Named(h, ops, actor).value.1
              && Strip(s.tokens[actor]) != []
    ensures Generation(h, Run(h, ops), actor).Some? ==>
              Generation(h, Run(h, ops), actor) == Some((Strip(Named(h, ops, actor).value.0), Named(h, ops, actor).value.1))
  {
    MarkerIsNamed(h, ops, actor);
  }

  // -- which publication a file's bytes come from

  predicate Wrote(op: Op, actor: string, effects: nat) {
    op.Publish? && op.actor == actor && op.effects >= effects
  }

  predicate Erased(op: Op, actor: string, effects: nat) {
    op.Revoke? && op.actor == actor && op.effects >= effects
  }

  /** The last publication to have written a file that is the `writing`-th to be written and the `erasing`-th to go. */
  function Writer(ops: seq<Op>, actor: string, writing: nat, erasing: nat): (i: Option<nat>)
    ensures i.Some? ==> i.value < |ops| && Wrote(ops[i.value], actor, writing)
    decreases |ops|
  {
    if ops == [] then None
    else if Wrote(ops[|ops| - 1], actor, writing) then Some(|ops| - 1)
    else if Erased(ops[|ops| - 1], actor, erasing) then None
    else Writer(ops[..|ops| - 1], actor, writing, erasing)
  }

  function TokenWriter(ops: seq<Op>, actor: string): (i: Option<nat>)
    ensures i.Some? ==> i.value < |ops| && Wrote(ops[i.value], actor, 1)
  {
    Writer(ops, actor, 1, 3)
  }

  function MetadataWriter(ops: seq<Op>, actor: string): (i: Option<nat>)
    ensures i.Some? ==> i.value < |ops| && Wrote(ops[i.value], actor, 2)
  {
    Writer(ops, actor, 2, 2)
  }

  lemma {:induction false} FilesComeFromWriters(h: Hash, ops: seq<Op>, actor: string)
    ensures actor in Run(h, ops).tokens <==> TokenWriter(ops, actor).Some?
    ensures actor in Run(h, ops).tokens ==> Run(h, ops).tokens[actor] == ops[TokenWriter(ops, actor).value].token
    ensures actor in Run(h, ops).metadata <==> MetadataWriter(ops, actor).Some?
    ensures actor in Run(h, ops).metadata ==> Run(h, ops).metadata[actor] == ops[MetadataWriter(ops, actor).value].value
    decreases |ops|
  {
    if ops != [] {
      FilesComeFromWriters(h, ops[..|ops| - 1], actor);
    }
  }

  /** The metadata is never newer than the token, and as new exactly when the token's publication got that far. */
  lemma {:induction false} WritersAgreeIff(ops: seq<Op>, actor: string)
    requires TokenWriter(ops, actor).Some? && MetadataWriter(ops, actor).Some?
    ensures MetadataWriter(ops, actor).value <= TokenWriter(ops, actor).value
    ensures MetadataWriter(ops, actor) == TokenWriter(ops, actor) <==> ops[TokenWriter(ops, actor).value].effects >= 2
    decreases |ops|
  {
    var n := |ops| - 1;
    if !Wrote(ops[n], actor, 1) {
      WritersAgreeIff(ops[..n], actor);
    }
  }

  predicate IsPair(op: Op, actor: string, pair: (string, Metadata)) {
    op.Publish? && op.actor == actor && op.effects >= 2 && (op.token, op.value) == pair
  }

  /** One publication wrote both data files with these bytes. */
  predicate OnePublication(ops: seq<Op>, actor: string, pair: (string, Metadata)) {
    exists i :: 0 <= i < |ops| && IsPair(ops[i], actor, pair)
  }

  /** No token is issued to an actor twice. */
  predicate FreshTokens(ops: seq<Op>, actor: string) {
    forall i, j :: 0 <= i < j < |ops| && Wrote(ops[i], actor, 1) && Wrote(ops[j], actor, 1) ==> ops[i].token != ops[j].token
  }

  predicate Marks(h: Hash, ops: seq<Op>, k: nat, actor: string)
    requires k < |ops|
  {
    Wrote(ops[k], actor, 3) || Adopts(Run(h, ops[..k]), ops[k], actor)
  }

  /** Where the marker in force was written. */
  function MarkedAt(h: Hash, ops: seq<Op>, actor: string): (k: nat)
    requires Named(h, ops, actor).Some?
    ensures k < |ops| && Marks(h, ops, k, actor)
    ensures Wrote(ops[k], actor, 3) ==> Named(h, ops, actor).value == (ops[k].token, ops[k].value)
    ensures !Wrote(ops[k], actor, 3) ==>
              Named(h, ops, actor).value == (Run(h, ops[..k]).tokens[actor], Run(h, ops[..k]).metadata[actor])
    ensures forall m :: k < m < |ops| ==> !Erased(ops[m], actor, 1)
    decreases |ops|
  {
    var n := |ops| - 1;
    if Marks(h, ops, n, actor) then n
    else
      var k := MarkedAt(h, ops[..n], actor);
      assert ops[..n][..k] == ops[..k];
      k
  }

  /**
    The pair a marker was written for is one publication's, exactly unless an adoption wrote it over
    a token whose publication had stopped before the metadata.
   */
  lemma NamedPairIsOnePublicationIff(h: Hash, ops: seq<Op>, actor: string)
    requires FreshTokens(ops, actor) && Named(h, ops, actor).Some?
    ensures var k := MarkedAt(h, ops, actor);
            var i := TokenWriter(ops[..k], actor);
            OnePublication(ops, actor, Named(h, ops, actor).value) <==>
              Wrote(ops[k], actor, 3) || (i.Some? && ops[i.value].effects >= 2)
  {
    var k := MarkedAt(h, ops, actor);
    var pair := Named(h, ops, actor).value;
    if Wrote(ops[k], actor, 3) {
      assert IsPair(ops[k], actor, pair);
    } else {
      FilesComeFromWriters(h, ops[..k], actor);
      WritersAgreeIff(ops[..k], actor);
      var i := TokenWriter(ops[..k], actor).value;
      assert pair.0 == ops[i].token;
      if ops[i].effects >= 2 {
        assert IsPair(ops[i], actor, pair);
      }
      if OnePublication(ops, actor, pair) {
        var n :| 0 <= n < |ops| && IsPair(ops[n], actor, pair);
        assert n == i;
      }
    }
  }

  /** A completed publication reads back; a token of blanks alone is the one that does not. */
  lemma PublishReadsBack(h: Hash, ops: seq<Op>, actor: string, token: string, value: Metadata)
    requires CollisionFree(h)
    ensures Generation(h, Run(h, ops + [Publish(actor, token, value, 3)]), actor)
         == if Strip(token) == [] then None else Some((Strip(token), value))
  {
    assert (ops + [Publish(actor, token, value, 3)])[..|ops|] == ops;
  }

  /** An interrupted publication authenticates only if it rewrote the bytes that were there already. */
  lemma TornPublishIsRefused(h: Hash, s: Store, actor: string, token: string, value: Metadata, effects: nat)
    requires CollisionFree(h) && Generation(h, s, actor).Some? && 1 <= effects <= 2
    ensures var s' := Published(h, s, actor, token, value, effects);
            Generation(h, s', actor).Some? <==>
              token == s.tokens[actor] && (effects == 1 || value == s.metadata[actor])
  {
  }

  // -- what brings a revoked credential back

  /** A marker written by an adoption at `k`, not revoked since, over data files that still hold what it adopted. */
  predicate AdoptionStands(h: Hash, ops: seq<Op>, k: nat, actor: string)
    requires k < |ops|
  {
    var was, now := Run(h, ops[..k]), Run(h, ops);
    && Adopts(was, ops[k], actor)
    && (forall m :: k < m < |ops| ==> !Erased(ops[m], actor, 1))
    && actor in now.tokens && now.tokens[actor] == was.tokens[actor]
    && actor in now.metadata && now.metadata[actor] == was.metadata[actor]
  }

  /** A marker that was written and not revoked since is still the one in force. */
  lemma {:induction false} MarkStands(h: Hash, ops: seq<Op>, k: nat, actor: string)
    requires k < |ops| && Marks(h, ops, k, actor)
    requires forall m :: k < m < |ops| ==> !Erased(ops[m], actor, 1)
    ensures Named(h, ops, actor).Some? && k <= MarkedAt(h, ops, actor)
    ensures (forall m :: k < m < |ops| ==> !Wrote(ops[m], actor, 3)) ==> MarkedAt(h, ops, actor) == k
    decreases |ops|
  {
    var n := |ops| - 1;
    if k < n {
      assert ops[..n][..k] == ops[..k];
      MarkStands(h, ops[..n], k, actor);
      MarkerIsNamed(h, ops[..n], actor);
    }
  }

  /**
    After a revocation reached its first file operation, and with no publication completed since,
    something authenticates exactly while an adoption made after the revocation stands.
   */
  lemma RevokedStaysRevoked(h: Hash, ops: seq<Op>, actor: string, effects: nat, later: seq<Op>)
    requires CollisionFree(h)
    requires effects >= 1 && forall op | op in later :: !Wrote(op, actor, 3)
    ensures var all := ops + [Revoke(actor, effects)] + later;
            Generation(h, Run(h, all), actor).Some? <==>
              exists k :: |ops| < k < |all| && AdoptionStands(h, all, k, actor)
  {
    var all := ops + [Revoke(actor, effects)] + later;
    AcceptedIsTheLastCommit(h, all, actor);
    assert Erased(all[|ops|], actor, 1);
    assert forall m :: |ops| < m < |all| ==> all[m] in later;
    if Generation(h, Run(h, all), actor).Some? {
      var k := MarkedAt(h, all, actor);
      assert |ops| < k && AdoptionStands(h, all, k, actor);
    }
    if k :| |ops| < k < |all| && AdoptionStands(h, all, k, actor) {
      MarkStands(h, all, k, actor);
    }
  }

  /** Stopping after its first file operation is the one way a revocation leaves something to adopt. */
  lemma CutRevocationIsAdoptableIff(h: Hash, s: Store, actor: string, effects: nat, value: Metadata)
    requires Generation(h, s, actor).Some? && effects >= 1
    ensures Adoptable(Revoked(s, actor, effects), actor, value) <==> effects == 1 && value == s.metadata[actor]
  {
  }

  lemma RunOne(h: Hash, ops: seq<Op>, op: Op)
    ensures Run(h, ops + [op]) == Apply(h, Run(h, ops), op)
  {
    assert (ops + [op])[..|ops|] == ops;
  }

  /** A run that stops a revocation of `value1` after the marker, and a publication after the token. */
  function CutTwice(actor: string, token1: string, value1: Metadata, token2: string, value2: Metadata): seq<Op> {
    [Publish(actor, token1, value1, 3), Revoke(actor, 1)] + [Publish(actor, token2, value2, 1)]
  }

  lemma RunTwo(h: Hash, a: Op, b: Op)
    ensures Run(h, [a, b]) == Apply(h, Apply(h, EMPTY, a), b)
  {
    RunOne(h, [], a);
    RunOne(h, [a], b);
    assert [] + [a] == [a] && [a] + [b] == [a, b];
  }

  /** A revoked token that authenticates again with no publication in between. */
  lemma RevokedTokenReturns(h: Hash, actor: string, token: string, value: Metadata)
    requires Strip(token) != []
    ensures var revoked := [Publish(actor, token, value, 3), Revoke(actor, 1)];
            && Generation(h, Run(h, revoked), actor).None?
            && Generation(h, Run(h, revoked + [Adopt(actor, value, 1)]), actor) == Some((Strip(token), value))
  {
    var revoked := [Publish(actor, token, value, 3), Revoke(actor, 1)];
    RunTwo(h, revoked[0], revoked[1]);
    RunOne(h, revoked, Adopt(actor, value, 1));
  }

  /** A pair that authenticates although no publication ever wrote it. */
  lemma MixtureAuthenticates(h: Hash, actor: string, token1: string, value1: Metadata, token2: string, value2: Metadata)
    requires Strip(token2) != [] && token1 != token2 && value1 != value2
    ensures var ops := CutTwice(actor, token1, value1, token2, value2) + [Adopt(actor, value1, 1)];
            && Generation(h, Run(h, ops), actor) == Some((Strip(token2), value1))
            && !OnePublication(ops, actor, (token2, value1))
  {
    var revoked := [Publish(actor, token1, value1, 3), Revoke(actor, 1)];
    RunTwo(h, revoked[0], revoked[1]);
    RunOne(h, revoked, Publish(actor, token2, value2, 1));
    RunOne(h, CutTwice(actor, token1, value1, token2, value2), Adopt(actor, value1, 1));
  }

  /** Holding a bearer: an actor that is not disabled and whose generation carries the token. */
  predicate Holds(h: Hash, s: Store, actor: string, token: string) {
    actor !in s.disabled && Generation(h, s, actor).Some? && Generation(h, s, actor).value.0 == token
  }

  /** Which bearers hold after each operation on an actor, from what held before it. */
  lemma HoldsAfter(h: Hash, s: Store, op: Op, actor: string, token: string)
    requires op.Restart? || op.actor == actor
    ensures var inForce := Generation(h, s, actor).Some? && Generation(h, s, actor).value.0 == token;
      var holds := Holds(h, Apply(h, s, op), actor, token);
      match op
      case Restart => holds <==> inForce
      case Enable(_) => holds <==> inForce
      case Disable(_) => !holds
      case Revoke(_, _) => !holds
      case Publish(_, t, _, effects) => effects >= 3 ==> (holds <==> actor !in s.disabled && token == Strip(t) != [])
      case Adopt(_, value, effects) =>
        effects >= 1 && Adoptable(s, actor, value) ==> (holds <==> actor !in s.disabled && token == Strip(s.tokens[actor]))
    ensures op.Enable? ==> (actor in Apply(h, s, op).disabled <==> actor in s.disabled && Generation(h, s, actor).None?)
  {
  }

  // -- provisioning

  /** What a provision does to the files: nothing, adopt what is there, or publish the token it issued. */
  function ProvisionOp(h: Hash, s: Store, actor: string, value: Metadata, rotate: bool, issued: string, effects: nat): Option<Op> {
    var current := Generation(h, s, actor);
    if !rotate && current.Some? && current.value.1 == value then None
    else if !rotate && Adoptable(s, actor, value) then Some(Adopt(actor, value, effects))
    else Some(Publish(actor, issued, value, effects))
  }

  /** The token a provision gives back, unless a crash keeps it from returning. */
  function Returned(h: Hash, s: Store, actor: string, value: Metadata, rotate: bool, issued: string, effects: nat): Option<string> {
    match ProvisionOp(h, s, actor, value, rotate, issued, effects)
    case None => Some(Generation(h, s, actor).value.0)
    case Some(Adopt(_, _, _)) => if effects >= 1 then Some(Strip(s.tokens[actor])) else None
    case Some(_) => if effects >= 3 then Some(issued) else None
  }

  function Provisioned(h: Hash, s: Store, actor: string, value: Metadata, rotate: bool, enabled: bool, issued: string, effects: nat): Store {
    var op := ProvisionOp(h, s, actor, value, rotate, issued, effects);
    var files := if op.None? then s else Apply(h, s, op.value);
    if Returned(h, s, actor, value, rotate, issued, effects).None? then files
    else files.(disabled := if enabled then files.disabled - {actor} else files.disabled + {actor})
  }

  /**
    A provision gives back, as good, a token that did not authenticate before exactly when it does
    not rotate, the marker is absent, both data files are present, the token is not blank and the
    metadata is the requested one.
   */
  lemma UncommittedTokenReturnsIff(h: Hash, s: Store, actor: string, value: Metadata, rotate: bool, enabled: bool, issued: string, effects: nat)
    requires actor in s.tokens ==> issued != Strip(s.tokens[actor])
    ensures Generation(h, s, actor).None? && actor in s.tokens
              && Returned(h, s, actor, value, rotate, issued, effects) == Some(Strip(s.tokens[actor]))
            <==> !rotate && effects >= 1 && Adoptable(s, actor, value)
    ensures !rotate && effects >= 1 && Adoptable(s, actor, value) ==>
              var after := Provisioned(h, s, actor, value, rotate, enabled, issued, effects);
              && Generation(h, after, actor) == Some((Strip(s.tokens[actor]), value))
              && (Holds(h, after, actor, Strip(s.tokens[actor])) <==> enabled)
  {
  }

  /**
    A provision that issues its token and completes makes that token the actor's one bearer: a
    rotating one over any generation whatever, another when nothing on disk carries the metadata.
   */
  lemma IssuedTokenReplaces(h: Hash, s: Store, actor: string, value: Metadata, rotate: bool, enabled: bool, issued: string, effects: nat)
    requires effects >= 3 && Strip(issued) == issued != []
    requires rotate || (!Adoptable(s, actor, value) && (Generation(h, s, actor).Some? ==> Generation(h, s, actor).value.1 != value))
    ensures Returned(h, s, actor, value, rotate, issued, effects) == Some(issued)
    ensures var after := Provisioned(h, s, actor, value, rotate, enabled, issued, effects);
      && Generation(h, after, actor) == Some((issued, value))
      && forall token :: Holds(h, after, actor, token) <==> enabled && token == issued
  {
  }

  /** A provision that finds its metadata in force gives the token in force back and touches no file. */
  lemma StandingTokenIsKept(h: Hash, s: Store, actor: string, value: Metadata, enabled: bool, issued: string, effects: nat)
    requires Generation(h, s, actor).Some? && Generation(h, s, actor).value.1 == value
    ensures var after := Provisioned(h, s, actor, value, false, enabled, issued, effects);
      && Returned(h, s, actor, value, false, issued, effects) == Some(Generation(h, s, actor).value.0)
      && after == s.(disabled := after.disabled)
      && (Holds(h, after, actor, Generation(h, s, actor).value.0) <==> enabled)
  {
  }

  /** No operation on one actor touches what another actor's bearers may do, except a restart, which enables them. */
  lemma OthersAreUntouched(h: Hash, s: Store, op: Op, other: string, token: string)
    requires op.Restart? || op.actor != other
    ensures Generation(h, Apply(h, s, op), other) == Generation(h, s, other)
    ensures !op.Restart? ==> (Holds(h, Apply(h, s, op), other, token) <==> Holds(h, s, other, token))
  {
  }

  class CredentialStore {
    const hash: Hash
    var tokens: map<string, string>
    var metadata: map<string, Metadata>
    var markers: map<string, Marker>
    var disabled: set<string>

    function Contents(): Store
      reads this
    {
      Store(tokens, metadata, markers, disabled)
    }

    /** Opening the store over the files a previous owner left. */
    constructor (h: Hash, left: Store)
      ensures hash == h && Contents() == Apply(h, left, Restart)
    {
      hash := h;
      tokens, metadata, markers, disabled := left.tokens, left.metadata, left.markers, {};
    }

    method ReadActor(actor: string) returns (r: Option<(string, Metadata)>)
      ensures r == Generation(hash, Contents(), actor)
    {
      if actor !in tokens || actor !in metadata || actor !in markers {
        return None;
      }
      var token := Strip(tokens[actor]);
      if token == [] || markers[actor].tokenSha != hash.token(tokens[actor])
         || markers[actor].metadataSha != hash.metadata(metadata[actor]) {
        return None;
      }
      return Some((token, metadata[actor]));
    }

    /** Replace token, metadata, then marker; `effects` is how many replacements happen before a crash. */
    method PublishFiles(actor: string, token: string, value: Metadata, effects: nat) returns (done: bool)
      modifies this
      ensures done == (effects >= 3)
      ensures Contents() == Apply(hash, old(Contents()), Publish(actor, token, value, effects))
    {
      if effects < 1 { return false; }
      tokens := tokens[actor := token];
      if effects < 2 { return false; }
      metadata := metadata[actor := value];
      if effects < 3 { return false; }
      markers := markers[actor := Mark(hash, token, value)];
      return true;
    }

    /** The data files of an actor that has no marker. */
    method LegacyPair(actor: string) returns (r: Option<(string, Metadata)>)
      ensures r.Some? <==> exists value :: Adoptable(Contents(), actor, value)
      ensures r.Some? ==> Adoptable(Contents(), actor, r.value.1) && r.value.0 == Strip(tokens[actor])
    {
      if actor in markers || actor !in tokens || actor !in metadata {
        return None;
      }
      var token := Strip(tokens[actor]);
      if token == [] {
        return None;
      }
      assert Adoptable(Contents(), actor, metadata[actor]);
      return Some((token, metadata[actor]));
    }

    /** Keep the generation that already carries this metadata, adopt unmarked files that do, or publish a new token. */
    method Provision(actor: string, value: Metadata, rotate: bool, enabled: bool, issued: string, effects: nat)
      returns (token: Option<string>)
      modifies this
      ensures token == Returned(hash, old(Contents()), actor, value, rotate, issued, effects)
      ensures Contents() == Provisioned(hash, old(Contents()), actor, value, rotate, enabled, issued, effects)
      ensures token.Some? && Strip(issued) == issued != [] ==>
                Generation(hash, Contents(), actor) == Some((token.value, value))
    {
      var current := None;
      if !rotate {
        current := ReadActor(actor);
        if current.None? {
          current := LegacyPair(actor);
        }
      }
      if current.Some? && current.value.1 == value {
        if actor !in markers {
          if effects < 1 {
            return None;
          }
          markers := markers[actor := Mark(hash, tokens[actor], metadata[actor])];
        }
        token := Some(current.value.0);
      } else {
        var done := PublishFiles(actor, issued, value, effects);
        if !done {
          return None;
        }
        token := Some(issued);
      }
      disabled := if enabled then disabled - {actor} else disabled + {actor};
    }

    /** Fence in memory, then remove marker, metadata and token. */
    method RevokeActor(actor: string, effects: nat)
      modifies this
      ensures Contents() == Apply(hash, old(Contents()), Revoke(actor, effects))
      ensures forall token :: !Holds(hash, Contents(), actor, token)
    {
      disabled := disabled + {actor};
      if effects < 1 { return; }
      markers := markers - {actor};
      if effects < 2 { return; }
      metadata := metadata - {actor};
      if effects < 3 { return; }
      tokens := tokens - {actor};
    }

    method EnableActor(actor: string) returns (ok: bool)
      modifies this`disabled
      ensures ok == Generation(hash, Contents(), actor).Some?
      ensures Contents() == Apply(hash, old(Contents()), Enable(actor))
    {
      var current := ReadActor(actor);
      ok := current.Some?;
      if ok {
        disabled := disabled - {actor};
      }
    }

    /** Authenticate a bearer by trying the actors in whatever order the directory lists them. */
    method Load(token: string) returns (r: Option<Metadata>)
      ensures r.Some? <==> token != [] && exists actor :: Holds(hash, Contents(), actor, token)
      ensures r.Some? ==> exists actor :: Holds(hash, Contents(), actor, token) && Generation(hash, Contents(), actor).value.1 == r.value
    {
      if token == [] {
        return None;
      }
      var left := tokens.Keys;
      while left != {}
        invariant left <= tokens.Keys
        invariant forall actor | actor in tokens && actor !in left :: !Holds(hash, Contents(), actor, token)
        decreases |left|
      {
        var actor :| actor in left;
        left := left - {actor};
        if actor !in disabled {
          var current := ReadActor(actor);
          if current.Some? && current.value.0 == token {
            assert Holds(hash, Contents(), actor, token);
            return Some(current.value.1);
          }
        }
      }
      return None;
    }
  }
}
