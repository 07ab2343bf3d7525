/** Workspace identities and approval delegations: wildcard scopes, attenuation and
    revocation over every history of the policy store. */
module Policy {
  import opened Values

  datatype Identity = Identity(id: string, displayName: string, roles: set<string>, scopes: set<string>)

  datatype Delegation = Delegation(
    id: string, grantor: Identity, delegate: Identity, scopes: set<string>, expires: Option<real>)

  // -- scopes ---------------------------------------------------------------------

  /** `grant.endswith(":*") and scope.startswith(grant[:-1])` */
  predicate Matches(grant: string, scope: string) {
    |grant| >= 2 && grant[|grant| - 2..] == ":*" && grant[..|grant| - 1] <= scope
  }

  predicate Grants(scopes: set<string>, scope: string) {
    scope in scopes || "*" in scopes || exists grant | grant in scopes :: Matches(grant, scope)
  }

  predicate Can(who: Identity, scope: string) { scope != "" && Grants(who.scopes, scope) }

  predicate Allows(d: Delegation, scope: string, now: real) {
    scope != "" && Grants(d.scopes, scope) && (d.expires.Some? ==> now < d.expires.value)
  }

  lemma EndsInStar(grant: string)
    requires grant == "*" || (|grant| >= 2 && grant[|grant| - 2..] == ":*")
    ensures |grant| >= 1 && grant[|grant| - 1] == '*' && (|grant| >= 2 ==> grant[|grant| - 2] == ':')
  {
    if grant != "*" {
      assert grant[|grant| - 2] == grant[|grant| - 2..][0];
      assert grant[|grant| - 1] == grant[|grant| - 2..][1];
    }
  }

  /** The text before the star of the outer wildcard cannot reach the star of the inner one. */
  lemma MatchesThrough(grant: string, inner: string, scope: string)
    requires Matches(grant, inner) && (inner == "*" || Matches(inner, scope))
    ensures Matches(grant, scope)
  {
    EndsInStar(grant);
    EndsInStar(inner);
    var n, m := |grant|, |inner|;
    assert inner[n - 2] == grant[n - 2];
    assert n <= m;
    assert scope[..m - 1] == inner[..m - 1];
    assert scope[..n - 1] == scope[..m - 1][..n - 1] == inner[..m - 1][..n - 1] == inner[..n - 1] == grant[..n - 1];
  }

  /** Holding a scope, wildcard or not, means holding whatever that scope stands for. */
  lemma GrantsThrough(held: set<string>, inner: string, scope: string)
    requires Grants(held, inner) && (inner == scope || inner == "*" || Matches(inner, scope))
    ensures Grants(held, scope)
  {
    if inner != scope && "*" !in held {
      if inner !in held {
        var grant :| grant in held && Matches(grant, inner);
        MatchesThrough(grant, inner, scope);
      }
    }
  }

  /** Checking the listed scopes one by one is exactly checking everything they stand for. */
  lemma CoverageIsPointwise(held: set<string>, scopes: set<string>)
    ensures (forall t | t in scopes :: Grants(held, t)) <==> (forall s | Grants(scopes, s) :: Grants(held, s))
  {
    if forall t | t in scopes :: Grants(held, t) {
      forall s | Grants(scopes, s) ensures Grants(held, s) {
        if s !in scopes {
          var t :| t in scopes && (t == "*" || Matches(t, s));
          GrantsThrough(held, t, s);
        }
      }
    } else {
      var t :| t in scopes && !Grants(held, t);
      assert Grants(scopes, t);
    }
  }

  // -- the store's tables ------------------------------------------------------------

  datatype Row = Row(grantor: string, delegate: string, scopes: set<string>, expires: Option<real>, revoked: Option<real>)

  /** An audit identity fixes the kind and the payload of its row. */
  datatype AuditId = IdentityCreated(id: string) | DelegationCreated(id: string) | DelegationRevoked(id: string)

  datatype AuditRow = AuditRow(actor: string, at: real)

  datatype Book = Book(
    identities: map<string, Identity>, delegations: map<string, Row>, audit: map<AuditId, AuditRow>)

  const NEW_BOOK := Book(map[], map[], map[])

  const SYSTEM := "system"

  datatype Refusal =
    | NotPermitted | BeyondGrantor | IdentityConflict | DelegationConflict
    | UnknownDelegation | MissingIdentity | AuditClash

  datatype Outcome = Outcome(book: Book, refusal: Option<Refusal>)

  function Refuse(b: Book, r: Refusal): Outcome { Outcome(b, Some(r)) }

  function Audited(b: Book, saved: Book, id: AuditId, actor: string, at: real): Outcome {
    if id !in b.audit then Outcome(b.(audit := b.audit[id := AuditRow(actor, at)]), None)
    else if b.audit[id].actor != actor then Refuse(saved, AuditClash)
    else Outcome(b, None)
  }

  function IdentityPut(b: Book, who: Identity, actor: string, now: real): Outcome {
    if who.id in b.identities then
      if b.identities[who.id] != who then Refuse(b, IdentityConflict) else Outcome(b, None)
    else Audited(b.(identities := b.identities[who.id := who]), b, IdentityCreated(who.id), actor, now)
  }

  /** A row read back with the identities stored now. */
  function ReadRow(b: Book, id: string): Option<Delegation>
    requires id in b.delegations
  {
    var row := b.delegations[id];
    if row.grantor in b.identities && row.delegate in b.identities
    then Some(Delegation(id, b.identities[row.grantor], b.identities[row.delegate], row.scopes, row.expires))
    else None
  }

  function RowOf(d: Delegation): Row { Row(d.grantor.id, d.delegate.id, d.scopes, d.expires, None) }

  function Insert(b: Book, d: Delegation, actor: string, now: real): Outcome {
    if d.id in b.delegations then
      if ReadRow(b, d.id).None? then Refuse(b, MissingIdentity)
      else if ReadRow(b, d.id) != Some(d) then Refuse(b, DelegationConflict)
      else Outcome(b, None)
    else Audited(b.(delegations := b.delegations[d.id := RowOf(d)]), b, DelegationCreated(d.id), actor, now)
  }

  function Actor(d: Delegation, actor: Option<string>): string { if actor.None? then d.grantor.id else actor.value }

  predicate HoldsAll(who: Identity, scopes: set<string>) { forall s | s in scopes :: Can(who, s) }

  /** Two identities and the delegation are written one transaction after the other, so an
      identity may stay although a later write is refused. */
  function DelegationPut(b: Book, d: Delegation, actor: Option<string>, now: real): Outcome {
    var signer := Actor(d, actor);
    if signer != d.grantor.id && signer != SYSTEM then Refuse(b, NotPermitted)
    else if signer != SYSTEM && !HoldsAll(d.grantor, d.scopes) then Refuse(b, BeyondGrantor)
    else
      var first := IdentityPut(b, d.grantor, signer, now);
      if first.refusal.Some? then first
      else
        var second := IdentityPut(first.book, d.delegate, signer, now);
        if second.refusal.Some? then second else Insert(second.book, d, signer, now)
  }

  function Revoked(b: Book, id: string, actor: string, now: real): Outcome {
    if id !in b.delegations then Refuse(b, UnknownDelegation)
    else if ReadRow(b, id).None? then Refuse(b, MissingIdentity)
    else if actor != ReadRow(b, id).value.grantor.id && actor != SYSTEM then Refuse(b, NotPermitted)
    else if b.delegations[id].revoked.Some? then Outcome(b, None)
    else
      var row := b.delegations[id].(revoked := Some(now));
      Audited(b.(delegations := b.delegations[id := row]), b, DelegationRevoked(id), actor, now)
  }

  function Fetch(b: Book, id: string, includeRevoked: bool): Result<Option<Delegation>, Refusal> {
    if id !in b.delegations || (!includeRevoked && b.delegations[id].revoked.Some?) then Ok(None)
    else if ReadRow(b, id).None? then Err(MissingIdentity)
    else Ok(ReadRow(b, id))
  }

  // -- every history ------------------------------------------------------------------

  datatype Call =
    | PutIdentity(who: Identity, actor: string, now: real)
    | PutDelegation(d: Delegation, signer: Option<string>, now: real)
    | Revoke(id: string, actor: string, now: real)

  function Step(b: Book, c: Call): Outcome {
    match c
    case PutIdentity(who, actor, now) => IdentityPut(b, who, actor, now)
    case PutDelegation(d, signer, now) => DelegationPut(b, d, signer, now)
    case Revoke(id, actor, now) => Revoked(b, id, actor, now)
  }

  function After(calls: seq<Call>): Book {
    if calls == [] then NEW_BOOK else Step(After(calls[..|calls| - 1]), calls[|calls| - 1]).book
  }

  ghost predicate IdentitiesOk(b: Book) {
    forall k :: (k in b.identities <==> IdentityCreated(k) in b.audit) && (k in b.identities ==> b.identities[k].id == k)
  }

  predicate Entitled(actor: string, grantor: string) { actor == grantor || actor == SYSTEM }

  /** One row: its identities exist, the audit trail has its creation and exactly when it is
      revoked its revocation, both by an entitled actor, and unless the system created it
      the grantor holds all of it. */
  ghost predicate RowOk(b: Book, k: string) {
    && (k in b.delegations <==> DelegationCreated(k) in b.audit)
    && (DelegationRevoked(k) in b.audit <==> k in b.delegations && b.delegations[k].revoked.Some?)
    && (k in b.delegations ==>
          var row := b.delegations[k];
          && row.grantor in b.identities && row.delegate in b.identities
          && Entitled(b.audit[DelegationCreated(k)].actor, row.grantor)
          && (row.revoked.Some? ==> Entitled(b.audit[DelegationRevoked(k)].actor, row.grantor))
          && (b.audit[DelegationCreated(k)].actor != SYSTEM ==> HoldsAll(b.identities[row.grantor], row.scopes)))
  }

  ghost predicate BookOk(b: Book) { IdentitiesOk(b) && forall k :: RowOk(b, k) }

  /** Nothing recorded is lost or altered, except that a delegation may become revoked. */
  ghost predicate Keeps(b: Book, after: Book) {
    && (forall k | k in b.identities :: k in after.identities && after.identities[k] == b.identities[k])
    && (forall k | k in b.delegations :: k in after.delegations && RowKept(b.delegations[k], after.delegations[k]))
    && (forall k | k in b.audit :: k in after.audit && after.audit[k] == b.audit[k])
  }

  predicate RowKept(row: Row, later: Row) {
    if row.revoked.Some? then later == row else later.(revoked := None) == row
  }

  lemma IdentityPutOk(b: Book, who: Identity, actor: string, now: real)
    requires BookOk(b)
    ensures var o := IdentityPut(b, who, actor, now);
      && BookOk(o.book) && Keeps(b, o.book) && o.book.delegations == b.delegations
      && (o.refusal.None? || o.refusal == Some(IdentityConflict))
      && (o.refusal.None? ==> who.id in o.book.identities && o.book.identities[who.id] == who)
  {
    var o := IdentityPut(b, who, actor, now);
    forall k ensures RowOk(o.book, k) { assert RowOk(b, k); }
  }

  lemma InsertOk(b: Book, d: Delegation, actor: string, now: real)
    requires BookOk(b) && Entitled(actor, d.grantor.id) && (actor != SYSTEM ==> HoldsAll(d.grantor, d.scopes))
    requires d.grantor.id in b.identities && b.identities[d.grantor.id] == d.grantor
    requires d.delegate.id in b.identities && b.identities[d.delegate.id] == d.delegate
    ensures var o := Insert(b, d, actor, now);
      && BookOk(o.book) && Keeps(b, o.book)
      && (o.refusal.None? || o.refusal == Some(DelegationConflict))
      && (o.refusal.None? ==> d.id in o.book.delegations && ReadRow(o.book, d.id) == Some(d))
  {
    var o := Insert(b, d, actor, now);
    assert RowOk(b, d.id);
    forall k ensures RowOk(o.book, k) { assert RowOk(b, k); }
  }

  lemma RevokedOk(b: Book, id: string, actor: string, now: real)
    requires BookOk(b)
    ensures var o := Revoked(b, id, actor, now);
      && BookOk(o.book) && Keeps(b, o.book)
      && (o.refusal.Some? ==> o.book == b && o.refusal.value in {UnknownDelegation, NotPermitted})
      && (o.refusal.None? ==> id in o.book.delegations && o.book.delegations[id].revoked.Some?)
  {
    var o := Revoked(b, id, actor, now);
    assert RowOk(b, id);
    forall k ensures RowOk(o.book, k) { assert RowOk(b, k); }
  }

  lemma KeepsThrough(a: Book, b: Book, c: Book)
    requires Keeps(a, b) && Keeps(b, c)
    ensures Keeps(a, c)
  {}

  lemma DelegationPutOk(b: Book, d: Delegation, signer: Option<string>, now: real)
    requires BookOk(b)
    ensures var o := DelegationPut(b, d, signer, now);
      && BookOk(o.book) && Keeps(b, o.book)
      && (o.refusal.Some? ==> o.refusal.value !in {UnknownDelegation, MissingIdentity, AuditClash})
      && (o.refusal.None? ==> d.id in o.book.delegations && ReadRow(o.book, d.id) == Some(d))
  {
    var actor := Actor(d, signer);
    if Entitled(actor, d.grantor.id) && (actor == SYSTEM || HoldsAll(d.grantor, d.scopes)) {
      IdentityPutOk(b, d.grantor, actor, now);
      var first := IdentityPut(b, d.grantor, actor, now);
      if first.refusal.None? {
        IdentityPutOk(first.book, d.delegate, actor, now);
        var second := IdentityPut(first.book, d.delegate, actor, now);
        KeepsThrough(b, first.book, second.book);
        if second.refusal.None? {
          InsertOk(second.book, d, actor, now);
          KeepsThrough(b, second.book, Insert(second.book, d, actor, now).book);
        }
      }
    }
  }

  /** Every call keeps the book in order and everything recorded in it; the audit trail never
      clashes and no delegation ever points at a missing identity. */
  lemma StepOk(b: Book, c: Call)
    requires BookOk(b)
    ensures BookOk(Step(b, c).book) && Keeps(b, Step(b, c).book)
    ensures Step(b, c).refusal != Some(AuditClash) && Step(b, c).refusal != Some(MissingIdentity)
  {
    match c
    case PutIdentity(who, actor, now) => IdentityPutOk(b, who, actor, now);
    case PutDelegation(d, signer, now) => DelegationPutOk(b, d, signer, now);
    case Revoke(id, actor, now) => RevokedOk(b, id, actor, now);
  }

  lemma {:induction false} ReachableOk(calls: seq<Call>)
    ensures BookOk(After(calls))
  {
    if calls != [] {
      ReachableOk(calls[..|calls| - 1]);
      StepOk(After(calls[..|calls| - 1]), calls[|calls| - 1]);
    }
  }

  /** Over any continuation identities and delegations stay as they were first stored. */
  lemma {:induction false} NothingIsRewritten(calls: seq<Call>, more: seq<Call>)
    ensures Keeps(After(calls), After(calls + more))
  {
    if more == [] {
      assert calls + more == calls;
    } else {
      var all := calls + more;
      assert all[..|all| - 1] == calls + more[..|more| - 1];
      NothingIsRewritten(calls, more[..|more| - 1]);
      ReachableOk(calls + more[..|more| - 1]);
      StepOk(After(calls + more[..|more| - 1]), all[|all| - 1]);
      KeepsThrough(After(calls), After(all[..|all| - 1]), After(all));
    }
  }

  // -- main results --------------------------------------------------------------------

  /** Attenuation: a delegation that its grantor created never allows a scope that the
      stored grantor does not hold, whatever wildcards either of them uses. */
  lemma DelegationsAreAttenuated(calls: seq<Call>, id: string, scope: string, now: real)
    requires var b := After(calls); id in b.delegations && DelegationCreated(id) in b.audit
    requires After(calls).audit[DelegationCreated(id)].actor != SYSTEM
    ensures var d := Fetch(After(calls), id, true);
      d.Ok? && d.value.Some? && (Allows(d.value.value, scope, now) ==> Can(d.value.value.grantor, scope))
  {
    var b := After(calls);
    ReachableOk(calls);
    assert RowOk(b, id);
    CoverageIsPointwise(b.identities[b.delegations[id].grantor].scopes, b.delegations[id].scopes);
  }

  ghost predicate Exceeds(d: Delegation) {
    exists s, now :: Allows(d, s, now) && !Can(d.grantor, s)
  }

  /** A stored delegation exceeds its grantor at some time exactly when it was put in the
      system's name with a scope that the grantor does not hold. A grantor whose own id
      is the system's is such a case. */
  lemma ExceedsOnlyInSystemsName(b: Book, d: Delegation, signer: Option<string>, now: real)
    requires BookOk(b) && "" !in d.scopes
    requires d.id !in b.delegations && DelegationPut(b, d, signer, now).refusal.None?
    ensures var o := DelegationPut(b, d, signer, now).book;
      && d.id in o.delegations && ReadRow(o, d.id) == Some(d)
      && (Exceeds(d) <==> Actor(d, signer) == SYSTEM && !HoldsAll(d.grantor, d.scopes))
  {
    DelegationPutOk(b, d, signer, now);
    CoverageIsPointwise(d.grantor.scopes, d.scopes);
    if !HoldsAll(d.grantor, d.scopes) {
      var s :| s in d.scopes && !Can(d.grantor, s);
      assert Allows(d, s, if d.expires.Some? then d.expires.value - 1.0 else now);
    }
  }

  /** The system grants in the name of someone who holds nothing. */
  lemma SystemExceeds(expires: Option<real>)
    ensures var d := Delegation("d", Identity("u", "User", {}, {}), Identity("v", "Other", {}, {}), {"deploy"}, expires);
      && DelegationPut(NEW_BOOK, d, Some(SYSTEM), 0.0).refusal.None?
      && Exceeds(d) && DelegationPut(NEW_BOOK, d, None, 0.0).refusal == Some(BeyondGrantor)
  {
    var d := Delegation("d", Identity("u", "User", {}, {}), Identity("v", "Other", {}, {}), {"deploy"}, expires);
    assert "u" != SYSTEM && |"u"| == 1 && |SYSTEM| == 6;
    assert !Can(d.grantor, "deploy") && "deploy" in d.scopes;
    assert BookOk(NEW_BOOK);
    assert DelegationPut(NEW_BOOK, d, Some(SYSTEM), 0.0).refusal.None? by { PutsThree(d); }
    ExceedsOnlyInSystemsName(NEW_BOOK, d, Some(SYSTEM), 0.0);
  }

  lemma PutsThree(d: Delegation)
    requires d.grantor.id != d.delegate.id
    ensures DelegationPut(NEW_BOOK, d, Some(SYSTEM), 0.0).refusal.None?
  {}

  /** Once revoked, a delegation is never returned as active, not even after it has been put
      again; the record itself stays readable and unchanged. */
  lemma RevocationIsFinal(calls: seq<Call>, more: seq<Call>, id: string)
    requires var b := After(calls); id in b.delegations && b.delegations[id].revoked.Some?
    ensures Fetch(After(calls + more), id, false) == Ok(None)
    ensures Fetch(After(calls + more), id, true) == Fetch(After(calls), id, true)
    ensures var d := Fetch(After(calls), id, true); d.Ok? && d.value.Some?
  {
    NothingIsRewritten(calls, more);
    ReachableOk(calls);
    assert RowOk(After(calls), id);
  }

  /** Putting a stored delegation again succeeds and changes nothing, also when it has been
      revoked meanwhile: the outcome alone does not tell whether it is active. */
  lemma PuttingAgainSucceeds(calls: seq<Call>, d: Delegation, signer: Option<string>, now: real)
    requires var b := After(calls); d.id in b.delegations && ReadRow(b, d.id) == Some(d)
    requires Entitled(Actor(d, signer), d.grantor.id) && (Actor(d, signer) != SYSTEM ==> HoldsAll(d.grantor, d.scopes))
    ensures DelegationPut(After(calls), d, signer, now) == Outcome(After(calls), None)
  {
    ReachableOk(calls);
    assert RowOk(After(calls), d.id);
  }

  /** Only its grantor or the system can ever have created or revoked a delegation. */
  lemma OnlyTheEntitledAct(calls: seq<Call>, id: string)
    requires id in After(calls).delegations
    ensures var b := After(calls); var row := b.delegations[id];
      && DelegationCreated(id) in b.audit && Entitled(b.audit[DelegationCreated(id)].actor, row.grantor)
      && (row.revoked.Some? <==> DelegationRevoked(id) in b.audit)
      && (row.revoked.Some? ==> Entitled(b.audit[DelegationRevoked(id)].actor, row.grantor))
  {
    ReachableOk(calls);
    assert RowOk(After(calls), id);
  }

  // -- the store object ----------------------------------------------------------------

  class WorkspacePolicyStore {
    var identities: map<string, Identity>
    var delegations: map<string, Row>
    var audit: map<AuditId, AuditRow>

    function State(): Book
      reads this
    {
      Book(identities, delegations, audit)
    }

    constructor ()
      ensures State() == NEW_BOOK
    {
      identities, delegations, audit := map[], map[], map[];
    }

    /** `_audit_locked`: true when the identity is new or repeats the same data. */
    method Record(id: AuditId, actor: string, at: real) returns (fits: bool)
      modifies this`audit
      ensures fits <==> (id in old(audit) ==> old(audit)[id].actor == actor)
      ensures audit == if id in old(audit) then old(audit) else old(audit)[id := AuditRow(actor, at)]
    {
      if id in audit { return audit[id].actor == actor; }
      audit := audit[id := AuditRow(actor, at)];
      return true;
    }

    method PutIdentity(who: Identity, actor: string, now: real) returns (refusal: Option<Refusal>)
      modifies this
      ensures Outcome(State(), refusal) == IdentityPut(old(State()), who, actor, now)
    {
      if who.id in identities {
        return if identities[who.id] != who then Some(IdentityConflict) else None;
      }
      var saved := identities;
      identities := identities[who.id := who];
      var fits := Record(IdentityCreated(who.id), actor, now);
      if !fits {
        identities := saved;
        return Some(AuditClash);
      }
      return None;
    }

    method PutDelegation(d: Delegation, actor: Option<string>, now: real) returns (refusal: Option<Refusal>)
      modifies this
      ensures Outcome(State(), refusal) == DelegationPut(old(State()), d, actor, now)
    {
      var signer := if actor.None? then d.grantor.id else actor.value;
      if signer != d.grantor.id && signer != SYSTEM { return Some(NotPermitted); }
      if signer != SYSTEM && !HoldsAll(d.grantor, d.scopes) { return Some(BeyondGrantor); }
      refusal := PutIdentity(d.grantor, signer, now);
      if refusal.Some? { return; }
      refusal := PutIdentity(d.delegate, signer, now);
      if refusal.Some? { return; }
      if d.id in delegations {
        var stored := ReadRow(State(), d.id);
        return if stored.None? then Some(MissingIdentity)
               else if stored != Some(d) then Some(DelegationConflict) else None;
      }
      var saved := delegations;
      delegations := delegations[d.id := RowOf(d)];
      var fits := Record(DelegationCreated(d.id), signer, now);
      if !fits {
        delegations := saved;
        return Some(AuditClash);
      }
      return None;
    }

    method RevokeDelegation(id: string, actor: string, now: real) returns (refusal: Option<Refusal>)
      modifies this
      ensures Outcome(State(), refusal) == Revoked(old(State()), id, actor, now)
    {
      if id !in delegations { return Some(UnknownDelegation); }
      var stored := ReadRow(State(), id);
      if stored.None? { return Some(MissingIdentity); }
      if actor != stored.value.grantor.id && actor != SYSTEM { return Some(NotPermitted); }
      if delegations[id].revoked.None? {
        var saved := delegations;
        delegations := delegations[id := delegations[id].(revoked := Some(now))];
        var fits := Record(DelegationRevoked(id), actor, now);
        if !fits {
          delegations := saved;
          return Some(AuditClash);
        }
      }
      return None;
    }

    method GetDelegation(id: string, includeRevoked: bool) returns (found: Result<Option<Delegation>, Refusal>)
      ensures found == Fetch(State(), id, includeRevoked)
    {
      if id !in delegations || (!includeRevoked && delegations[id].revoked.Some?) { return Ok(None); }
      var stored := ReadRow(State(), id);
      if stored.None? { return Err(MissingIdentity); }
      return Ok(stored);
    }
  }
}
