/** The refresh-token table: rows are inserted, rotated and revoked, never deleted.
    Rotation links form finite disjoint chains. */
module RefreshTokens {
  import opened Clock
  import opened Wrappers

  /** A token about to be stored. Every caller leaves the revocation time and the
      successor unset, so a new row starts without them. */
  datatype Token = Token(value: string, sha: string, clientId: int, userId: Option<int>, subject: string,
                         scopesJson: string, issuedAt: Instant, expiresAt: Instant)

  datatype Row = Row(token: Token, expiresAt: Instant, revokedAt: Option<Instant>, replacedBy: Option<nat>)

  /** `bySha` is the unique index on the token hash, `next` the auto-increment counter. */
  datatype Table = Table(rows: map<nat, Row>, bySha: map<string, nat>, next: nat)

  const EMPTY := Table(map[], map[], 1)

  datatype Error = NoRows | DuplicateKey

  predicate Live(row: Row, at: Instant)
  {
    row.revokedAt.None? && row.replacedBy.None? && row.expiresAt > at
  }

  function NewRow(token: Token): Row
  {
    Row(token, Stored(token.expiresAt), None, None)
  }

  function Insert(t: Table, token: Token): (r: Result<Table, Error>)
    ensures r.Ok? <==> token.sha !in t.bySha
    ensures Indexed(t) && r.Ok? ==> Indexed(r.value)
  {
    if token.sha in t.bySha then Err(DuplicateKey)
    else Ok(Table(t.rows[t.next := NewRow(token)], t.bySha[token.sha := t.next], t.next + 1))
  }

  predicate Indexed(t: Table)
  {
    && (forall sha :: sha in t.bySha ==> t.bySha[sha] in t.rows && t.rows[t.bySha[sha]].token.sha == sha)
    && (forall id :: id in t.rows ==> id < t.next && t.rows[id].token.sha in t.bySha
                                      && t.bySha[t.rows[id].token.sha] == id)
  }

  /** The row a rotation of `sha` may replace. */
  predicate Rotatable(t: Table, sha: string, at: Instant)
  {
    sha in t.bySha && t.bySha[sha] in t.rows && Live(t.rows[t.bySha[sha]], at)
  }

  function Replaced(t: Table, id: nat, at: Instant, successor: nat): (r: Table)
    requires id in t.rows
    ensures Indexed(t) ==> Indexed(r)
  {
    t.(rows := t.rows[id := t.rows[id].(revokedAt := Some(Stored(at)), replacedBy := Some(successor))])
  }

  /** The rotation transaction. */
  function Rotate(t: Table, sha: string, at: Instant, token: Token): (r: Result<Table, Error>)
    ensures r.Ok? <==> Rotatable(t, sha, at) && token.sha !in t.bySha
    ensures Indexed(t) && r.Ok? ==> Indexed(r.value)
  {
    if !Rotatable(t, sha, at) then Err(NoRows)
    else match Insert(t, token)
      case Err(e) => Err(e)
      case Ok(inserted) => Ok(Replaced(inserted, t.bySha[sha], at, t.next))
  }

  /** The rows the user-wide revocation statement touches; the database clock
      counts whole seconds. */
  predicate Revocable(row: Row, userId: int, now: Instant)
  {
    row.token.userId == Some(userId) && Live(row, WholeSecond(now))
  }

  function RevokeUser(t: Table, userId: int, at: Instant, now: Instant): (r: Table)
    ensures Indexed(t) ==> Indexed(r)
  {
    t.(rows := map id | id in t.rows ::
         if Revocable(t.rows[id], userId, now) then t.rows[id].(revokedAt := Some(Stored(at))) else t.rows[id])
  }

  // ---------------------------------------------------------------------------
  // The repository
  // ---------------------------------------------------------------------------

  class TokenRepository {
    var table: Table

    constructor ()
      ensures table == EMPTY && Indexed(table)
    {
      table := EMPTY;
    }

    method CreateRefreshToken(token: Token) returns (err: Option<Error>)
      requires Indexed(table)
      modifies this
      ensures Indexed(table)
      ensures match Insert(old(table), token)
              case Ok(t) => err.None? && table == t
              case Err(e) => err == Some(e) && table == old(table)
    {
      if token.sha in table.bySha {
        return Some(DuplicateKey);
      }
      var id := table.next;
      table := Table(table.rows[id := NewRow(token)], table.bySha[token.sha := id], id + 1);
      err := None;
    }

    method FindActiveRefreshTokenBySHA256(sha: string, now: Instant) returns (row: Option<Row>)
      requires Indexed(table)
      ensures row.Some? <==> Rotatable(table, sha, WholeSecond(now))
      ensures row.Some? ==> row.value == table.rows[table.bySha[sha]] && row.value.token.sha == sha
    {
      if sha !in table.bySha {
        return None;
      }
      var found := table.rows[table.bySha[sha]];
      if found.revokedAt.Some? || found.replacedBy.Some? || found.expiresAt <= WholeSecond(now) {
        return None;
      }
      row := Some(found);
    }

    /** Every failing path rolls the transaction back. */
    method RotateRefreshToken(oldSha: string, revokedAt: Instant, token: Token) returns (err: Option<Error>)
      requires Indexed(table)
      modifies this
      ensures Indexed(table)
      ensures match Rotate(old(table), oldSha, revokedAt, token)
              case Ok(t) => err.None? && table == t
              case Err(e) => err == Some(e) && table == old(table)
    {
      if oldSha !in table.bySha {
        return Some(NoRows);
      }
      var oldId := table.bySha[oldSha];
      var row := table.rows[oldId];
      if row.revokedAt.Some? || row.replacedBy.Some? || !(row.expiresAt > revokedAt) {
        return Some(NoRows);
      }
      var insertedId := table.next;
      err := CreateRefreshToken(token);
      if err.Some? {
        return;
      }
      table := Replaced(table, oldId, revokedAt, insertedId);
    }

    method RevokeRefreshTokensByUserID(userId: int, revokedAt: Instant, now: Instant)
      requires Indexed(table)
      modifies this
      ensures Indexed(table)
      ensures table == RevokeUser(old(table), userId, revokedAt, now)
      ensures forall id :: id in table.rows ==> !Revocable(table.rows[id], userId, now)
    {
      table := RevokeUser(table, userId, revokedAt, now);
    }
  }

  // ---------------------------------------------------------------------------
  // Runs
  // ---------------------------------------------------------------------------

  datatype Action =
    | Create(token: Token)
    | Rotation(sha: string, at: Instant, token: Token)
    | Revoke(userId: int, at: Instant, now: Instant)

  /** A failing statement changes nothing. */
  function Apply(t: Table, a: Action): Table
  {
    match a
    case Create(token) => (match Insert(t, token) case Ok(u) => u case Err(_) => t)
    case Rotation(sha, at, token) => (match Rotate(t, sha, at, token) case Ok(u) => u case Err(_) => t)
    case Revoke(userId, at, now) => RevokeUser(t, userId, at, now)
  }

  function Run(t: Table, actions: seq<Action>): Table
  {
    if actions == [] then t
    else Apply(Run(t, actions[..|actions| - 1]), actions[|actions| - 1])
  }

  /** A replaced token is revoked, its successor is a later row, and no two tokens
      share a successor. */
  predicate Linked(t: Table)
  {
    Indexed(t) && Forward(t) && Injective(t)
  }

  predicate Forward(t: Table)
  {
    forall id :: id in t.rows && t.rows[id].replacedBy.Some? ==>
      && id < t.rows[id].replacedBy.value
      && t.rows[id].replacedBy.value in t.rows
      && t.rows[id].revokedAt.Some?
  }

  predicate Injective(t: Table)
  {
    forall a, b ::
      a in t.rows && b in t.rows && t.rows[a].replacedBy.Some? && t.rows[a].replacedBy == t.rows[b].replacedBy
      ==> a == b
  }

  predicate IsRoot(t: Table, id: nat)
  {
    id in t.rows && forall p :: p in t.rows ==> t.rows[p].replacedBy != Some(id)
  }

  lemma InsertKeepsLinks(t: Table, token: Token)
    requires Linked(t) && token.sha !in t.bySha
    ensures Linked(Insert(t, token).value) && IsRoot(Insert(t, token).value, t.next)
  {
    assert t.next !in t.rows;
    InsertKeepsOrder(t, token);
    InsertKeepsInjective(t, token);
    hide *;
  }

  lemma InsertKeepsOrder(t: Table, token: Token)
    requires Forward(t) && t.next !in t.rows && token.sha !in t.bySha
    ensures Forward(Insert(t, token).value) && IsRoot(Insert(t, token).value, t.next)
  {
  }

  lemma InsertKeepsInjective(t: Table, token: Token)
    requires Injective(t) && t.next !in t.rows && token.sha !in t.bySha
    ensures Injective(Insert(t, token).value)
  {
  }

  lemma ReplaceKeepsLinks(t: Table, id: nat, at: Instant, successor: nat)
    requires Linked(t) && id in t.rows && id < successor && IsRoot(t, successor)
    ensures Linked(Replaced(t, id, at, successor))
  {
    ReplaceKeepsInjective(t, id, at, successor);
    hide Injective, Stored;
  }

  lemma ReplaceKeepsInjective(t: Table, id: nat, at: Instant, successor: nat)
    requires Injective(t) && id in t.rows && IsRoot(t, successor)
    ensures Injective(Replaced(t, id, at, successor))
  {
  }

  lemma StepKeepsLinks(t: Table, a: Action)
    requires Linked(t)
    ensures Linked(Apply(t, a))
  {
    match a
    case Create(token) =>
      if token.sha !in t.bySha {
        InsertKeepsLinks(t, token);
      }
    case Rotation(sha, at, token) =>
      if Rotatable(t, sha, at) && token.sha !in t.bySha {
        hide Forward, Injective, IsRoot;
        InsertKeepsLinks(t, token);
        ReplaceKeepsLinks(Insert(t, token).value, t.bySha[sha], at, t.next);
      }
    case Revoke(userId, at, now) =>
      hide WholeSecond, Stored;
  }

  lemma {:induction false} RunKeepsLinks(t: Table, actions: seq<Action>)
    requires Linked(t)
    ensures Linked(Run(t, actions))
  {
    if actions != [] {
      RunKeepsLinks(t, actions[..|actions| - 1]);
      StepKeepsLinks(Run(t, actions[..|actions| - 1]), actions[|actions| - 1]);
    }
  }

  // ---------------------------------------------------------------------------
  // Chains
  // ---------------------------------------------------------------------------

  /** The token `id` and its successors, in order. */
  function Chain(t: Table, id: nat): (chain: seq<nat>)
    requires Linked(t) && id in t.rows
    ensures |chain| > 0 && chain[0] == id
    decreases t.next - id
  {
    match t.rows[id].replacedBy
    case None => [id]
    case Some(successor) => [id] + Chain(t, successor)
  }

  /** Along a chain ids grow, each token is the one successor of the one before it,
      and every token but the last is revoked. */
  lemma {:induction false} ChainIsOrdered(t: Table, id: nat)
    requires Linked(t) && id in t.rows
    ensures var c := Chain(t, id);
            && (forall i :: 0 <= i < |c| ==> c[i] in t.rows)
            && (forall i, j :: 0 <= i < j < |c| ==> c[i] < c[j])
            && (forall i :: 0 <= i < |c| - 1 ==>
                  t.rows[c[i]].replacedBy == Some(c[i + 1]) && t.rows[c[i]].revokedAt.Some?)
            && t.rows[c[|c| - 1]].replacedBy.None?
    decreases t.next - id
  {
    match t.rows[id].replacedBy
    case None =>
    case Some(successor) => ChainIsOrdered(t, successor);
  }

  /** The token at the start of the chain that holds `id`. */
  ghost function Root(t: Table, id: nat): (root: nat)
    requires Linked(t) && id in t.rows
    ensures IsRoot(t, root)
    decreases id
  {
    if p :| p in t.rows && t.rows[p].replacedBy == Some(id) then Root(t, p) else id
  }

  lemma {:induction false} ChainExtends(t: Table, a: nat, p: nat, id: nat)
    requires Linked(t) && a in t.rows && p in t.rows && t.rows[p].replacedBy == Some(id)
    requires p in Chain(t, a)
    ensures id in Chain(t, a)
    decreases t.next - a
  {
    if a != p {
      ChainExtends(t, t.rows[a].replacedBy.value, p, id);
    }
  }

  lemma {:induction false} RootReaches(t: Table, id: nat)
    requires Linked(t) && id in t.rows
    ensures id in Chain(t, Root(t, id))
    decreases id
  {
    if p :| p in t.rows && t.rows[p].replacedBy == Some(id) {
      assert Root(t, id) == Root(t, p);
      RootReaches(t, p);
      ChainExtends(t, Root(t, p), p, id);
    }
  }

  lemma {:induction false} RootOfMember(t: Table, a: nat, id: nat)
    requires Linked(t) && a in t.rows && id in Chain(t, a)
    ensures id in t.rows && Root(t, id) == Root(t, a)
    decreases t.next - a
  {
    match t.rows[a].replacedBy
    case None =>
    case Some(successor) =>
      assert Root(t, successor) == Root(t, a);
      if id != a {
        RootOfMember(t, successor, id);
      }
  }

  /** In every reachable table each token lies in the chain of exactly one root, at
      most the last token of that chain is unrevoked, and the chain is finite and
      strictly increasing. */
  lemma ChainsAreDisjoint(actions: seq<Action>, id: nat)
    requires id in Run(EMPTY, actions).rows
    ensures var t := Run(EMPTY, actions);
            && Linked(t)
            && var r := Root(t, id);
               && IsRoot(t, r) && id in Chain(t, r)
               && (forall other :: IsRoot(t, other) && id in Chain(t, other) ==> other == r)
               && (forall i :: 0 <= i < |Chain(t, r)| - 1 ==>
                     Chain(t, r)[i] in t.rows && t.rows[Chain(t, r)[i]].revokedAt.Some?)
               && (forall i, j :: 0 <= i < j < |Chain(t, r)| ==> Chain(t, r)[i] < Chain(t, r)[j])
  {
    RunKeepsLinks(EMPTY, actions);
    var t := Run(EMPTY, actions);
    RootReaches(t, id);
    ChainIsOrdered(t, Root(t, id));
    forall other | IsRoot(t, other) && id in Chain(t, other)
      ensures other == Root(t, id)
    {
      RootOfMember(t, other, id);
    }
  }

  // ---------------------------------------------------------------------------
  // Racing rotations
  // ---------------------------------------------------------------------------

  predicate Succeeds(t: Table, a: Action, sha: string)
  {
    a.Rotation? && a.sha == sha && Rotate(t, a.sha, a.at, a.token).Ok?
  }

  /** How many rotations of `sha` succeed. */
  function Rotations(t: Table, actions: seq<Action>, sha: string): nat
  {
    if actions == [] then 0
    else
      var n := |actions| - 1;
      Rotations(t, actions[..n], sha) + if Succeeds(Run(t, actions[..n]), actions[n], sha) then 1 else 0
  }

  function ReplacedCount(t: Table, sha: string): nat
  {
    if sha in t.bySha && t.bySha[sha] in t.rows && t.rows[t.bySha[sha]].replacedBy.Some? then 1 else 0
  }

  lemma StepCounts(t: Table, a: Action, sha: string)
    requires Linked(t)
    ensures ReplacedCount(Apply(t, a), sha) == ReplacedCount(t, sha) + if Succeeds(t, a, sha) then 1 else 0
  {
    hide Stored, WholeSecond;
  }

  /** However creations, rotations and revocations interleave, at most one rotation
      of a token succeeds, and one has succeeded exactly when the token is replaced. */
  lemma {:induction false} OneRotationSucceeds(t: Table, actions: seq<Action>, sha: string)
    requires Linked(t)
    ensures ReplacedCount(Run(t, actions), sha) == ReplacedCount(t, sha) + Rotations(t, actions, sha)
    ensures Rotations(t, actions, sha) <= 1
  {
    if actions != [] {
      OneRotationSucceeds(t, actions[..|actions| - 1], sha);
      RunKeepsLinks(t, actions[..|actions| - 1]);
      StepCounts(Run(t, actions[..|actions| - 1]), actions[|actions| - 1], sha);
    }
  }

  /** Racing rotations of one live token: the first succeeds, every later one finds
      no usable row. */
  lemma FirstRotationWins(t: Table, sha: string, at: Instant, token: Token, at2: Instant, token2: Token)
    requires Linked(t) && Rotatable(t, sha, at) && token.sha !in t.bySha
    ensures Rotate(t, sha, at, token).Ok?
    ensures Rotate(Apply(t, Rotation(sha, at, token)), sha, at2, token2) == Err(NoRows)
  {
  }
}
