/** Refresh-token rotation, internal/account/account.go over internal/store/sql.go: store
    calls are atomic, the requests that make them interleave. */
module RefreshTokens {
  import opened Wrappers

  type Family = string
  type Hash = string

  const REFRESH_TTL := 2_592_000_000

  /** A row of the table refresh_tokens; revokedAt is 0 while the token is active. */
  datatype Row = Row(account: int, family: Family, hash: Hash, expiresAt: int, revokedAt: int)

  /** The table; ids are handed out once. */
  datatype Db = Db(rows: map<nat, Row>, next: nat)

  predicate Active(r: Row) {
    r.revokedAt == 0
  }

  // ----- the store's statements

  predicate HashTaken(db: Db, hash: Hash) {
    exists id :: id in db.rows && db.rows[id].hash == hash
  }

  ghost function FindByHash(db: Db, hash: Hash): (r: Option<nat>)
    ensures r.Some? ==> r.value in db.rows && db.rows[r.value].hash == hash
    ensures r.None? ==> !HashTaken(db, hash)
  {
    if HashTaken(db, hash) then
      var id :| id in db.rows && db.rows[id].hash == hash;
      Some(id)
    else None
  }

  function Inserted(db: Db, r: Row): Db {
    Db(db.rows[db.next := r], db.next + 1)
  }

  /** Hashes are unique in the table: a second one is refused. */
  function Created(db: Db, r: Row): (Db, bool) {
    if HashTaken(db, r.hash) then (db, false) else (Inserted(db, r), true)
  }

  function RevokedRow(r: Row, hit: bool, now: int): Row {
    if hit && Active(r) then r.(revokedAt := now) else r
  }

  function FamilyRevoked(db: Db, family: Family, now: int): Db {
    db.(rows := map id | id in db.rows :: RevokedRow(db.rows[id], db.rows[id].family == family, now))
  }

  function AccountRevoked(db: Db, account: int, now: int): Db {
    db.(rows := map id | id in db.rows :: RevokedRow(db.rows[id], db.rows[id].account == account, now))
  }

  function Pruned(db: Db, account: int, now: int): Db {
    db.(rows := map id | id in db.rows && !(db.rows[id].account == account && db.rows[id].expiresAt < now)
                :: db.rows[id])
  }

  datatype Rotation = Rotated | TokenRevoked | Failed

  /** The transaction: revoke the old token if it is still active, insert its successor,
      prune; any failure rolls all of it back. */
  function Rotate(db: Db, prior: nat, next: Row, now: int): (Db, Rotation) {
    if prior !in db.rows || !Active(db.rows[prior]) then (db, TokenRevoked)
    else
      var db1 := db.(rows := db.rows[prior := db.rows[prior].(revokedAt := now)]);
      if HashTaken(db1, next.hash) then (db, Failed)
      else (Pruned(Inserted(db1, next), next.account, now), Rotated)
  }

  class Store {
    var rows: map<nat, Row>
    var next: nat

    constructor ()
      ensures State() == Db(map[], 1)
    {
      rows, next := map[], 1;
    }

    function State(): Db
      reads this
    {
      Db(rows, next)
    }

    method RefreshTokenByHash(hash: Hash) returns (r: Option<nat>)
      requires Unique(State())
      ensures r == FindByHash(State(), hash)
    {
      var ids := rows.Keys;
      while ids != {}
        invariant ids <= rows.Keys
        invariant forall id :: id in rows && id !in ids ==> rows[id].hash != hash
        decreases |ids|
      {
        var id :| id in ids;
        if rows[id].hash == hash {
          return Some(id);
        }
        ids := ids - {id};
      }
      return None;
    }

    method CreateRefreshToken(r: Row) returns (ok: bool)
      requires Unique(State())
      modifies this
      ensures (State(), ok) == Created(old(State()), r) && Unique(State())
    {
      var found := RefreshTokenByHash(r.hash);
      if found.Some? {
        return false;
      }
      rows, next := rows[next := r], next + 1;
      return true;
    }

    method RotateRefreshToken(prior: nat, successor: Row, now: int) returns (r: Rotation)
      requires Unique(State())
      modifies this
      ensures (State(), r) == Rotate(old(State()), prior, successor, now) && Unique(State())
    {
      var saved := rows;
      if prior !in rows || rows[prior].revokedAt != 0 {
        return TokenRevoked;
      }
      rows := rows[prior := rows[prior].(revokedAt := now)];
      var taken := RefreshTokenByHash(successor.hash);
      if taken.Some? {
        rows := saved;
        return Failed;
      }
      rows, next := rows[next := successor], next + 1;
      rows := map id | id in rows && !(rows[id].account == successor.account && rows[id].expiresAt < now) :: rows[id];
      return Rotated;
    }

    /** The whole family is dead, since `now` as far as it was alive; nothing else changed. */
    method RevokeRefreshFamily(family: Family, now: int)
      modifies this`rows
      ensures Revoked(old(State()), State(), OfFamily(old(State()), family), now)
    {
      rows := map id | id in rows :: RevokedRow(rows[id], rows[id].family == family, now);
    }

    /** So is every token of the account. */
    method RevokeAllRefreshTokens(account: int, now: int)
      modifies this`rows
      ensures Revoked(old(State()), State(), OfAccount(old(State()), account), now)
    {
      rows := map id | id in rows :: RevokedRow(rows[id], rows[id].account == account, now);
    }
  }

  function OfFamily(db: Db, family: Family): set<nat> {
    set id | id in db.rows && db.rows[id].family == family
  }

  function OfAccount(db: Db, account: int): set<nat> {
    set id | id in db.rows && db.rows[id].account == account
  }

  /** The same tokens: those of `ids` are inactive, revoked at `now` unless they were before,
      and no other row was touched. */
  ghost predicate Revoked(before: Db, after: Db, ids: set<nat>, now: int) {
    && after.next == before.next && after.rows.Keys == before.rows.Keys
    && (forall id :: id in after.rows && id !in ids ==> after.rows[id] == before.rows[id])
    && (forall id :: id in after.rows && !Active(before.rows[id]) ==> after.rows[id] == before.rows[id])
    && (forall id :: id in after.rows ==> after.rows[id] == before.rows[id].(revokedAt := after.rows[id].revokedAt))
    && (forall id :: id in ids && id in after.rows && Active(before.rows[id]) ==> after.rows[id].revokedAt == now)
    && (now != 0 ==> forall id :: id in ids && id in after.rows ==> !Active(after.rows[id]))
  }

  /** That description determines the table, and keeps the hashes unique. */
  lemma FamilyRevokedIff(before: Db, after: Db, family: Family, now: int)
    ensures Revoked(before, after, OfFamily(before, family), now)
      <==> after == FamilyRevoked(before, family, now)
    ensures Unique(before) ==> Unique(FamilyRevoked(before, family, now))
  {
    if Revoked(before, after, OfFamily(before, family), now) {
      assert after.rows == FamilyRevoked(before, family, now).rows;
    }
  }

  lemma AccountRevokedIff(before: Db, after: Db, account: int, now: int)
    ensures Revoked(before, after, OfAccount(before, account), now)
      <==> after == AccountRevoked(before, account, now)
    ensures Unique(before) ==> Unique(AccountRevoked(before, account, now))
  {
    if Revoked(before, after, OfAccount(before, account), now) {
      assert after.rows == AccountRevoked(before, account, now).rows;
    }
  }

  ghost predicate Unique(db: Db) {
    forall i, j :: i in db.rows && j in db.rows && db.rows[i].hash == db.rows[j].hash ==> i == j
  }

  // ----- requests, one store call at a time

  /** Where a request stands. */
  datatype Task =
    | Refreshing(hash: Hash)
    | Identifying(id: nat, family: Family, account: int)
    | Rotating(id: nat, family: Family, account: int)
    | Killing(family: Family)
    | LoggingOut(hash: Hash)
    | LoggingIn(account: int, family: Family)
    | Resetting(account: int)
    | Done(token: Option<Hash>)

  /** What a request draws from outside: clock readings, its new token's hash, and whether
      the account exists. */
  datatype Draw = Draw(check: int, now: int, minted: Hash, known: bool)

  ghost function Advance(db: Db, t: Task, d: Draw): (Db, Task) {
    match t
    case Refreshing(hash) =>
      var found := FindByHash(db, hash);
      if hash == "" || found.None? then (db, Done(None))
      else
        var row := db.rows[found.value];
        if !Active(row) then (db, Killing(row.family))
        else if d.check > row.expiresAt then (db, Done(None))
        else (db, Identifying(found.value, row.family, row.account))
    case Identifying(id, family, account) =>
      (db, if d.known then Rotating(id, family, account) else Done(None))
    case Rotating(id, family, account) =>
      var (db', r) := Rotate(db, id, Row(account, family, d.minted, d.now + REFRESH_TTL, 0), d.now);
      (db', match r
            case Rotated => Done(Some(d.minted))
            case TokenRevoked => Killing(family)
            case Failed => Done(None))
    case Killing(family) => (FamilyRevoked(db, family, d.now), Done(None))
    case LoggingOut(hash) =>
      var found := FindByHash(db, hash);
      if hash == "" || found.None? then (db, Done(None)) else (db, Killing(db.rows[found.value].family))
    case LoggingIn(account, family) =>
      var (db', ok) := Created(db, Row(account, family, d.minted, d.now + REFRESH_TTL, 0));
      (db', Done(if ok then Some(d.minted) else None))
    case Resetting(account) => (AccountRevoked(db, account, d.now), Done(None))
    case Done(_) => (db, t)
  }

  function Rank(t: Task): nat {
    match t
    case Refreshing(_) => 4
    case Identifying(_, _, _) => 3
    case Rotating(_, _, _) => 2
    case LoggingOut(_) => 2
    case Killing(_) => 1
    case LoggingIn(_, _) => 1
    case Resetting(_) => 1
    case Done(_) => 0
  }

  lemma AdvanceRanks(db: Db, t: Task, d: Draw)
    ensures !t.Done? ==> Rank(Advance(db, t, d).1) < Rank(t)
  {
  }

  /** A request that nobody interrupts. */
  ghost function Alone(db: Db, t: Task, d: Draw): (Db, Option<Hash>)
    decreases Rank(t)
  {
    if t.Done? then (db, t.token)
    else
      AdvanceRanks(db, t, d);
      var (db', t') := Advance(db, t, d);
      Alone(db', t', d)
  }

  lemma AloneKills(db: Db, family: Family, d: Draw)
    ensures Alone(db, Killing(family), d) == (FamilyRevoked(db, family, d.now), None)
  {
    assert Advance(db, Killing(family), d) == (FamilyRevoked(db, family, d.now), Done(None));
  }

  lemma AloneResets(db: Db, account: int, d: Draw)
    ensures Alone(db, Resetting(account), d) == (AccountRevoked(db, account, d.now), None)
  {
    assert Advance(db, Resetting(account), d) == (AccountRevoked(db, account, d.now), Done(None));
  }

  lemma AloneEnds(db: Db, token: Option<Hash>, d: Draw)
    ensures Alone(db, Done(token), d) == (db, token)
  {
  }

  // ----- what a client may rely on

  /** A client presents the token of row `id`. */
  ghost predicate Presents(db: Db, hash: Hash, id: nat) {
    hash != "" && id in db.rows && db.rows[id].hash == hash
  }

  /** The token of row `prior` is traded in: it is revoked, its successor of the same family
      and account is active for 30 days, expired rows of the account are gone, and nothing
      else changed. */
  ghost predicate Exchanged(before: Db, prior: nat, d: Draw, after: Db)
    requires prior in before.rows
  {
    var row := before.rows[prior];
    && after.next == before.next + 1
    && before.next in after.rows
    && after.rows[before.next] == Row(row.account, row.family, d.minted, d.now + 2_592_000_000, 0)
    && (forall id :: id in before.rows && id != before.next ==>
      (id in after.rows <==> before.rows[id].account != row.account || before.rows[id].expiresAt >= d.now))
    && (forall id :: id in after.rows && id != before.next ==>
      && id in before.rows
      && after.rows[id] == if id == prior then before.rows[id].(revokedAt := d.now) else before.rows[id])
  }

  /** A refresh succeeds exactly when an active token in time is presented for an account that
      exists; a revoked one costs the whole family; anything else changes nothing. */
  ghost predicate Refreshed(before: Db, hash: Hash, d: Draw, after: Db, token: Option<Hash>) {
    && (forall id :: Presents(before, hash, id) ==>
      var row := before.rows[id];
      if row.revokedAt != 0 then token == None && Revoked(before, after, OfFamily(before, row.family), d.now)
      else if d.check <= row.expiresAt && d.known && (forall k :: k in before.rows ==> before.rows[k].hash != d.minted)
      then token == Some(d.minted) && Exchanged(before, id, d, after)
      else token == None && after == before)
    && ((forall id :: !Presents(before, hash, id)) ==> token == None && after == before)
  }

  lemma RotateExchanges(db: Db, prior: nat, d: Draw)
    requires prior in db.rows && db.rows[prior].revokedAt == 0
    ensures var row := db.rows[prior];
      var (db', r) := Rotate(db, prior, Row(row.account, row.family, d.minted, d.now + REFRESH_TTL, 0), d.now);
      if forall k :: k in db.rows ==> db.rows[k].hash != d.minted then r == Rotated && Exchanged(db, prior, d, db')
      else r == Failed && db' == db
  {
    var db1 := db.(rows := db.rows[prior := db.rows[prior].(revokedAt := d.now)]);
    assert forall k :: k in db.rows ==> db1.rows[k].hash == db.rows[k].hash;
    assert db1.rows.Keys == db.rows.Keys;
    if k :| k in db.rows && db.rows[k].hash == d.minted {
      assert db1.rows[k].hash == d.minted;
    }
  }

  lemma FoundIsPresented(db: Db, hash: Hash, id: nat)
    requires Unique(db) && Presents(db, hash, id)
    ensures FindByHash(db, hash) == Some(id)
  {
    assert HashTaken(db, hash);
  }

  lemma FoundPresents(db: Db, hash: Hash)
    ensures var found := FindByHash(db, hash); found.Some? && hash != "" ==> Presents(db, hash, found.value)
  {
  }

  lemma NobodyPresents(db: Db, hash: Hash)
    requires forall id :: !Presents(db, hash, id)
    ensures hash == "" || FindByHash(db, hash) == None
  {
    FoundPresents(db, hash);
    hide FindByHash;
  }

  /** What an uninterrupted refresh comes to. */
  lemma AloneRefreshes(db: Db, hash: Hash, d: Draw)
    requires Unique(db)
    ensures var (db', token) := Alone(db, Refreshing(hash), d); Refreshed(db, hash, d, db', token)
  {
    hide Exchanged, Revoked, Rotate, FindByHash;
    var (db', token) := Alone(db, Refreshing(hash), d);
    if id :| Presents(db, hash, id) {
      FoundIsPresented(db, hash, id);
      forall k | Presents(db, hash, k)
        ensures k == id
      {
      }
      AlonePresents(db, hash, id, d);
    } else {
      NobodyPresents(db, hash);
      AloneEnds(db, None, d);
    }
  }

  lemma AlonePresents(db: Db, hash: Hash, id: nat, d: Draw)
    requires Unique(db) && Presents(db, hash, id) && FindByHash(db, hash) == Some(id)
    ensures var (row, (db', token)) := (db.rows[id], Alone(db, Refreshing(hash), d));
      if row.revokedAt != 0 then token == None && Revoked(db, db', OfFamily(db, row.family), d.now)
      else if d.check <= row.expiresAt && d.known && (forall k :: k in db.rows ==> db.rows[k].hash != d.minted)
      then token == Some(d.minted) && Exchanged(db, id, d, db')
      else token == None && db' == db
  {
    hide Exchanged, Revoked, Rotate, FindByHash, Unique;
    var row := db.rows[id];
    if row.revokedAt != 0 {
      AloneKills(db, row.family, d);
      FamilyRevokedIff(db, FamilyRevoked(db, row.family, d.now), row.family, d.now);
    } else if d.check <= row.expiresAt {
      AloneEnds(db, None, d);
      if d.known {
        RotateExchanges(db, id, d);
        AloneRotates(db, id, d);
      }
    }
  }

  lemma AloneRotates(db: Db, id: nat, d: Draw)
    requires id in db.rows && db.rows[id].revokedAt == 0
    ensures var row := db.rows[id];
      var (db', r) := Rotate(db, id, Row(row.account, row.family, d.minted, d.now + REFRESH_TTL, 0), d.now);
      Alone(db, Rotating(id, row.family, row.account), d)
        == (db', if r.Rotated? then Some(d.minted) else None)
  {
  }

  /** What an uninterrupted logout comes to: no token of the session is active any more. */
  ghost predicate LoggedOut(before: Db, hash: Hash, d: Draw, after: Db) {
    && (forall id :: Presents(before, hash, id) ==>
      Revoked(before, after, OfFamily(before, before.rows[id].family), d.now))
    && ((forall id :: !Presents(before, hash, id)) ==> after == before)
  }

  lemma AloneLogsOut(db: Db, hash: Hash, d: Draw)
    requires Unique(db)
    ensures LoggedOut(db, hash, d, Alone(db, LoggingOut(hash), d).0)
  {
    hide Revoked, FindByHash;
    if id :| Presents(db, hash, id) {
      FoundIsPresented(db, hash, id);
      var family := db.rows[id].family;
      AloneKills(db, family, d);
      FamilyRevokedIff(db, FamilyRevoked(db, family, d.now), family, d.now);
      forall k | Presents(db, hash, k)
        ensures k == id
      {
      }
    } else {
      NobodyPresents(db, hash);
      AloneEnds(db, None, d);
    }
  }

  /** After a logout no token of the session is active. */
  lemma LogoutEndsSession(db: Db, hash: Hash, d: Draw, id: nat)
    requires Unique(db) && Presents(db, hash, id) && d.now != 0
    ensures var db' := Alone(db, LoggingOut(hash), d).0;
      && db'.rows.Keys == db.rows.Keys
      && forall k :: k in db'.rows && db'.rows[k].family == db.rows[id].family ==> db'.rows[k].revokedAt != 0
  {
    AloneLogsOut(db, hash, d);
    hide Alone, Unique;
  }

  class Service {
    const store: Store

    constructor (store: Store)
      ensures this.store == store
    {
      this.store := store;
    }

    method Refresh(hash: Hash, d: Draw) returns (token: Option<Hash>)
      requires Unique(store.State())
      modifies store
      ensures (store.State(), token) == Alone(old(store.State()), Refreshing(hash), d) && Unique(store.State())
      ensures Refreshed(old(store.State()), hash, d, store.State(), token)
    {
      AloneRefreshes(store.State(), hash, d);
      hide Refreshed;
      if hash == "" {
        return None;
      }
      var found := store.RefreshTokenByHash(hash);
      if found.None? {
        return None;
      }
      var rt := store.rows[found.value];
      if rt.revokedAt != 0 {
        AloneKills(store.State(), rt.family, d);
        Kill(rt.family, d.now);
        return None;
      }
      if d.check > rt.expiresAt {
        return None;
      }
      if !d.known {
        AloneEnds(store.State(), None, d);
        return None;
      }
      token := Exchange(found.value, rt, d);
    }

    /** The rotation at the end of `Refresh`. */
    method Exchange(id: nat, rt: Row, d: Draw) returns (token: Option<Hash>)
      requires Unique(store.State())
      modifies store
      ensures (store.State(), token) == Alone(old(store.State()), Rotating(id, rt.family, rt.account), d)
      ensures Unique(store.State())
    {
      var r := store.RotateRefreshToken(id, Row(rt.account, rt.family, d.minted, d.now + REFRESH_TTL, 0), d.now);
      hide Rotate;
      match r
      case TokenRevoked =>
        AloneKills(store.State(), rt.family, d);
        Kill(rt.family, d.now);
        return None;
      case Failed => return None;
      case Rotated => return Some(d.minted);
    }

    method Logout(hash: Hash, d: Draw)
      requires Unique(store.State())
      modifies store
      ensures store.State() == Alone(old(store.State()), LoggingOut(hash), d).0 && Unique(store.State())
      ensures LoggedOut(old(store.State()), hash, d, store.State())
    {
      AloneLogsOut(store.State(), hash, d);
      hide LoggedOut;
      if hash == "" {
        return;
      }
      var found := store.RefreshTokenByHash(hash);
      if found.None? {
        return;
      }
      AloneKills(store.State(), store.rows[found.value].family, d);
      Kill(store.rows[found.value].family, d.now);
    }

    method Kill(family: Family, now: int)
      requires Unique(store.State())
      modifies store
      ensures store.State() == FamilyRevoked(old(store.State()), family, now) && Unique(store.State())
    {
      ghost var before := store.State();
      store.RevokeRefreshFamily(family, now);
      FamilyRevokedIff(before, store.State(), family, now);
    }

    /** A password reset, once the new password is found strong enough and the one-time token
        names an account: every session of the account ends. */
    method ResetPassword(strong: bool, owner: Option<int>, d: Draw) returns (ok: bool)
      requires Unique(store.State())
      modifies store
      ensures Unique(store.State()) && ok == (strong && owner.Some?)
      ensures store.State() == if ok then Alone(old(store.State()), Resetting(owner.value), d).0 else old(store.State())
      ensures ok && d.now != 0 ==>
        forall id :: id in store.rows && store.rows[id].account == owner.value ==> !Active(store.rows[id])
    {
      if !strong || owner.None? {
        return false;
      }
      ghost var before := store.State();
      store.RevokeAllRefreshTokens(owner.value, d.now);
      AccountRevokedIff(before, store.State(), owner.value, d.now);
      AloneResets(before, owner.value, d);
      return true;
    }

    method IssueLogin(account: int, family: Family, d: Draw) returns (token: Option<Hash>)
      requires Unique(store.State())
      modifies store
      ensures (store.State(), token) == Alone(old(store.State()), LoggingIn(account, family), d)
      ensures Unique(store.State())
      ensures var before := old(store.State());
        if forall id :: id in before.rows ==> before.rows[id].hash != d.minted then
          && token == Some(d.minted)
          && store.State() == Db(before.rows[before.next := Row(account, family, d.minted, d.now + 2_592_000_000, 0)],
                                 before.next + 1)
        else token == None && store.State() == before
    {
      var ok := store.CreateRefreshToken(Row(account, family, d.minted, d.now + REFRESH_TTL, 0));
      return if ok then Some(d.minted) else None;
    }
  }
}
