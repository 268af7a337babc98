/** Every interleaving of refreshes, logouts, logins and resets: a token family never has
    two active tokens, and once it has none it stays dead. */
module TokenFamilies {
  import opened Wrappers
  import opened RefreshTokens

  /** The table, every request so far, and the family ids handed out. */
  datatype Sys = Sys(db: Db, tasks: seq<Task>, used: set<Family>)

  /** A request arrives, makes its next store call, or is lost to an error. */
  datatype Event = Arrive(task: Task) | Move(i: nat, draw: Draw) | Lose(i: nat)

  function FamilyOf(t: Task): Option<Family> {
    match t
    case Identifying(_, f, _) => Some(f)
    case Rotating(_, f, _) => Some(f)
    case Killing(f) => Some(f)
    case LoggingIn(_, f) => Some(f)
    case _ => None
  }

  /** Logins come with a family id never handed out before; clocks are past the epoch. */
  ghost predicate Possible(s: Sys, e: Event) {
    match e
    case Arrive(t) => t.Refreshing? || t.LoggingOut? || t.Resetting? || (t.LoggingIn? && t.family !in s.used)
    case Move(i, d) => i < |s.tasks| && d.now > 0
    case Lose(i) => i < |s.tasks|
  }

  ghost function Next(s: Sys, e: Event): Sys
    requires Possible(s, e)
  {
    match e
    case Arrive(t) => Sys(s.db, s.tasks + [t], if t.LoggingIn? then s.used + {t.family} else s.used)
    case Move(i, d) =>
      var (db, t) := Advance(s.db, s.tasks[i], d);
      Sys(db, s.tasks[i := t], s.used)
    case Lose(i) => s.(tasks := s.tasks[i := Done(None)])
  }

  ghost predicate CanRun(s: Sys, es: seq<Event>)
    decreases |es|
  {
    es != [] ==> Possible(s, es[0]) && CanRun(Next(s, es[0]), es[1..])
  }

  ghost function After(s: Sys, es: seq<Event>): Sys
    requires CanRun(s, es)
    decreases |es|
  {
    if es == [] then s else After(Next(s, es[0]), es[1..])
  }

  const START := Sys(Db(map[], 1), [], {})

  // ----- the invariant

  /** At most one active token a family. */
  ghost predicate OneActive(db: Db) {
    forall i, j ::
      i in db.rows && j in db.rows && Active(db.rows[i]) && Active(db.rows[j]) ==>
        (db.rows[i].family == db.rows[j].family ==> i == j)
  }

  ghost predicate RowsOk(s: Sys) {
    && Unique(s.db) && OneActive(s.db)
    && forall id :: id in s.db.rows ==> id < s.db.next && s.db.rows[id].family in s.used
  }

  /** A request knows only families handed out; a login's is still its own, and the row a
      refresh found keeps its family. */
  ghost predicate TaskOk(s: Sys, i: nat)
    requires i < |s.tasks|
  {
    var t := s.tasks[i];
    && (FamilyOf(t).Some? ==> FamilyOf(t).value in s.used)
    && ((t.Rotating? || t.Identifying?) ==>
        t.id < s.db.next && (t.id in s.db.rows ==> s.db.rows[t.id].family == t.family))
    && (t.LoggingIn? ==>
        && (forall id :: id in s.db.rows ==> s.db.rows[id].family != t.family)
        && (forall k :: 0 <= k < |s.tasks| && k != i ==> FamilyOf(s.tasks[k]) != Some(t.family)))
  }

  ghost predicate Inv(s: Sys) {
    RowsOk(s) && forall i :: 0 <= i < |s.tasks| ==> TaskOk(s, i)
  }

  lemma StartInv()
    ensures Inv(START)
  {
  }

  /** What any store call may do to the table. */
  ghost predicate TableStep(db: Db, db': Db, family: Option<Family>) {
    && db'.next >= db.next
    && (forall id :: id in db.rows && id in db'.rows ==> db'.rows[id].family == db.rows[id].family)
    && (forall id :: id in db.rows && id in db'.rows && !Active(db.rows[id]) ==> !Active(db'.rows[id]))
    && (forall id :: id in db'.rows && id !in db.rows ==>
        id >= db.next && id < db'.next && Some(db'.rows[id].family) == family)
  }

  lemma RevokeSteps(db: Db, db': Db, now: int, hits: set<nat>)
    requires now > 0 && db'.next == db.next && db'.rows.Keys == db.rows.Keys
    requires forall id :: id in db.rows ==> db'.rows[id] == RevokedRow(db.rows[id], id in hits, now)
    ensures TableStep(db, db', None)
    ensures Unique(db) ==> Unique(db')
    ensures OneActive(db) ==> OneActive(db')
  {
  }

  lemma FamilyRevokedSteps(db: Db, family: Family, now: int)
    requires now > 0
    ensures var db' := FamilyRevoked(db, family, now);
      TableStep(db, db', None) && (Unique(db) ==> Unique(db')) && (OneActive(db) ==> OneActive(db'))
      && forall id :: id in db'.rows && db'.rows[id].family == family ==> !Active(db'.rows[id])
  {
    RevokeSteps(db, FamilyRevoked(db, family, now), now, set id | id in db.rows && db.rows[id].family == family);
  }

  lemma AccountRevokedSteps(db: Db, account: int, now: int)
    requires now > 0
    ensures var db' := AccountRevoked(db, account, now);
      TableStep(db, db', None) && (Unique(db) ==> Unique(db')) && (OneActive(db) ==> OneActive(db'))
  {
    RevokeSteps(db, AccountRevoked(db, account, now), now, set id | id in db.rows && db.rows[id].account == account);
  }

  lemma CreatedSteps(db: Db, r: Row)
    requires Unique(db) && OneActive(db) && forall id :: id in db.rows ==> id < db.next
    requires forall id :: id in db.rows ==> db.rows[id].family != r.family
    ensures var db' := Created(db, r).0; TableStep(db, db', Some(r.family)) && Unique(db') && OneActive(db')
  {
  }

  /** Rotation trades the family's one active token for another, or does nothing. */
  lemma RotateSteps(db: Db, id: nat, r: Row, now: int)
    requires Unique(db) && OneActive(db) && now > 0 && forall k :: k in db.rows ==> k < db.next
    requires id in db.rows ==> db.rows[id].family == r.family
    ensures var (db', res) := Rotate(db, id, r, now);
      && TableStep(db, db', Some(r.family)) && Unique(db') && OneActive(db')
      && (res.Rotated? ==> id in db.rows && Active(db.rows[id]))
      && (!res.Rotated? ==> db' == db)
      && (res.Rotated? && id in db'.rows ==> !Active(db'.rows[id]))
  {
    if id in db.rows && Active(db.rows[id]) {
      var db1 := db.(rows := db.rows[id := db.rows[id].(revokedAt := now)]);
      if !HashTaken(db1, r.hash) {
        var db2 := Inserted(db1, r);
        OnlySuccessor(db, db1, db2, id, r, now);
        PrunedSteps(db2, r.account, now);
      }
    }
  }

  lemma OnlySuccessor(db: Db, db1: Db, db2: Db, id: nat, r: Row, now: int)
    requires Unique(db) && OneActive(db) && now > 0 && forall k :: k in db.rows ==> k < db.next
    requires id in db.rows && Active(db.rows[id]) && db.rows[id].family == r.family
    requires db1 == db.(rows := db.rows[id := db.rows[id].(revokedAt := now)])
    requires !HashTaken(db1, r.hash) && db2 == Inserted(db1, r)
    ensures TableStep(db, db2, Some(r.family)) && Unique(db2) && OneActive(db2) && !Active(db2.rows[id])
  {
    hide Unique, OneActive, HashTaken;
    StillUnique(db, db1, r);
    SoleActive(db, db2, id, r, now);
  }

  lemma SoleActive(db: Db, db2: Db, id: nat, r: Row, now: int)
    requires OneActive(db) && now > 0 && id in db.rows && Active(db.rows[id]) && db.rows[id].family == r.family
    requires db2.rows == db.rows[id := db.rows[id].(revokedAt := now)][db.next := r]
    ensures OneActive(db2)
  {
    forall i, j | i in db2.rows && j in db2.rows && Active(db2.rows[i]) && Active(db2.rows[j])
                  && db2.rows[i].family == db2.rows[j].family
      ensures i == j
    {
      if i != db.next && j != db.next {
        assert db.rows[i] == db2.rows[i] && db.rows[j] == db2.rows[j];
      }
    }
  }

  lemma StillUnique(db: Db, db1: Db, r: Row)
    requires Unique(db) && db1.rows.Keys == db.rows.Keys && db1.next == db.next && !HashTaken(db1, r.hash)
    requires forall k :: k in db.rows ==> k < db.next && db1.rows[k].hash == db.rows[k].hash
    ensures Unique(Inserted(db1, r))
  {
    var db2 := Inserted(db1, r);
    forall i, j | i in db2.rows && j in db2.rows && db2.rows[i].hash == db2.rows[j].hash
      ensures i == j
    {
      if i != db.next && j != db.next {
        assert db.rows[i].hash == db.rows[j].hash;
      }
    }
  }

  lemma PrunedSteps(db: Db, account: int, now: int)
    requires Unique(db) && OneActive(db)
    ensures var db' := Pruned(db, account, now);
      && Unique(db') && OneActive(db') && db'.next == db.next
      && forall id :: id in db'.rows ==> id in db.rows && db'.rows[id] == db.rows[id]
  {
  }

  // ----- every step keeps it

  lemma AdvanceSteps(s: Sys, i: nat, d: Draw)
    requires Inv(s) && i < |s.tasks| && d.now > 0
    ensures var (db', t') := Advance(s.db, s.tasks[i], d);
      && TableStep(s.db, db', FamilyOf(s.tasks[i])) && Unique(db') && OneActive(db')
      && (FamilyOf(t').Some? ==>
          || FamilyOf(t') == FamilyOf(s.tasks[i])
          || exists id :: id in s.db.rows && FamilyOf(t') == Some(s.db.rows[id].family))
      && !t'.LoggingIn?
      && ((t'.Rotating? || t'.Identifying?) ==>
          t'.id < db'.next && (t'.id in db'.rows ==> db'.rows[t'.id].family == t'.family))
  {
    assert TaskOk(s, i);
    hide Rotate, FamilyRevoked, AccountRevoked, Created;
    StillTable(s.db);
    match s.tasks[i]
    case Rotating(id, family, account) =>
      RotateSteps(s.db, id, Row(account, family, d.minted, d.now + REFRESH_TTL, 0), d.now);
    case Killing(family) => FamilyRevokedSteps(s.db, family, d.now);
    case LoggingIn(account, family) => CreatedSteps(s.db, Row(account, family, d.minted, d.now + REFRESH_TTL, 0));
    case Resetting(account) => AccountRevokedSteps(s.db, account, d.now);
    case _ =>
  }

  lemma StillTable(db: Db)
    ensures forall f :: TableStep(db, db, f)
  {
  }

  lemma MoveKeeps(s: Sys, i: nat, d: Draw)
    requires Inv(s) && Possible(s, Move(i, d))
    ensures Inv(Next(s, Move(i, d)))
  {
    AdvanceSteps(s, i, d);
    assert TaskOk(s, i);
    var s' := Next(s, Move(i, d));
    hide Advance, Unique, OneActive;
    forall k | 0 <= k < |s'.tasks|
      ensures TaskOk(s', k)
    {
      assert TaskOk(s, k);
      if k != i {
        OthersKeep(s, s', i, k);
      }
    }
  }

  /** A request that did not move still knows what it knew. */
  lemma OthersKeep(s: Sys, s': Sys, i: nat, k: nat)
    requires i < |s.tasks| && k < |s.tasks| && k != i && TaskOk(s, i) && TaskOk(s, k) && RowsOk(s)
    requires |s'.tasks| == |s.tasks| && s'.tasks == s.tasks[i := s'.tasks[i]] && s'.used == s.used
    requires TableStep(s.db, s'.db, FamilyOf(s.tasks[i]))
    requires var f := FamilyOf(s'.tasks[i]);
      f.Some? ==> f == FamilyOf(s.tasks[i]) || exists id :: id in s.db.rows && f == Some(s.db.rows[id].family)
    ensures TaskOk(s', k)
  {
    hide Unique, OneActive;
  }

  lemma StepKeeps(s: Sys, e: Event)
    requires Inv(s) && Possible(s, e)
    ensures Inv(Next(s, e))
  {
    match e
    case Move(i, d) => MoveKeeps(s, i, d);
    case Arrive(t) =>
      var s' := Next(s, e);
      forall k | 0 <= k < |s'.tasks|
        ensures TaskOk(s', k)
      {
        if k < |s.tasks| {
          assert TaskOk(s, k);
        } else if t.LoggingIn? {
          forall m | 0 <= m < |s.tasks|
            ensures FamilyOf(s.tasks[m]) != Some(t.family)
          {
            assert TaskOk(s, m);
          }
        }
      }
    case Lose(i) =>
      var s' := Next(s, e);
      forall k | 0 <= k < |s'.tasks|
        ensures TaskOk(s', k)
      {
        assert TaskOk(s, k);
      }
  }

  lemma {:induction false} RunKeeps(s: Sys, es: seq<Event>)
    requires Inv(s) && CanRun(s, es)
    ensures Inv(After(s, es))
    decreases |es|
  {
    hide Inv, Next, Possible;
    if es != [] {
      StepKeeps(s, es[0]);
      RunKeeps(Next(s, es[0]), es[1..]);
    }
  }

  /** Under every interleaving a family has at most one active token. */
  lemma NeverTwoActive(es: seq<Event>)
    requires CanRun(START, es)
    ensures OneActive(After(START, es).db)
  {
    StartInv();
    RunKeeps(START, es);
  }

  // ----- dead families

  /** The family was handed out, its login is over, and it has no active token. */
  ghost predicate Dead(s: Sys, family: Family) {
    && family in s.used
    && (forall k :: 0 <= k < |s.tasks| && s.tasks[k].LoggingIn? ==> s.tasks[k].family != family)
    && (forall id :: id in s.db.rows && s.db.rows[id].family == family ==> !Active(s.db.rows[id]))
  }

  lemma DeadStays(s: Sys, e: Event, family: Family)
    requires Inv(s) && Possible(s, e) && Dead(s, family)
    ensures Dead(Next(s, e), family)
  {
    if e.Move? {
      AdvanceSteps(s, e.i, e.draw);
      assert TaskOk(s, e.i);
      NoRevival(s, e.i, e.draw, family);
    }
    hide Advance;
  }

  /** The only call that adds a token to a family that has left its login is a rotation,
      and that needs an active one. */
  lemma NoRevival(s: Sys, i: nat, d: Draw, family: Family)
    requires Inv(s) && i < |s.tasks| && d.now > 0 && Dead(s, family)
    ensures var db' := Advance(s.db, s.tasks[i], d).0;
      forall id :: id in db'.rows && db'.rows[id].family == family ==> !Active(db'.rows[id])
  {
    assert TaskOk(s, i);
    AdvanceSteps(s, i, d);
    if s.tasks[i].Rotating? && s.tasks[i].family == family {
      var t := s.tasks[i];
      assert Rotate(s.db, t.id, Row(t.account, t.family, d.minted, d.now + REFRESH_TTL, 0), d.now).0 == s.db;
    } else {
      hide Rotate, Created, FamilyRevoked, AccountRevoked, FindByHash;
    }
  }

  /** A dead family is dead for good. */
  lemma {:induction false} DeadForever(s: Sys, es: seq<Event>, family: Family)
    requires Inv(s) && CanRun(s, es) && Dead(s, family)
    ensures Dead(After(s, es), family)
    decreases |es|
  {
    hide Inv, Next, Possible, Dead;
    if es != [] {
      StepKeeps(s, es[0]);
      DeadStays(s, es[0], family);
      DeadForever(Next(s, es[0]), es[1..], family);
    }
  }

  /** A request on its way to kill a family does kill it. */
  lemma KillKills(s: Sys, i: nat, d: Draw)
    requires Inv(s) && Possible(s, Move(i, d)) && s.tasks[i].Killing?
    ensures Dead(Next(s, Move(i, d)), s.tasks[i].family)
  {
    var family := s.tasks[i].family;
    FamilyRevokedSteps(s.db, family, d.now);
    assert TaskOk(s, i);
    forall k | 0 <= k < |s.tasks| && s.tasks[k].LoggingIn?
      ensures s.tasks[k].family != family
    {
      assert TaskOk(s, k);
    }
    hide FamilyRevoked;
  }

  lemma {:induction false} TaskWaits(s: Sys, es: seq<Event>, i: nat)
    requires CanRun(s, es) && i < |s.tasks|
    requires forall k :: 0 <= k < |es| ==> !(es[k].Move? && es[k].i == i) && !(es[k].Lose? && es[k].i == i)
    ensures i < |After(s, es).tasks| && After(s, es).tasks[i] == s.tasks[i]
    decreases |es|
  {
    hide Advance;
    if es != [] {
      assert !(es[0].Move? && es[0].i == i) && !(es[0].Lose? && es[0].i == i);
      forall k | 0 <= k < |es[1..]|
        ensures !(es[1..][k].Move? && es[1..][k].i == i) && !(es[1..][k].Lose? && es[1..][k].i == i)
      {
        assert es[1..][k] == es[k + 1];
      }
      TaskWaits(Next(s, es[0]), es[1..], i);
    }
  }

  /** A refresh presents a revoked token that is still stored; whatever the others do
      before its next call, and whatever anybody does after, the family is dead for good. */
  lemma ReuseKillsFamily(before: seq<Event>, i: nat, d1: Draw, between: seq<Event>, d2: Draw, later: seq<Event>)
    requires CanRun(START, before)
    requires var s := After(START, before);
      && Possible(s, Move(i, d1)) && s.tasks[i].Refreshing? && s.tasks[i].hash != ""
      && FindByHash(s.db, s.tasks[i].hash).Some? && !Active(s.db.rows[FindByHash(s.db, s.tasks[i].hash).value])
      && CanRun(Next(s, Move(i, d1)), between)
      && (forall k :: 0 <= k < |between| ==>
          !(between[k].Move? && between[k].i == i) && !(between[k].Lose? && between[k].i == i))
      && Possible(After(Next(s, Move(i, d1)), between), Move(i, d2))
      && CanRun(Next(After(Next(s, Move(i, d1)), between), Move(i, d2)), later)
    ensures var s := After(START, before);
      var family := s.db.rows[FindByHash(s.db, s.tasks[i].hash).value].family;
      Dead(After(Next(After(Next(s, Move(i, d1)), between), Move(i, d2)), later), family)
  {
    var s := After(START, before);
    var family := s.db.rows[FindByHash(s.db, s.tasks[i].hash).value].family;
    StartInv();
    RunKeeps(START, before);
    StepKeeps(s, Move(i, d1));
    var s1 := Next(s, Move(i, d1));
    assert s1.tasks[i] == Killing(family);
    hide Inv, Possible, Dead, Next;
    RunKeeps(s1, between);
    TaskWaits(s1, between, i);
    var s2 := After(s1, between);
    KillKills(s2, i, d2);
    StepKeeps(s2, Move(i, d2));
    DeadForever(Next(s2, Move(i, d2)), later, family);
  }

  // ----- a token is exchanged at most once

  /** The token was stored once and is not active any more. */
  ghost predicate Spent(db: Db, id: nat) {
    id < db.next && (id in db.rows ==> !Active(db.rows[id]))
  }

  lemma {:induction false} SpentForever(s: Sys, es: seq<Event>, id: nat)
    requires Inv(s) && CanRun(s, es) && Spent(s.db, id)
    ensures Spent(After(s, es).db, id)
    decreases |es|
  {
    hide Inv, Advance;
    if es != [] {
      StepKeeps(s, es[0]);
      if es[0].Move? {
        SpentStays(s, es[0].i, es[0].draw, id);
      }
      SpentForever(Next(s, es[0]), es[1..], id);
    }
  }

  lemma SpentStays(s: Sys, i: nat, d: Draw, id: nat)
    requires Inv(s) && i < |s.tasks| && d.now > 0 && Spent(s.db, id)
    ensures Spent(Advance(s.db, s.tasks[i], d).0, id)
  {
    AdvanceSteps(s, i, d);
    hide Advance;
  }

  /** Of all requests that found the same token active, at most one ever gets a successor
      for it; any later one is sent to kill the family. */
  lemma ExchangedOnce(s: Sys, i: nat, d: Draw, between: seq<Event>, j: nat, d2: Draw)
    requires Inv(s) && Possible(s, Move(i, d)) && s.tasks[i].Rotating?
    requires Next(s, Move(i, d)).tasks[i].Done? && Next(s, Move(i, d)).tasks[i].token.Some?
    requires CanRun(Next(s, Move(i, d)), between)
    requires var s' := After(Next(s, Move(i, d)), between);
      Possible(s', Move(j, d2)) && s'.tasks[j].Rotating? && s'.tasks[j].id == s.tasks[i].id
    ensures var s' := After(Next(s, Move(i, d)), between);
      Next(s', Move(j, d2)).tasks[j] == Killing(s'.tasks[j].family)
  {
    var t := s.tasks[i];
    assert TaskOk(s, i);
    RotateSteps(s.db, t.id, Row(t.account, t.family, d.minted, d.now + REFRESH_TTL, 0), d.now);
    var s1 := Next(s, Move(i, d));
    StepKeeps(s, Move(i, d));
    assert Spent(s1.db, t.id);
    SpentForever(s1, between, t.id);
    hide Inv, After;
  }
}
