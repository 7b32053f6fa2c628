/** The in-memory session cache of one DevWork (`_active_sessions[dev_id]`), updated in place. The code knows sessions
    by name only; the ghost field `pool` follows what happens to the sessions themselves. */
module SessionCache {
  import opened PyText
  import opened SessionNames
  import opened Sessions

  /** The sessions of one round in the given roles leave the cache and are closed. */
  ghost function Shed(p: Pool, roles: set<Role>, round: nat, stuck: set<Session>): Pool {
    Close(p.(cache := p.cache - roles), set role | role in roles :: Session(round, role), stuck)
  }

  lemma ShedOneMore(p: Pool, roles: set<Role>, role: Role, round: nat, stuck: set<Session>)
    ensures var q := Shed(p, roles, round, stuck);
            Close(q, {Session(round, role)}, stuck).(cache := q.cache - {role}) == Shed(p, roles + {role}, round, stuck)
  {
    var closed := set role | role in roles :: Session(round, role);
    CloseOneMore(p.(cache := p.cache - roles), closed, Session(round, role), stuck);
    assert closed + {Session(round, role)} == set r | r in roles + {role} :: Session(round, r);
    assert p.cache - roles - {role} == p.cache - (roles + {role});
  }

  class SessionCache {
    const devId: string
    var active: map<Role, string>
    ghost var pool: Pool

    /** The cache names exactly the sessions that the pool holds as cached. */
    ghost predicate Valid()
      reads this
    {
      && IsDevId(devId)
      && active.Keys == pool.cache.Keys
      && forall role :: role in active ==> active[role] == DwSessionName(devId, pool.cache[role], role)
    }

    constructor (devId: string)
      requires IsDevId(devId)
      ensures Valid() && this.devId == devId && pool == EMPTY_POOL
    {
      this.devId := devId;
      active := map[];
      pool := EMPTY_POOL;
    }

    /** Looking a role up by the name of a round's session finds it exactly if that session is cached. */
    lemma Lookup(role: Role, round: nat)
      requires Valid()
      ensures role in active && active[role] == DwSessionName(devId, round, role) <==>
              role in pool.cache && pool.cache[role] == round
    {
      if role in active && active[role] == DwSessionName(devId, round, role) {
        NamesInjective(devId, pool.cache[role], role, devId, round, role);
      }
    }

    /** `llm_runner.delete_session`, whose failures are logged and swallowed. */
    ghost method Delete(s: Session, stuck: set<Session>)
      modifies this`pool
      ensures pool == Close(old(pool), {s}, stuck)
    {
      pool := Close(pool, {s}, stuck);
    }

    /** `_run_llm_session`: the session of a role is reused, opened, or opened in place of a stale one. */
    method RunLlmSession(round: nat, role: Role, run: LlmRun, ghost stuck: set<Session>) returns (rc: int)
      requires Valid()
      modifies this
      ensures Valid() && rc == Rc(run)
      ensures pool == Start(old(pool), Session(round, role), run, stuck)
    {
      var name := DwSessionName(devId, round, role);
      Lookup(role, round);
      if role !in active || active[role] != name {
        if role in active {
          Delete(Session(pool.cache[role], role), stuck);
        }
        if run.StartFailed? {
          if run.remnant {
            pool := Born(pool, Session(round, role));
          }
          Delete(Session(round, role), stuck);
          return 124;
        }
        pool := Born(pool, Session(round, role)).(cache := pool.cache[role := round]);
        active := active[role := name];
      }
      rc := if run.Ran? then run.rc else 124;
    }

    /** `_delete_role_session`. */
    method DeleteRoleSession(round: nat, role: Role, ghost stuck: set<Session>)
      requires Valid()
      modifies this
      ensures Valid() && pool == CloseRole(old(pool), Session(round, role), stuck)
    {
      Lookup(role, round);
      if role !in active || active[role] != DwSessionName(devId, round, role) {
        return;
      }
      Drop(role, round, stuck);
    }

    /** `_delete_round_sessions`: the roles whose session name contains `-r{round}-` are collected, then deleted one
        by one. */
    method DeleteRoundSessions(round: nat, ghost stuck: set<Session>)
      requires Valid()
      modifies this
      ensures Valid() && pool == CloseRound(old(pool), round, stuck)
    {
      var marker := RoundMarker(round);
      var stale := set role | role in active && Contains(active[role], marker);
      StaleRoles(round);
      DeleteEach(stale, round, stuck);
    }

    lemma StaleRoles(round: nat)
      requires Valid()
      ensures (set role | role in active && Contains(active[role], RoundMarker(round)))
              == set role | role in pool.cache && pool.cache[role] == round
    {
      forall role | role in active ensures Contains(active[role], RoundMarker(round)) <==> pool.cache[role] == round {
        MarkerSelectsRound(devId, pool.cache[role], role, round);
      }
    }

    method DeleteEach(stale: set<Role>, ghost round: nat, ghost stuck: set<Session>)
      requires Valid()
      modifies this
      ensures Valid()
      ensures pool == Shed(old(pool), stale, round, stuck)
    {
      var left := stale;
      ghost var before, gone: set<Role> := pool, {};
      while left != {}
        invariant Valid() && gone + left == stale && gone !! left
        invariant pool == Shed(before, gone, round, stuck)
      {
        var role :| role in left;
        ShedOneMore(before, gone, role, round, stuck);
        Drop(role, round, stuck);
        left := left - {role};
        gone := gone + {role};
      }
    }

    /** One session is deleted and leaves the cache. */
    method Drop(role: Role, ghost round: nat, ghost stuck: set<Session>)
      requires Valid()
      modifies this
      ensures Valid()
      ensures pool == Close(old(pool), {Session(round, role)}, stuck).(cache := old(pool).cache - {role})
    {
      Delete(Session(round, role), stuck);
      active := active - {role};
      pool := pool.(cache := pool.cache - {role});
    }

    /** `_delete_all_sessions`: the cache is taken out whole, then its sessions are deleted. */
    method DeleteAllSessions(ghost stuck: set<Session>)
      requires Valid()
      modifies this
      ensures Valid() && pool == CloseAll(old(pool), stuck)
    {
      var taken := active;
      ghost var rounds := pool.cache;
      active := map[];
      pool := pool.(cache := map[]);
      var left := taken.Keys;
      ghost var closed: set<Session> := {};
      while left != {}
        invariant Valid() && left <= taken.Keys
        invariant closed == set role | role in taken.Keys - left :: Session(rounds[role], role)
        invariant pool == Close(old(pool).(cache := map[]), closed, stuck)
      {
        var role :| role in left;
        Delete(Session(rounds[role], role), stuck);
        CloseOneMore(old(pool).(cache := map[]), closed, Session(rounds[role], role), stuck);
        left := left - {role};
        closed := closed + {Session(rounds[role], role)};
      }
      assert closed == Cached(old(pool));
    }
  }
}
