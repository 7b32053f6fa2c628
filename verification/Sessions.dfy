/** The agent sessions of one DevWork as values: the in-memory cache of the state machine
    (`_active_sessions[dev_id]`) and the sessions that live on the agent host without being cached. */
module Sessions {
  import opened SessionNames

  datatype Session = Session(round: nat, role: Role)

  /** `cache` maps a role to the round of its session. `orphans` are sessions that live on because closing them
      failed; `refused` remembers that this ever happened, `overlap` that two sessions ever lived at once, `started` which
      sessions came to life, in order. */
  datatype Pool = Pool(cache: map<Role, nat>, orphans: set<Session>, refused: bool, overlap: bool, started: seq<Session>)

  /** One call to the agent: the session could not be started (a remnant may be left), or it ran. */
  datatype LlmRun = StartFailed(remnant: bool) | Ran(rc: int)

  const EMPTY_POOL := Pool(map[], {}, false, false, [])

  function Rc(run: LlmRun): int {
    if run.Ran? then run.rc else 124
  }

  function Cached(p: Pool): set<Session> {
    set role | role in p.cache :: Session(p.cache[role], role)
  }

  function Live(p: Pool): set<Session> {
    Cached(p) + p.orphans
  }

  /** Closing the sessions in `closing` fails for those in `stuck`; nobody is told. */
  function Close(p: Pool, closing: set<Session>, stuck: set<Session>): Pool {
    p.(orphans := (p.orphans - closing) + closing * stuck, refused := p.refused || closing * stuck != {})
  }

  /** Session `s` comes to life, or is found alive, beside whatever else lives. */
  function Born(p: Pool, s: Session): Pool {
    p.(overlap := p.overlap || p.cache.Keys - {s.role} != {} || p.orphans - {s} != {}, orphans := p.orphans - {s},
        started := p.started + [s])
  }

  /** The session part of `_run_llm_session`. */
  function Start(p: Pool, s: Session, run: LlmRun, stuck: set<Session>): Pool {
    if s.role in p.cache && p.cache[s.role] == s.round then p
    else
      var q := if s.role in p.cache then Close(p, {Session(p.cache[s.role], s.role)}, stuck) else p;
      if run.Ran? then Born(q, s).(cache := q.cache[s.role := s.round])
      else Close(if run.remnant then Born(q, s) else q, {s}, stuck)
  }

  /** `_delete_role_session`. */
  function CloseRole(p: Pool, s: Session, stuck: set<Session>): Pool {
    if s.role in p.cache && p.cache[s.role] == s.round
    then Close(p.(cache := p.cache - {s.role}), {s}, stuck)
    else p
  }

  /** `_delete_round_sessions`. */
  function CloseRound(p: Pool, round: nat, stuck: set<Session>): Pool {
    var roles := set role | role in p.cache && p.cache[role] == round;
    Close(p.(cache := p.cache - roles), set role | role in roles :: Session(round, role), stuck)
  }

  /** `_delete_all_sessions`. */
  function CloseAll(p: Pool, stuck: set<Session>): Pool {
    Close(p.(cache := map[]), Cached(p), stuck)
  }

  /** Closing one session after others is closing them together. */
  lemma CloseOneMore(p: Pool, closed: set<Session>, s: Session, stuck: set<Session>)
    ensures Close(Close(p, closed, stuck), {s}, stuck) == Close(p, closed + {s}, stuck)
  {
  }

  /** As long as no close has failed, what is cached is all that lives, and no two sessions ever lived at once. */
  ghost predicate PoolOk(p: Pool) {
    !p.refused ==> p.orphans == {} && !p.overlap
  }

  /** Nothing is cached, or just the session `s`. */
  ghost predicate OnlyCaches(p: Pool, s: Session) {
    PoolOk(p) && (p.cache == map[] || p.cache == map[s.role := s.round])
  }

  lemma StartKeeps(p: Pool, s: Session, run: LlmRun, stuck: set<Session>)
    requires OnlyCaches(p, s)
    ensures OnlyCaches(Start(p, s, run, stuck), s)
  {
  }

  lemma CloseRoleKeeps(p: Pool, s: Session, stuck: set<Session>)
    requires OnlyCaches(p, s)
    ensures PoolOk(CloseRole(p, s, stuck)) && CloseRole(p, s, stuck).cache == map[]
  {
  }

  lemma CloseRoundKeeps(p: Pool, s: Session, stuck: set<Session>)
    requires OnlyCaches(p, s)
    ensures PoolOk(CloseRound(p, s.round, stuck)) && CloseRound(p, s.round, stuck).cache == map[]
  {
  }

  lemma CloseAllKeeps(p: Pool, stuck: set<Session>)
    requires PoolOk(p)
    ensures PoolOk(CloseAll(p, stuck)) && CloseAll(p, stuck).cache == map[]
  {
  }
}
