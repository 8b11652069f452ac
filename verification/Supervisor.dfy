/**
 Desired execution and its reconciler: one pass leaves exactly the seats that are
 wanted, approved and backed, each at its stored revision; a pass over an already
 reconciled world starts and stops nothing.
 */
module Supervisor {
  import opened Wrappers
  import opened Tables
  import opened Ordering

  const MAX_PROFILE_ID_BYTES := 128
  const MAX_INSTRUCTIONS_BYTES := 32 * 1024
  const BACKEND_RESTART_BACKOFF := 5_000

  // ---- stored configurations ----------------------------------------------------------------

  datatype Desired = Running | Halted

  datatype Request = Request(profile: Text, instructions: Text, desired: Desired)

  datatype StoredSeat = StoredSeat(request: Request, revision: nat)

  predicate ProfileChar(c: char) {
    'a' <= c <= 'z' || 'A' <= c <= 'Z' || '0' <= c <= '9' || c in "._-"
  }

  predicate ValidRequest(r: Request) {
    && !Blank(r.profile) && |r.profile| <= MAX_PROFILE_ID_BYTES
    && (forall i | 0 <= i < |r.profile| :: ProfileChar(r.profile[i]))
    && |r.instructions| <= MAX_INSTRUCTIONS_BYTES
  }

  /** A later state of a row: the revision never falls, and tells whether the request changed. */
  predicate RevisionFences(a: StoredSeat, b: StoredSeat) {
    a.revision <= b.revision && (a.revision == b.revision ==> a.request == b.request)
  }

  class SeatConfigurations {
    var agents: set<Id>
    var rows: map<Id, StoredSeat>

    constructor (agents: set<Id>)
      ensures this.agents == agents && rows == map[]
    {
      this.agents, rows := agents, map[];
    }

    /** Creates or changes a seat; an exact repeat leaves its revision alone. */
    method Configure(agent: Id, r: Request) returns (error: Option<FleetError>)
      modifies this`rows
      ensures error.None? <==>
                && agent in agents && !Blank(r.profile) && |r.profile| <= 128 && |r.instructions| <= 32_768
                && forall i | 0 <= i < |r.profile| :: ProfileChar(r.profile[i])
      ensures error == Some(NotFound) ==> agent !in agents
      ensures error.Some? ==> rows == old(rows)
      ensures error.None? ==>
                && rows.Keys == old(rows).Keys + {agent} && rows[agent].request == r
                && (forall a | a in old(rows) && a != agent :: rows[a] == old(rows)[a])
                && (agent !in old(rows) ==> rows[agent].revision == 1)
                && (agent in old(rows) ==>
                      && RevisionFences(old(rows)[agent], rows[agent])
                      && rows[agent].revision <= old(rows)[agent].revision + 1
                      && (rows[agent].revision == old(rows)[agent].revision <==> r == old(rows)[agent].request))
    {
      if !ValidRequest(r) {
        return Some(Invalid);
      }
      if agent !in agents {
        return Some(NotFound);
      }
      if agent !in rows {
        rows := rows[agent := StoredSeat(r, 1)];
      } else if rows[agent].request != r {
        rows := rows[agent := StoredSeat(r, rows[agent].revision + 1)];
      }
      return None;
    }

    /** Advances the revision of a running seat. */
    method Restart(agent: Id) returns (error: Option<FleetError>)
      modifies this`rows
      ensures error.None? <==> agent in old(rows) && old(rows)[agent].request.desired.Running?
      ensures error.Some? ==> rows == old(rows)
      ensures error == Some(NotFound) <==> agent !in old(rows)
      ensures error.None? ==>
                rows == old(rows)[agent := old(rows)[agent].(revision := old(rows)[agent].revision + 1)]
    {
      if agent !in rows {
        return Some(NotFound);
      }
      if !rows[agent].request.desired.Running? {
        return Some(Conflict);
      }
      rows := rows[agent := rows[agent].(revision := rows[agent].revision + 1)];
      return None;
    }
  }

  // ---- the pure desired state ---------------------------------------------------------------------

  type BackendId = nat

  /** Approved profiles, each with the shared backend it needs, if any. */
  type Catalog = map<Text, Option<BackendId>>

  datatype Seat = Seat(request: Request, revision: nat, backend: Option<BackendId>)

  /**
   What the outside does during one pass. The clock is read whenever a backend has
   been dropped, is considered for a start, or has failed to start.
   */
  datatype World = World(
    dropped: BackendId -> Time, considered: BackendId -> Time, startFailed: BackendId -> Time, healthy: set<BackendId>,
    startable: set<BackendId>, finished: set<Id>, malformed: set<Id>)

  function DesiredBackends(rows: map<Id, StoredSeat>, catalog: Catalog): set<BackendId> {
    set a <- rows.Keys | rows[a].request.desired.Running? && rows[a].request.profile in catalog
                         && catalog[rows[a].request.profile].Some?
      :: catalog[rows[a].request.profile].value
  }

  /** Wanted, approved, and its backend (if it needs one) is up. */
  predicate Runnable(catalog: Catalog, backends: set<BackendId>, c: StoredSeat) {
    && c.request.desired.Running? && c.request.profile in catalog
    && (catalog[c.request.profile].Some? ==> catalog[c.request.profile].value in backends)
  }

  function SeatFor(catalog: Catalog, c: StoredSeat): Seat
    requires c.request.profile in catalog
  {
    Seat(c.request, c.revision, catalog[c.request.profile])
  }

  /** The seats that should run. */
  function DesiredSeats(rows: map<Id, StoredSeat>, catalog: Catalog, backends: set<BackendId>): map<Id, Seat> {
    map a <- rows | Runnable(catalog, backends, rows[a]) :: SeatFor(catalog, rows[a])
  }

  predicate RestartDue(retryAfter: map<BackendId, Time>, b: BackendId, now: Time) {
    b in retryAfter ==> retryAfter[b] <= now
  }

  /** When a backend that is down, or is about to be dropped, may be started again. */
  function Deferred(backends: set<BackendId>, retryAfter: map<BackendId, Time>, w: World, b: BackendId): Option<Time> {
    if b in backends then Some(w.dropped(b) + BACKEND_RESTART_BACKOFF)
    else if b in retryAfter then Some(retryAfter[b]) else None
  }

  /** The backends that should be up after a pass. */
  function NextBackends(backends: set<BackendId>, retryAfter: map<BackendId, Time>, desired: set<BackendId>, w: World)
    : set<BackendId>
  {
    set b <- desired |
      || (b in backends && b in w.healthy)
      || (b in w.startable && var due := Deferred(backends, retryAfter, w, b); due.Some? ==> due.value <= w.considered(b))
  }

  /** The backends a pass drops. */
  function Unhealthy(backends: set<BackendId>, desired: set<BackendId>, w: World): set<BackendId> {
    (backends * desired) - w.healthy
  }

  predicate Uses(seat: Seat, backends: set<BackendId>) {
    seat.backend.Some? && seat.backend.value in backends
  }

  /** The seats that are left when some backends are dropped. */
  function Without(seats: map<Id, Seat>, gone: set<BackendId>): map<Id, Seat> {
    map a <- seats | !Uses(seats[a], gone) :: seats[a]
  }

  /** The backends a pass tries to start. */
  function Tried(backends: set<BackendId>, retryAfter: map<BackendId, Time>, desired: set<BackendId>, w: World)
    : set<BackendId>
  {
    set b <- desired | b !in backends && RestartDue(retryAfter, b, w.considered(b))
  }

  /** The seat can neither be kept nor be started: its profile does not yield a worker. */
  predicate Refused(catalog: Catalog, backends: set<BackendId>, seats: map<Id, Seat>, agent: Id, c: StoredSeat, w: World) {
    && Runnable(catalog, backends, c) && agent in w.malformed
    && !(&& agent in seats && seats[agent].revision == c.revision && seats[agent].backend == catalog[c.request.profile]
         && agent !in w.finished)
  }

  // ---- the reconciler ---------------------------------------------------------------------------------

  datatype Effect = StartSeat(agent: Id) | StopSeat(agent: Id) | StartBackend(id: BackendId) | StopBackend(id: BackendId)

  class Reconciler {
    const catalog: Catalog
    var running: map<Id, Seat>
    var backends: set<BackendId>
    var retryAfter: map<BackendId, Time>
    var unresolved: set<(Id, Text)>
    var effects: seq<Effect>

    constructor (catalog: Catalog)
      ensures this.catalog == catalog && running == map[] && backends == {} && effects == []
    {
      this.catalog := catalog;
      running, backends, retryAfter, unresolved, effects := map[], {}, map[], {}, [];
    }

    method Stop(agent: Id)
      modifies this`running, this`effects
      ensures running == old(running) - {agent}
      ensures agent !in old(running) ==> effects == old(effects)
    {
      if agent in running {
        running := running - {agent};
        effects := effects + [StopSeat(agent)];
      }
    }

    /** Stops every seat of a set, in some order. */
    method StopAll(agents: set<Id>)
      modifies this`running, this`effects
      ensures running == old(running) - agents
      ensures agents !! old(running).Keys ==> effects == old(effects)
    {
      var left := agents;
      while left != {}
        invariant left <= agents && running == old(running) - (agents - left)
        invariant agents !! old(running).Keys ==> effects == old(effects)
        decreases left
      {
        var a :| a in left;
        Stop(a);
        left := left - {a};
      }
    }

    /** Drops desired backends that became unhealthy, with the seats that used them, and defers their restart. */
    method DropUnhealthy(desired: set<BackendId>, w: World)
      modifies this`running, this`backends, this`retryAfter, this`effects
      ensures var gone := Unhealthy(old(backends), desired, w);
              && backends == old(backends) - gone && running == Without(old(running), gone)
              && retryAfter.Keys == old(retryAfter).Keys + gone
              && (forall b | b in retryAfter ::
                    retryAfter[b] == if b in gone then w.dropped(b) + BACKEND_RESTART_BACKOFF else old(retryAfter)[b])
              && (gone == {} ==> effects == old(effects))
    {
      var failed := Unhealthy(backends, desired, w);
      var left := failed;
      while left != {}
        invariant left <= failed && backends == old(backends) - (failed - left)
        invariant running == Without(old(running), failed - left)
        invariant retryAfter.Keys == old(retryAfter).Keys + (failed - left)
        invariant forall b | b in retryAfter ::
                    retryAfter[b] == if b in failed - left then w.dropped(b) + BACKEND_RESTART_BACKOFF else old(retryAfter)[b]
        invariant failed == {} ==> effects == old(effects)
        decreases left
      {
        var b :| b in left;
        var users := set a <- running.Keys | running[a].backend == Some(b);
        StopAll(users);
        backends := backends - {b};
        effects := effects + [StopBackend(b)];
        retryAfter := retryAfter[b := w.dropped(b) + BACKEND_RESTART_BACKOFF];
        left := left - {b};
      }
    }

    /** Starts desired backends that are down and whose back-off is over; a failed start is deferred again. */
    method StartMissing(desired: set<BackendId>, w: World)
      modifies this`backends, this`retryAfter, this`effects
      ensures var tried := Tried(old(backends), old(retryAfter), desired, w);
              && backends == old(backends) + tried * w.startable
              && retryAfter.Keys == (old(retryAfter).Keys + tried) - tried * w.startable
              && (forall b | b in retryAfter ::
                    retryAfter[b] == if b in tried then w.startFailed(b) + BACKEND_RESTART_BACKOFF else old(retryAfter)[b])
              && (tried == {} ==> effects == old(effects))
    {
      ghost var tried := Tried(backends, retryAfter, desired, w);
      var left := desired;
      while left != {}
        invariant left <= desired && backends == old(backends) + (tried - left) * w.startable
        invariant retryAfter.Keys == (old(retryAfter).Keys + (tried - left)) - (tried - left) * w.startable
        invariant forall b | b in retryAfter ::
                    retryAfter[b] == if b in tried - left then w.startFailed(b) + BACKEND_RESTART_BACKOFF
                                     else old(retryAfter)[b]
        invariant tried == {} ==> effects == old(effects)
        decreases left
      {
        var b :| b in left;
        left := left - {b};
        if b !in backends && RestartDue(retryAfter, b, w.considered(b)) {
          effects := effects + [StartBackend(b)];
          if b in w.startable {
            backends := backends + {b};
            retryAfter := retryAfter - {b};
          } else {
            retryAfter := retryAfter[b := w.startFailed(b) + BACKEND_RESTART_BACKOFF];
          }
        }
      }
    }

    /** Drops unhealthy backends and starts missing ones; undesired ones stay up until the seats are settled. */
    method ReconcileBackends(desired: set<BackendId>, w: World)
      modifies this`running, this`backends, this`retryAfter, this`effects
      ensures backends * desired == NextBackends(old(backends), old(retryAfter), desired, w)
      ensures running == Without(old(running), Unhealthy(old(backends), desired, w))
      ensures old(backends) <= desired && old(backends) <= w.healthy
              && (forall b | b in desired :: b in old(backends) || !RestartDue(old(retryAfter), b, w.considered(b))) ==>
                running == old(running) && backends == old(backends) && effects == old(effects)
    {
      DropUnhealthy(desired, w);
      StartMissing(desired, w);
    }

    /** Brings one configured seat to its desired state. */
    method ReconcileSeat(agent: Id, c: StoredSeat, w: World) returns (ok: bool)
      requires agent in running ==> Fenced(running[agent], c)
      modifies this`running, this`unresolved, this`effects
      ensures forall a | a != agent :: a in running <==> a in old(running)
      ensures forall a | a != agent && a in running :: running[a] == old(running)[a]
      ensures ok ==> (agent in running <==> Runnable(catalog, backends, c))
      ensures ok && agent in running ==> running[agent] == SeatFor(catalog, c)
      ensures ok <==> !Refused(catalog, backends, old(running), agent, c, w)
      ensures !ok ==> agent !in running
      ensures Settled(old(running), agent, c, w) ==> ok && running == old(running) && effects == old(effects)
    {
      if c.request.desired.Halted? {
        Stop(agent);
        return true;
      }
      if c.request.profile !in catalog {
        Stop(agent);
        unresolved := unresolved + {(agent, c.request.profile)};
        return true;
      }
      unresolved := unresolved - {(agent, c.request.profile)};
      var backend := catalog[c.request.profile];
      if backend.Some? && backend.value !in backends {
        Stop(agent);
        return true;
      }
      if agent in running && running[agent].revision == c.revision && running[agent].backend == backend
         && agent !in w.finished {
        return true;
      }
      Stop(agent);
      if agent in w.malformed {
        return false;
      }
      running := running[agent := SeatFor(catalog, c)];
      effects := effects + [StartSeat(agent)];
      return true;
    }

    /** The seat is already what it should be, and its task is alive. */
    predicate Settled(seats: map<Id, Seat>, agent: Id, c: StoredSeat, w: World)
      reads this`backends
    {
      if Runnable(catalog, backends, c)
      then agent in seats && seats[agent] == SeatFor(catalog, c) && agent !in w.finished
      else agent !in seats
    }

    /** Brings the listed seats to their desired state, one after the other. */
    method ReconcileListed(agents: seq<Id>, rows: map<Id, StoredSeat>, w: World) returns (ok: bool)
      requires forall x | 0 <= x < |agents| :: agents[x] in rows
      requires forall x, y | 0 <= x < y < |agents| :: agents[x] != agents[y]
      requires forall a | a in running && a in rows :: Fenced(running[a], rows[a])
      modifies this`running, this`unresolved, this`effects
      ensures ok ==> forall x | 0 <= x < |agents| :: Placed(rows, agents[x])
      ensures forall a | a in running :: a in old(running) || a in agents
      ensures ok <==> forall x | 0 <= x < |agents| :: !Refused(catalog, backends, old(running), agents[x], rows[agents[x]], w)
      ensures !ok ==> exists a :: Missing(rows, a, w)
      ensures (forall x | 0 <= x < |agents| :: Settled(old(running), agents[x], rows[agents[x]], w)) ==>
                ok && running == old(running) && effects == old(effects)
    {
      var n := 0;
      ok := true;
      while n < |agents|
        invariant 0 <= n <= |agents| && ok
        invariant forall a | a in running :: a in old(running) || a in agents
        invariant forall x | n <= x < |agents| :: Same(old(running), running, agents[x])
        invariant forall x | 0 <= x < n :: Placed(rows, agents[x])
        invariant forall x | 0 <= x < n :: !Refused(catalog, backends, old(running), agents[x], rows[agents[x]], w)
        invariant (forall x | 0 <= x < |agents| :: Settled(old(running), agents[x], rows[agents[x]], w)) ==>
                    running == old(running) && effects == old(effects)
      {
        ghost var prior := running;
        ok := ReconcileSeat(agents[n], rows[agents[n]], w);
        if !ok {
          assert Missing(rows, agents[n], w);
          return;
        }
        n := n + 1;
      }
    }

    /** A seat that should run was not started, because its profile does not yield a worker. */
    predicate Missing(rows: map<Id, StoredSeat>, a: Id, w: World)
      reads this`running, this`backends
    {
      a in rows && Runnable(catalog, backends, rows[a]) && a in w.malformed && a !in running
    }

    /** Brings every configured seat to its desired state, in agent order; fails on a malformed profile. */
    method ReconcileSeats(rows: map<Id, StoredSeat>, w: World) returns (ok: bool)
      requires forall a | a in running && a in rows :: Fenced(running[a], rows[a])
      modifies this`running, this`unresolved, this`effects
      ensures ok ==> running == DesiredSeats(rows, catalog, backends)
      ensures ok <==> forall a | a in rows :: !Refused(catalog, backends, old(running), a, rows[a], w)
      ensures !ok ==> exists a :: Missing(rows, a, w)
      ensures old(running) == DesiredSeats(rows, catalog, backends) && old(running).Keys !! w.finished ==>
                ok && effects == old(effects)
    {
      StopAll(running.Keys - rows.Keys);
      var agents := SortRows(rows.Keys, Unkeyed(rows.Keys));
      ListedOnce(agents, rows.Keys);
      ok := ReconcileListed(agents, rows, w);
      if ok {
        forall a | a in rows
          ensures Placed(rows, a)
        {
          var x :| 0 <= x < |agents| && agents[x] == a;
        }
        PlacedIsDesired(running, rows, catalog, backends);
      }
    }

    /** The seat of this agent is as desired. */
    predicate Placed(rows: map<Id, StoredSeat>, a: Id)
      reads this`running, this`backends
    {
      a in rows ==>
        && (a in running <==> Runnable(catalog, backends, rows[a]))
        && (a in running ==> running[a] == SeatFor(catalog, rows[a]))
    }

    method StopUnused(desired: set<BackendId>)
      modifies this`backends, this`retryAfter, this`effects
      ensures backends == old(backends) * desired && retryAfter == old(retryAfter) - (old(backends) - desired)
      ensures old(backends) <= desired ==> effects == old(effects)
    {
      var left := backends - desired;
      while left != {}
        invariant left <= old(backends) - desired && backends == old(backends) - ((old(backends) - desired) - left)
        invariant retryAfter == old(retryAfter) - ((old(backends) - desired) - left)
        invariant old(backends) <= desired ==> effects == old(effects)
        decreases left
      {
        var b :| b in left;
        left := left - {b};
        backends := backends - {b};
        effects := effects + [StopBackend(b)];
        retryAfter := retryAfter - {b};
      }
    }

    /**
     One reconciliation pass. On success the running seats are exactly the desired
     ones, every seat's backend is up, and the backends are exactly those desired
     that are healthy or could be started; a pass over a reconciled, healthy world
     with no restart due has no effect.
     */
    method Reconcile(rows: map<Id, StoredSeat>, w: World) returns (ok: bool)
      requires forall a | a in running && a in rows :: Fenced(running[a], rows[a])
      modifies this
      ensures ok ==>
                && backends == NextBackends(old(backends), old(retryAfter), DesiredBackends(rows, catalog), w)
                && running == DesiredSeats(rows, catalog, backends)
                && forall a | a in running && running[a].backend.Some? :: running[a].backend.value in backends
      ensures ok <==> old(Succeeds(rows, w))
      ensures !ok ==> exists a :: Missing(rows, a, w)
      ensures old(Reconciled(rows, w)) ==> ok && effects == old(effects) && running == old(running) && backends == old(backends)
    {
      var desired := DesiredBackends(rows, catalog);
      ReconcileBackends(desired, w);
      ghost var up := backends;
      UndesiredIrrelevant(rows, catalog, up);
      ok := ReconcileSeats(rows, w);
      if !ok {
        return;
      }
      StopUnused(desired);
    }

    /** No seat that a pass has to start is refused. */
    predicate Succeeds(rows: map<Id, StoredSeat>, w: World)
      reads this
    {
      var desired := DesiredBackends(rows, catalog);
      var up := NextBackends(backends, retryAfter, desired, w);
      var seats := Without(running, Unhealthy(backends, desired, w));
      forall a | a in rows :: !Refused(catalog, up, seats, a, rows[a], w)
    }

    /** Everything desired runs, everything that runs is healthy and alive, and no restart is due. */
    predicate Reconciled(rows: map<Id, StoredSeat>, w: World)
      reads this
    {
      && running == DesiredSeats(rows, catalog, backends) && running.Keys !! w.finished
      && backends <= DesiredBackends(rows, catalog) && backends <= w.healthy
      && forall b | b in DesiredBackends(rows, catalog) :: b in backends || !RestartDue(retryAfter, b, w.considered(b))
    }
  }

  /** The agent has the same seat, or none, in both. */
  predicate Same(before: map<Id, Seat>, after: map<Id, Seat>, a: Id) {
    (a in before <==> a in after) && (a in before ==> after[a] == before[a])
  }

  lemma PlacedIsDesired(running: map<Id, Seat>, rows: map<Id, StoredSeat>, catalog: Catalog, backends: set<BackendId>)
    requires forall a | a in running :: a in rows
    requires forall a | a in rows :: a in running <==> Runnable(catalog, backends, rows[a])
    requires forall a | a in running :: rows[a].request.profile in catalog && running[a] == SeatFor(catalog, rows[a])
    ensures running == DesiredSeats(rows, catalog, backends)
  {
  }

  lemma ListedOnce(r: seq<Id>, s: set<Id>)
    requires Listing(r, s, Unkeyed(s))
    ensures forall a :: a in r <==> a in s
    ensures forall x, y | 0 <= x < y < |r| :: r[x] != r[y]
  {
    forall a
      ensures a in r <==> a in s
    {
      assert Listed(r, a) <==> a in s;
    }
    forall x, y | 0 <= x < y < |r|
      ensures r[x] != r[y]
    {
      assert InOrder(r, Unkeyed(s), x, y);
    }
  }

  /** A seat belongs to an earlier or the present revision of the row, and the revision tells which. */
  predicate Fenced(seat: Seat, c: StoredSeat) {
    seat.revision <= c.revision && (seat.revision == c.revision ==> seat.request == c.request)
  }

  /** Backends nobody needs do not decide which seats run. */
  lemma UndesiredIrrelevant(rows: map<Id, StoredSeat>, catalog: Catalog, up: set<BackendId>)
    ensures forall a | a in rows ::
              Runnable(catalog, up, rows[a]) <==> Runnable(catalog, up * DesiredBackends(rows, catalog), rows[a])
    ensures DesiredSeats(rows, catalog, up) == DesiredSeats(rows, catalog, up * DesiredBackends(rows, catalog))
  {
    forall a | a in rows
      ensures Runnable(catalog, up, rows[a]) <==> Runnable(catalog, up * DesiredBackends(rows, catalog), rows[a])
    {
    }
  }

  // ---- operators and the supervisor over time ---------------------------------------------------------------

  datatype Operation = ConfigureSeat(agent: Id, request: Request) | RestartSeat(agent: Id) | Pass(world: World)

  /** Every running seat was started from some revision of its row. */
  ghost predicate AllFenced(running: map<Id, Seat>, rows: map<Id, StoredSeat>) {
    forall a | a in running :: a in rows && Fenced(running[a], rows[a])
  }

  lemma FencedAfterPass(rows: map<Id, StoredSeat>, catalog: Catalog, up: set<BackendId>)
    ensures AllFenced(DesiredSeats(rows, catalog, up), rows)
  {
  }

  /**
   Operators change configurations and the supervisor reconciles, in any order. A
   revision always tells which request a running seat was started from, so after
   every pass the seats run exactly what is stored. The supervisor gives up only in
   a pass that finds a seat it should start and cannot.
   */
  method Supervise(table: SeatConfigurations, r: Reconciler, operations: seq<Operation>) returns (ok: bool)
    requires AllFenced(r.running, table.rows)
    modifies table, r
    ensures ok ==> AllFenced(r.running, table.rows)
    ensures ok && operations != [] && operations[|operations| - 1].Pass? ==>
              r.running == DesiredSeats(table.rows, r.catalog, r.backends)
    ensures !ok ==> exists n, a :: 0 <= n < |operations| && operations[n].Pass? && r.Missing(table.rows, a, operations[n].world)
  {
    ok := true;
    var n := 0;
    while n < |operations|
      invariant 0 <= n <= |operations| && AllFenced(r.running, table.rows) && ok
      invariant n > 0 && operations[n - 1].Pass? ==> r.running == DesiredSeats(table.rows, r.catalog, r.backends)
    {
      match operations[n] {
        case ConfigureSeat(agent, request) =>
          var error := table.Configure(agent, request);
        case RestartSeat(agent) =>
          var error := table.Restart(agent);
        case Pass(world) =>
          ok := r.Reconcile(table.rows, world);
          if !ok {
            return;
          }
          FencedAfterPass(table.rows, r.catalog, r.backends);
      }
      n := n + 1;
    }
  }
}
