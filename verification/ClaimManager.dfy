/**
  The instance repository and the claim manager as the objects they are. A method that runs
  undisturbed is one particular interleaving of the protocol of module WarmPool, and its
  contract names the steps. Whether a store answers is an input.
 */
module ClaimManagers {
  import opened WarmPool
  import opened Wrappers

  const NO_ROWS := "no rows in result set"

  /** The text of the error that scanning a row reports. */
  function ScanError(err: string): string { "scan agent instance: " + err }

  predicate IsNoRows(err: string) { err == NO_ROWS }

  /** The no-rows test never recognises an error of a row scan: it compares the bare text with a
      text that carries a prefix. An empty pool therefore surfaces as an error, not as nothing. */
  lemma ScanErrorIsNeverNoRows(err: string)
    ensures !IsNoRows(ScanError(err))
  {
    assert ScanError(err)[0] == 's' && NO_ROWS[0] == 'n';
  }

  datatype ClaimReply = Got(id: InstanceId, pod: PodName) | Nothing | Failed(error: string)

  class AgentRepo {
    var rows: map<InstanceId, Row>

    constructor ()
      ensures rows == map[]
    {
      rows := map[];
    }

    /** Of the given rows, one with the most recent heartbeat. */
    method Freshest(candidates: set<InstanceId>) returns (best: InstanceId)
      requires candidates != {} && candidates <= rows.Keys
      ensures best in candidates
      ensures forall i :: i in candidates ==> rows[i].lastHeartbeat <= rows[best].lastHeartbeat
    {
      best :| best in candidates;
      var todo := candidates - {best};
      while todo != {}
        invariant todo <= candidates && best in candidates
        invariant forall i :: i in candidates && i !in todo ==> rows[i].lastHeartbeat <= rows[best].lastHeartbeat
        decreases todo
      {
        var i :| i in todo;
        if rows[i].lastHeartbeat > rows[best].lastHeartbeat {
          best := i;
        }
        todo := todo - {i};
      }
    }

    method ClaimInstance(tenant: TenantId, profile: ProfileId, locked: set<InstanceId>, dbOk: bool, now: int)
      returns (r: ClaimReply)
      modifies this
      ensures r.Got? <==> dbOk && exists i :: Claimable(old(rows), tenant, profile, i) && i !in locked
      ensures r.Got? ==> Picks(old(rows), tenant, profile, locked, r.id) && r.pod == old(rows)[r.id].pod
      ensures rows == if r.Got? then old(rows)[r.id := Claimed(old(rows)[r.id], now)] else old(rows)
      ensures r.Got? ==>
                var was, row := old(rows)[r.id], rows[r.id];
                && was.phase == Warm && was.tenant == tenant && was.profile == Some(profile) && r.id !in locked
                && row.phase == Active && row.claimedAt == Some(now) && row.lastHeartbeat == was.lastHeartbeat
      ensures dbOk && !r.Got? ==>
                forall i :: i in rows && i !in locked && rows[i].tenant == tenant && rows[i].phase == Warm ==>
                  rows[i].profile != Some(profile)
      ensures r.Got? ==>
                var was := old(rows);
                forall i :: i in was && i !in locked && was[i].tenant == tenant && was[i].phase == Warm ==>
                  was[i].profile == Some(profile) ==> was[i].lastHeartbeat <= was[r.id].lastHeartbeat
    {
      if !dbOk {
        return Failed("database unavailable");
      }
      var candidates := set i | i in rows && Claimable(rows, tenant, profile, i) && i !in locked;
      if candidates == {} {
        var err := ScanError(NO_ROWS);
        forall i | Claimable(rows, tenant, profile, i) ensures i in locked {
          assert i !in candidates;
        }
        return if IsNoRows(err) then Nothing else Failed(err);
      }
      var id := Freshest(candidates);
      rows := rows[id := Claimed(rows[id], now)];
      return Got(id, rows[id].pod);
    }

    method ReleaseInstance(id: InstanceId, dbOk: bool, now: int) returns (ok: bool)
      modifies this
      ensures ok == dbOk
      ensures rows == if dbOk && id in old(rows) then old(rows)[id := Released(old(rows)[id], now)] else old(rows)
      ensures dbOk && id in old(rows) ==>
                && rows[id].phase == Warm && rows[id].releasedAt == Some(now) && rows[id].claimedAt == None
                && rows[id].lastHeartbeat == old(rows)[id].lastHeartbeat && rows[id].pod == old(rows)[id].pod
    {
      if dbOk && id in rows {
        rows := rows[id := Released(rows[id], now)];
      }
      ok := dbOk;
    }

    method GetInstanceByPodName(pod: PodName, dbOk: bool) returns (id: Option<InstanceId>)
      ensures id.Some? ==> HasPod(rows, pod, id.value) && id.value in rows && rows[id.value].pod == pod
      ensures dbOk && id.None? ==> forall i :: !HasPod(rows, pod, i)
      ensures dbOk && id.None? ==> forall i :: i in rows ==> rows[i].pod != pod
    {
      var named := set i | i in rows && HasPod(rows, pod, i);
      if !dbOk || named == {} {
        forall i | i in rows && rows[i].pod == pod ensures i in named {
          assert HasPod(rows, pod, i);
        }
        return None;
      }
      var i :| i in named;
      return Some(i);
    }

    /** The heartbeat of a pod: an upsert that never takes a claimed row out of its claim. A row it
        inserts gets a new id. */
    method UpsertInstanceByPodName(tenant: TenantId, profile: Option<ProfileId>, pod: PodName, newId: InstanceId,
        dbOk: bool, now: int)
      returns (id: Option<InstanceId>)
      requires newId !in rows
      modifies this
      ensures id.Some? <==> dbOk
      ensures id.None? ==> rows == old(rows)
      ensures id.Some? ==> HasPod(rows, pod, id.value)
      ensures id.Some? ==>
              if exists i :: HasPod(old(rows), pod, i)
              then HasPod(old(rows), pod, id.value) && rows == old(rows)[id.value := Beaten(old(rows)[id.value], now)]
              else id.value == newId && rows == old(rows)[newId := Row(tenant, profile, pod, Warm, None, None, now)]
      ensures id.Some? ==> id.value in rows && rows[id.value].pod == pod && rows[id.value].lastHeartbeat == now
      ensures id.Some? && id.value in old(rows) ==>
                && rows[id.value].phase == (if old(rows)[id.value].phase == Active then Active else Warm)
                && rows[id.value] == old(rows)[id.value].(lastHeartbeat := now, phase := rows[id.value].phase)
    {
      if !dbOk {
        return None;
      }
      var found := GetInstanceByPodName(pod, true);
      if found.Some? {
        rows := rows[found.value := Beaten(rows[found.value], now)];
        return found;
      }
      rows := rows[newId := Row(tenant, profile, pod, Warm, None, None, now)];
      return Some(newId);
    }
  }

  /** A heartbeat message as parsed; an empty field is missing. */
  datatype Beat = Beat(tenant: Option<TenantId>, pod: Option<PodName>)

  class InstanceSyncer {
    const repo: AgentRepo

    constructor (repo: AgentRepo)
      ensures this.repo == repo
    {
      this.repo := repo;
    }

    /** A message that does not parse or lacks its pod or tenant changes nothing; any other is one
        Heartbeat step of the protocol. */
    method HandleHeartbeat(msg: Option<Beat>, profile: Option<ProfileId>, newId: InstanceId, dbOk: bool, now: int,
        ghost s: State)
      returns (ghost id: InstanceId)
      requires newId !in repo.rows && s.rows == repo.rows
      modifies repo
      ensures msg.None? || msg.value.tenant.None? || msg.value.pod.None? || !dbOk ==> repo.rows == old(repo.rows)
      ensures msg.Some? && msg.value.tenant.Some? && msg.value.pod.Some? && dbOk ==>
                var l := Heartbeat(msg.value.tenant.value, profile, msg.value.pod.value, id, now);
                && Enabled(s, l) && Disciplined(s, l) && Next(s, l) == s.(rows := repo.rows)
                && id in repo.rows && repo.rows[id].pod == msg.value.pod.value && repo.rows[id].lastHeartbeat == now
                && (id in old(repo.rows) && old(repo.rows)[id].phase == Active <==> repo.rows[id].phase == Active)
    {
      id := newId;
      if msg.None? || msg.value.tenant.None? || msg.value.pod.None? {
        return;
      }
      var r := repo.UpsertInstanceByPodName(msg.value.tenant.value, profile, msg.value.pod.value, newId, dbOk, now);
      if r.Some? {
        id := r.value;
      }
    }
  }

  /** The routing table as the claim manager sees it: a call may go unanswered. */
  class Routes {
    var table: map<ConvId, InstanceId>

    constructor ()
      ensures table == map[]
    {
      table := map[];
    }

    method Get(c: ConvId, ok: bool) returns (i: Option<InstanceId>)
      ensures i == if ok && c in table then Some(table[c]) else None
    {
      i := if ok && c in table then Some(table[c]) else None;
    }

    method Set(c: ConvId, i: InstanceId, ok: bool)
      modifies this
      ensures table == if ok then old(table)[c := i] else old(table)
    {
      if ok {
        table := table[c := i];
      }
    }

    method Delete(c: ConvId, ok: bool)
      modifies this
      ensures table == if ok then old(table) - {c} else old(table)
    {
      if ok {
        table := table - {c};
      }
    }
  }

  datatype ClaimResult =
    | Hit(id: InstanceId)
    | Fresh(id: InstanceId, pod: PodName)
    | Unavailable
    | ClaimFailed(error: string)

  /** Which of the stores answer during one operation. */
  datatype Answers = Answers(read: bool, db: bool, write: bool)

  class ClaimManager {
    const repo: AgentRepo
    const route: Routes
    var active: int  // the ActiveInstances gauge
    ghost var owner: map<InstanceId, ConvId>
    ghost const tenantOf: map<ConvId, TenantId>

    constructor (repo: AgentRepo, route: Routes, ghost tenantOf: map<ConvId, TenantId>)
      ensures this.repo == repo && this.route == route && active == 0 && owner == map[] && this.tenantOf == tenantOf
    {
      this.repo, this.route, this.tenantOf := repo, route, tenantOf;
      active, owner := 0, map[];
    }

    /** The protocol state with nothing in flight. */
    ghost function Snapshot(): State
      reads this, repo, route
    {
      State(repo.rows, route.table, active, map[], owner, tenantOf)
    }

    method EnsureInstance(conv: ConvId, tenant: TenantId, profile: ProfileId, locked: set<InstanceId>, a: Answers,
        now: int)
      returns (r: ClaimResult, ghost steps: seq<Label>)
      modifies this`active, this`owner, repo, route
      ensures Possible(old(Snapshot()), steps) && Snapshot() == Run(old(Snapshot()), steps)
      ensures conv in tenantOf && tenantOf[conv] == tenant ==> AllDisciplined(old(Snapshot()), steps)
      ensures a.read && conv in old(route.table) <==> r.Hit?
      ensures r.Hit? ==> r.id == old(route.table)[conv]
      ensures r.Fresh? <==> !r.Hit? && a.db && exists i :: Claimable(old(repo.rows), tenant, profile, i) && i !in locked
      ensures r.Fresh? ==>
                && Picks(old(repo.rows), tenant, profile, locked, r.id) && r.pod == old(repo.rows)[r.id].pod
                && repo.rows == old(repo.rows)[r.id := Claimed(old(repo.rows)[r.id], now)]
                && route.table == (if a.write then old(route.table)[conv := r.id] else old(route.table))
                && active == old(active) + 1
      ensures !r.Fresh? ==> Snapshot() == old(Snapshot())
    {
      var cached := route.Get(conv, a.read);
      ghost var s := Snapshot();
      if cached.Some? {
        steps := [EnsureLookup(0, conv, tenant, profile, a.read)];
        OneStep(s, steps[0]);
        return Hit(cached.value), steps;
      }
      var claim := repo.ClaimInstance(tenant, profile, locked, a.db, now);
      match claim {
        case Failed(err) =>
          steps := MissTrace(s, conv, tenant, profile, a.read, locked, now);
          r := ClaimFailed(err);
        case Nothing =>
          steps := MissTrace(s, conv, tenant, profile, a.read, locked, now);
          r := Unavailable;
        case Got(id, pod) =>
          route.Set(conv, id, a.write);
          active, owner := active + 1, owner[id := conv];
          steps := ClaimTrace(s, conv, tenant, profile, a.read, id, locked, a.write, now);
          r := Fresh(id, pod);
      }
    }

    /** The result says whether Release reports an error. */
    method Release(conv: ConvId, readOk: bool, deleteOk: bool, dbOk: bool, now: int)
      returns (ok: bool, ghost steps: seq<Label>)
      modifies this`active, this`owner, repo, route
      ensures Possible(old(Snapshot()), steps) && Snapshot() == Run(old(Snapshot()), steps)
      ensures deleteOk ==> AllDisciplined(old(Snapshot()), steps)
      ensures !(readOk && conv in old(route.table)) ==> ok && Snapshot() == old(Snapshot())
      ensures readOk && conv in old(route.table) ==>
                var i := old(route.table)[conv];
                && ok == dbOk
                && route.table == (if deleteOk then old(route.table) - {conv} else old(route.table))
                && active == (if dbOk then old(active) - 1 else old(active))
                && (dbOk && i in old(repo.rows) ==> repo.rows == old(repo.rows)[i := Released(old(repo.rows)[i], now)])
                && (!dbOk || i !in old(repo.rows) ==> repo.rows == old(repo.rows))
    {
      ghost var s := Snapshot();
      var found := route.Get(conv, readOk);
      if found.None? {
        steps := [ReleaseLookup(0, conv, readOk)];
        OneStep(s, steps[0]);
        return true, steps;
      }
      route.Delete(conv, deleteOk);
      ok := repo.ReleaseInstance(found.value, dbOk, now);
      steps := ReleaseTrace(s, conv, deleteOk, dbOk, now);
      if ok {
        active := active - 1;
        owner := owner - {found.value};
      }
    }

    method ActiveInstance(conv: ConvId, readOk: bool) returns (i: Option<InstanceId>)
      ensures i == if readOk && conv in route.table then Some(route.table[conv]) else None
    {
      i := route.Get(conv, readOk);
    }

    /** The last step of an announcement; the row of the instance is not looked at. */
    method SetActiveInstance(conv: ConvId, i: InstanceId, writeOk: bool)
      modifies route
      ensures var s := old(Snapshot()).(threads := map[0 := Announcing(conv, i)]);
              Snapshot() == Next(s, AnnounceSet(0, writeOk))
      ensures route.table == if writeOk then old(route.table)[conv := i] else old(route.table)
    {
      route.Set(conv, i, writeOk);
    }

    /** Drops the route and leaves the row claimed. */
    method ClearActiveInstance(conv: ConvId, deleteOk: bool)
      modifies route
      ensures Snapshot() == if deleteOk then Next(old(Snapshot()), Clear(conv)) else old(Snapshot())
      ensures route.table == if deleteOk then old(route.table) - {conv} else old(route.table)
    {
      route.Delete(conv, deleteOk);
    }
  }

  // ---------- The interleavings of the undisturbed operations ----------

  lemma MissTrace(s: State, c: ConvId, tenant: TenantId, profile: ProfileId, readOk: bool, locked: set<InstanceId>,
      now: int)
    returns (ls: seq<Label>)
    requires s.threads == map[] && !(readOk && c in s.route)
    ensures Possible(s, ls) && Run(s, ls) == s
    ensures c in s.tenantOf && s.tenantOf[c] == tenant ==> AllDisciplined(s, ls)
  {
    var l0, l1 := EnsureLookup(0, c, tenant, profile, readOk), EnsureClaim(0, None, locked, now);
    OneStep(Next(s, l0), l1);
    Prepend(s, l0, [l1]);
    ls := [l0] + [l1];
    assert Next(Next(s, l0), l1).threads == map[];
  }

  lemma RouteTrace(s: State, c: ConvId, i: InstanceId, writeOk: bool) returns (ls: seq<Label>)
    requires s.threads == map[0 := Routing(c, i)]
    ensures Possible(s, ls) && AllDisciplined(s, ls)
    ensures Run(s, ls) == s.(route := if writeOk then s.route[c := i] else s.route, gauge := s.gauge + 1,
                             threads := map[])
  {
    var l := EnsureSet(0, writeOk);
    var s' := Next(s, l);
    OneStep(s', EnsureCount(0));
    Prepend(s, l, [EnsureCount(0)]);
    ls := [l] + [EnsureCount(0)];
    assert Next(s', EnsureCount(0)).threads == map[];
  }

  lemma ClaimTrace(s: State, c: ConvId, tenant: TenantId, profile: ProfileId, readOk: bool, i: InstanceId,
      locked: set<InstanceId>, writeOk: bool, now: int)
    returns (ls: seq<Label>)
    requires s.threads == map[] && !(readOk && c in s.route) && Picks(s.rows, tenant, profile, locked, i)
    ensures Possible(s, ls)
    ensures c in s.tenantOf && s.tenantOf[c] == tenant ==> AllDisciplined(s, ls)
    ensures Run(s, ls) == s.(rows := s.rows[i := Claimed(s.rows[i], now)], owner := s.owner[i := c],
                             route := if writeOk then s.route[c := i] else s.route, gauge := s.gauge + 1)
  {
    var l0, l1 := EnsureLookup(0, c, tenant, profile, readOk), EnsureClaim(0, Some(i), locked, now);
    var s1 := Next(s, l0);
    var s2 := Next(s1, l1);
    assert s2.threads == map[0 := Routing(c, i)];
    var rest := RouteTrace(s2, c, i, writeOk);
    Prepend(s1, l1, rest);
    Prepend(s, l0, [l1] + rest);
    ls := [l0] + ([l1] + rest);
  }

  lemma UpdateTrace(s: State, c: ConvId, i: InstanceId, dbOk: bool, now: int) returns (ls: seq<Label>)
    requires s.threads == map[0 := Releasing(c, i)]
    ensures Possible(s, ls) && AllDisciplined(s, ls)
    ensures Run(s, ls) == s.(rows := if dbOk && i in s.rows then s.rows[i := Released(s.rows[i], now)] else s.rows,
                             owner := if dbOk then s.owner - {i} else s.owner,
                             gauge := if dbOk then s.gauge - 1 else s.gauge, threads := map[])
  {
    var l := ReleaseUpdate(0, dbOk, now);
    var s' := Next(s, l);
    if dbOk {
      OneStep(s', ReleaseCount(0));
      Prepend(s, l, [ReleaseCount(0)]);
      ls := [l] + [ReleaseCount(0)];
      assert Next(s', ReleaseCount(0)).threads == map[];
    } else {
      OneStep(s, l);
      ls := [l];
      assert s'.threads == map[];
    }
  }

  lemma ReleaseTrace(s: State, c: ConvId, deleteOk: bool, dbOk: bool, now: int) returns (ls: seq<Label>)
    requires s.threads == map[] && c in s.route
    ensures Possible(s, ls) && (deleteOk ==> AllDisciplined(s, ls))
    ensures var i := s.route[c];
            Run(s, ls) == s.(route := if deleteOk then s.route - {c} else s.route,
                             rows := if dbOk && i in s.rows then s.rows[i := Released(s.rows[i], now)] else s.rows,
                             owner := if dbOk then s.owner - {i} else s.owner,
                             gauge := if dbOk then s.gauge - 1 else s.gauge)
  {
    var l0, l1 := ReleaseLookup(0, c, true), ReleaseDelete(0, deleteOk);
    var s1 := Next(s, l0);
    var s2 := Next(s1, l1);
    assert s2.threads == map[0 := Releasing(c, s.route[c])];
    var rest := UpdateTrace(s2, c, s.route[c], dbOk, now);
    Prepend(s1, l1, rest);
    Prepend(s, l0, [l1] + rest);
    ls := [l0] + ([l1] + rest);
  }
}
