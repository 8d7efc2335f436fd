/**
  The claim and release protocol of the warm pool as a state machine. Any number of gateways
  share a table of instances, the conversation to instance routing table and a gauge. Each SQL
  statement, each routing-table call and each gauge update is one atomic step, and the steps of
  concurrent operations interleave freely. Identifiers are only ever compared, so they are
  numbers here.
 */
module WarmPool {
  import opened Wrappers

  type ConvId = nat
  type InstanceId = nat
  type TenantId = nat
  type ProfileId = nat
  type PodName = nat
  type ThreadId = nat

  datatype Phase = Cold | Warm | Active

  /** A row of agent_instances. */
  datatype Row = Row(tenant: TenantId, profile: Option<ProfileId>, pod: PodName, phase: Phase,
                     claimedAt: Option<int>, releasedAt: Option<int>, lastHeartbeat: int)

  /** Where an operation in flight stands: the step it is about to take. */
  datatype Pc =
    | Claiming(conv: ConvId, tenant: TenantId, profile: ProfileId)  // EnsureInstance, after a miss
    | Routing(conv: ConvId, inst: InstanceId)                       // row claimed, route not set
    | Counting(conv: ConvId, inst: InstanceId)                      // route set, gauge not raised
    | Dropping(conv: ConvId, inst: InstanceId)                      // Release, after reading the route
    | Releasing(conv: ConvId, inst: InstanceId)                     // route deleted, row not released
    | Uncounting(conv: ConvId, inst: InstanceId)                    // row released, gauge not lowered
    | Announcing(conv: ConvId, inst: InstanceId)                    // agent_start, pod name resolved

  /** The shared state. The owner of an active instance is the conversation that claimed it; it
      exists for the proofs only and no step looks at it. The tenant of a conversation never
      changes. */
  datatype State = State(
    rows: map<InstanceId, Row>, route: map<ConvId, InstanceId>, gauge: int,
    threads: map<ThreadId, Pc>, owner: map<InstanceId, ConvId>, tenantOf: map<ConvId, TenantId>)

  /** The steps. The flags say whether the store answered: a failed read of the routing table
      reads as no route, a failed write or delete leaves the table as it was, a failed update
      leaves the row as it was. */
  datatype Label =
    | EnsureLookup(thread: ThreadId, conv: ConvId, tenant: TenantId, profile: ProfileId, ok: bool)
    | EnsureClaim(thread: ThreadId, pick: Option<InstanceId>, locked: set<InstanceId>, now: int)
    | EnsureSet(thread: ThreadId, ok: bool)
    | EnsureCount(thread: ThreadId)
    | ReleaseLookup(thread: ThreadId, conv: ConvId, ok: bool)
    | ReleaseDelete(thread: ThreadId, ok: bool)
    | ReleaseUpdate(thread: ThreadId, ok: bool, now: int)
    | ReleaseCount(thread: ThreadId)
    | AnnounceLookup(thread: ThreadId, conv: ConvId, pod: PodName, found: Option<InstanceId>)
    | AnnounceSet(thread: ThreadId, ok: bool)
    | Heartbeat(tenant: TenantId, resolved: Option<ProfileId>, pod: PodName, id: InstanceId, now: int)
    | Clear(conv: ConvId)
    | Expire(conv: ConvId)

  // ---------- The statements of the instance table ----------

  predicate Claimable(rows: map<InstanceId, Row>, tenant: TenantId, profile: ProfileId, i: InstanceId) {
    i in rows && rows[i].tenant == tenant && rows[i].profile == Some(profile) && rows[i].phase == Warm
  }

  /** The row a claim takes: among the claimable rows that no other transaction has locked, one
      with the most recent heartbeat. */
  ghost predicate Picks(rows: map<InstanceId, Row>, tenant: TenantId, profile: ProfileId, locked: set<InstanceId>,
      i: InstanceId) {
    && Claimable(rows, tenant, profile, i) && i !in locked
    && forall j :: Claimable(rows, tenant, profile, j) && j !in locked ==>
         rows[j].lastHeartbeat <= rows[i].lastHeartbeat
  }

  function Claimed(r: Row, now: int): Row { r.(phase := Active, claimedAt := Some(now)) }

  function Released(r: Row, now: int): Row { r.(phase := Warm, releasedAt := Some(now), claimedAt := None) }

  /** The upsert of a heartbeat on a row that exists: an active row stays active. */
  function Beaten(r: Row, now: int): Row {
    r.(lastHeartbeat := now, phase := if r.phase == Active then Active else Warm)
  }

  predicate HasPod(rows: map<InstanceId, Row>, pod: PodName, i: InstanceId) {
    i in rows && rows[i].pod == pod
  }

  // ---------- The steps ----------

  predicate Routed(s: State, c: ConvId, i: InstanceId) { c in s.route && s.route[c] == i }

  predicate At(s: State, t: ThreadId, pc: Pc) { t in s.threads && s.threads[t] == pc }

  ghost predicate Enabled(s: State, l: Label) {
    match l
    case EnsureLookup(t, _, _, _, _) => t !in s.threads
    case EnsureClaim(t, pick, locked, _) =>
      t in s.threads && s.threads[t].Claiming? &&
      (pick.Some? ==> Picks(s.rows, s.threads[t].tenant, s.threads[t].profile, locked, pick.value))
    case EnsureSet(t, _) => t in s.threads && s.threads[t].Routing?
    case EnsureCount(t) => t in s.threads && s.threads[t].Counting?
    case ReleaseLookup(t, _, _) => t !in s.threads
    case ReleaseDelete(t, _) => t in s.threads && s.threads[t].Dropping?
    case ReleaseUpdate(t, _, _) => t in s.threads && s.threads[t].Releasing?
    case ReleaseCount(t) => t in s.threads && s.threads[t].Uncounting?
    case AnnounceLookup(t, _, pod, found) => t !in s.threads && (found.Some? ==> HasPod(s.rows, pod, found.value))
    case AnnounceSet(t, _) => t in s.threads && s.threads[t].Announcing?
    case Heartbeat(_, _, pod, id, _) =>
      HasPod(s.rows, pod, id) || (id !in s.rows && forall i :: !HasPod(s.rows, pod, i))
    case Clear(_) => true
    case Expire(c) => c in s.route
  }

  ghost function Next(s: State, l: Label): State
    requires Enabled(s, l)
  {
    match l
    case EnsureLookup(t, c, tenant, profile, ok) =>
      if ok && c in s.route then s else s.(threads := s.threads[t := Claiming(c, tenant, profile)])
    case EnsureClaim(t, pick, _, now) =>
      if pick.None? then s.(threads := s.threads - {t})
      else
        var i, c := pick.value, s.threads[t].conv;
        s.(rows := s.rows[i := Claimed(s.rows[i], now)], owner := s.owner[i := c],
           threads := s.threads[t := Routing(c, i)])
    case EnsureSet(t, ok) =>
      var Routing(c, i) := s.threads[t];
      s.(route := if ok then s.route[c := i] else s.route, threads := s.threads[t := Counting(c, i)])
    case EnsureCount(t) => s.(gauge := s.gauge + 1, threads := s.threads - {t})
    case ReleaseLookup(t, c, ok) =>
      if ok && c in s.route then s.(threads := s.threads[t := Dropping(c, s.route[c])]) else s
    case ReleaseDelete(t, ok) =>
      var Dropping(c, i) := s.threads[t];
      s.(route := if ok then s.route - {c} else s.route, threads := s.threads[t := Releasing(c, i)])
    case ReleaseUpdate(t, ok, now) =>
      var Releasing(c, i) := s.threads[t];
      if !ok then s.(threads := s.threads - {t})
      else s.(rows := if i in s.rows then s.rows[i := Released(s.rows[i], now)] else s.rows,
              owner := s.owner - {i}, threads := s.threads[t := Uncounting(c, i)])
    case ReleaseCount(t) => s.(gauge := s.gauge - 1, threads := s.threads - {t})
    case AnnounceLookup(t, c, _, found) =>
      if found.None? then s else s.(threads := s.threads[t := Announcing(c, found.value)])
    case AnnounceSet(t, ok) =>
      var Announcing(c, i) := s.threads[t];
      s.(route := if ok then s.route[c := i] else s.route, threads := s.threads - {t})
    case Heartbeat(tenant, profile, pod, id, now) =>
      s.(rows := s.rows[id := if id in s.rows then Beaten(s.rows[id], now)
                              else Row(tenant, profile, pod, Warm, None, None, now)])
    case Clear(c) => s.(route := s.route - {c})
    case Expire(c) => s.(route := s.route - {c})
  }

  // ---------- What the callers promise, step by step ----------

  /** A release that has read a route to the instance and has not updated its row yet. */
  predicate Releases(pc: Pc, i: InstanceId) { (pc.Dropping? || pc.Releasing?) && pc.inst == i }

  /** An operation that will still set a route to the instance, or release its row. */
  predicate Holds(pc: Pc, i: InstanceId) { (pc.Routing? && pc.inst == i) || Releases(pc, i) }

  /** The conversation has claimed the instance, EnsureInstance has routed it, and no release of
      it is past the deletion of the route. */
  ghost predicate HasClaimed(s: State, c: ConvId, i: InstanceId) {
    && i in s.owner && s.owner[i] == c
    && forall t :: t in s.threads && Holds(s.threads[t], i) ==> s.threads[t].Dropping?
  }

  /** An instance has one Release in flight at a time, a Release does not go on over a route it failed to
      delete, and an announcement names an instance that its conversation has claimed and not
      released. Every other step is free. */
  ghost predicate Careful(s: State, l: Label)
    requires Enabled(s, l)
  {
    match l
    case ReleaseLookup(_, c, ok) =>
      ok && c in s.route ==> forall t :: t in s.threads ==> !Releases(s.threads[t], s.route[c])
    case ReleaseDelete(t, ok) => ok || !Routed(s, s.threads[t].conv, s.threads[t].inst)
    case AnnounceSet(t, ok) => ok ==> HasClaimed(s, s.threads[t].conv, s.threads[t].inst)
    case _ => true
  }

  /** A conversation that has no route asks in its own tenant. */
  predicate InOwnTenant(s: State, l: Label) {
    match l
    case EnsureLookup(_, c, tenant, _, ok) => (ok && c in s.route) || (c in s.tenantOf && s.tenantOf[c] == tenant)
    case _ => true
  }

  ghost predicate Disciplined(s: State, l: Label)
    requires Enabled(s, l)
  {
    Careful(s, l) && InOwnTenant(s, l)
  }

  // ---------- Safety ----------

  /** Every routed instance is active and owned by the conversation it is routed to. */
  ghost predicate Exclusive(s: State) {
    forall c :: c in s.route ==>
      && s.route[c] in s.rows && s.rows[s.route[c]].phase == Active
      && s.route[c] in s.owner && s.owner[s.route[c]] == c
  }

  /** And it is in that conversation's tenant. */
  ghost predicate Safe(s: State) {
    Exclusive(s) && forall c :: c in s.route ==> c in s.tenantOf && s.rows[s.route[c]].tenant == s.tenantOf[c]
  }

  ghost predicate OneRowPerPod(s: State) {
    forall p, i, j :: HasPod(s.rows, p, i) && HasPod(s.rows, p, j) ==> i == j
  }

  /** What an operation in flight relies on. */
  ghost predicate ThreadOk(s: State, t: ThreadId)
    requires t in s.threads
  {
    match s.threads[t]
    case Routing(c, i) =>
      && i in s.owner && s.owner[i] == c && !Routed(s, c, i)
      && forall t' :: t' in s.threads && t' != t ==> !Holds(s.threads[t'], i)
    case Dropping(c, i) =>
      && i in s.owner && s.owner[i] == c
      && forall t' :: t' in s.threads && t' != t ==> !Releases(s.threads[t'], i)
    case Releasing(c, i) =>
      && i in s.owner && s.owner[i] == c && !Routed(s, c, i)
      && forall t' :: t' in s.threads && t' != t ==> !Releases(s.threads[t'], i)
    case _ => true
  }

  ghost predicate Core(s: State) {
    && OneRowPerPod(s)
    && (forall i :: i in s.owner <==> i in s.rows && s.rows[i].phase == Active)
    && (forall c :: c in s.route ==> s.route[c] in s.owner && s.owner[s.route[c]] == c)
    && (forall t :: t in s.threads ==> ThreadOk(s, t))
  }

  /** A claimed row is in its owner's tenant, and it has a profile, since it was claimed by one. */
  ghost predicate OwnedInTenant(s: State, i: InstanceId) {
    && i in s.owner && s.owner[i] in s.tenantOf && i in s.rows
    && s.rows[i].tenant == s.tenantOf[s.owner[i]] && s.rows[i].profile.Some?
  }

  ghost predicate ClaimsInTenant(s: State, t: ThreadId)
    requires t in s.threads
  {
    s.threads[t].Claiming? ==> s.threads[t].conv in s.tenantOf && s.tenantOf[s.threads[t].conv] == s.threads[t].tenant
  }

  ghost predicate Tenants(s: State) {
    && (forall i :: i in s.owner ==> OwnedInTenant(s, i))
    && (forall t :: t in s.threads ==> ClaimsInTenant(s, t))
  }

  ghost predicate Inv(s: State) { Core(s) && Tenants(s) }

  lemma CoreIsExclusive(s: State)
    requires Core(s)
    ensures Exclusive(s)
    ensures forall c, d :: c in s.route && d in s.route && s.route[c] == s.route[d] ==> c == d
  {
  }

  lemma InvIsSafe(s: State)
    requires Inv(s)
    ensures Safe(s)
  {
    CoreIsExclusive(s);
    forall c | c in s.route ensures OwnedInTenant(s, s.route[c]) {}
  }

  // ---------- Every step ----------

  lemma ClaimKeepsCore(s: State, l: Label)
    requires Core(s) && Enabled(s, l) && l.EnsureClaim?
    ensures Core(Next(s, l))
  {
    var s' := Next(s, l);
    if l.pick.Some? {
      var i := l.pick.value;
      assert i !in s.owner;
      forall p, j, k | HasPod(s'.rows, p, j) && HasPod(s'.rows, p, k) ensures j == k {
        assert HasPod(s.rows, p, j) && HasPod(s.rows, p, k);
      }
    }
    forall t | t in s'.threads ensures ThreadOk(s', t) { assert t in s.threads && ThreadOk(s, t); }
  }

  lemma HeartbeatKeepsCore(s: State, l: Label)
    requires Core(s) && Enabled(s, l) && l.Heartbeat?
    ensures Core(Next(s, l))
  {
    var s' := Next(s, l);
    forall p, i, j | HasPod(s'.rows, p, i) && HasPod(s'.rows, p, j) ensures i == j {
      assert i in s.rows ==> HasPod(s.rows, p, i);
      assert j in s.rows ==> HasPod(s.rows, p, j);
    }
    forall t | t in s'.threads ensures ThreadOk(s', t) { assert ThreadOk(s, t); }
  }

  lemma UpdateKeepsCore(s: State, l: Label)
    requires Core(s) && Enabled(s, l) && l.ReleaseUpdate?
    ensures Core(Next(s, l))
  {
    var s' := Next(s, l);
    assert ThreadOk(s, l.thread);
    forall p, i, j | HasPod(s'.rows, p, i) && HasPod(s'.rows, p, j) ensures i == j {
      assert HasPod(s.rows, p, i) && HasPod(s.rows, p, j);
    }
    forall t | t in s'.threads ensures ThreadOk(s', t) { assert t in s.threads && ThreadOk(s, t); }
  }

  lemma EnsureStepKeepsCore(s: State, l: Label)
    requires Core(s) && Enabled(s, l) && (l.EnsureLookup? || l.EnsureSet? || l.EnsureCount?)
    ensures Core(Next(s, l))
  {
    var s' := Next(s, l);
    forall t | t in s'.threads ensures ThreadOk(s', t) {
      if t in s.threads { assert ThreadOk(s, t); }
      if l.EnsureSet? { assert ThreadOk(s, l.thread); }
    }
    if l.EnsureSet? { assert ThreadOk(s, l.thread); }
  }

  lemma ReleaseStepKeepsCore(s: State, l: Label)
    requires Core(s) && Enabled(s, l) && Careful(s, l)
    requires l.ReleaseLookup? || l.ReleaseDelete? || l.ReleaseCount?
    ensures Core(Next(s, l))
  {
    var s' := Next(s, l);
    forall t | t in s'.threads ensures ThreadOk(s', t) {
      if t in s.threads { assert ThreadOk(s, t); }
      if l.ReleaseDelete? { assert ThreadOk(s, l.thread); }
    }
  }

  lemma AnnounceStepKeepsCore(s: State, l: Label)
    requires Core(s) && Enabled(s, l) && Careful(s, l) && (l.AnnounceLookup? || l.AnnounceSet?)
    ensures Core(Next(s, l))
  {
    var s' := Next(s, l);
    forall t | t in s'.threads ensures ThreadOk(s', t) {
      if t in s.threads { assert ThreadOk(s, t); }
    }
  }

  lemma RouteLossKeepsCore(s: State, l: Label)
    requires Core(s) && Enabled(s, l) && (l.Clear? || l.Expire?)
    ensures Core(Next(s, l))
  {
    var s' := Next(s, l);
    forall t | t in s'.threads ensures ThreadOk(s', t) { assert ThreadOk(s, t); }
  }

  lemma StepKeepsCore(s: State, l: Label)
    requires Core(s) && Enabled(s, l) && Careful(s, l)
    ensures Core(Next(s, l))
  {
    match l
    case EnsureClaim(_, _, _, _) => ClaimKeepsCore(s, l);
    case Heartbeat(_, _, _, _, _) => HeartbeatKeepsCore(s, l);
    case ReleaseUpdate(_, _, _) => UpdateKeepsCore(s, l);
    case EnsureLookup(_, _, _, _, _) => EnsureStepKeepsCore(s, l);
    case EnsureSet(_, _) => EnsureStepKeepsCore(s, l);
    case EnsureCount(_) => EnsureStepKeepsCore(s, l);
    case ReleaseLookup(_, _, _) => ReleaseStepKeepsCore(s, l);
    case ReleaseDelete(_, _) => ReleaseStepKeepsCore(s, l);
    case ReleaseCount(_) => ReleaseStepKeepsCore(s, l);
    case AnnounceLookup(_, _, _, _) => AnnounceStepKeepsCore(s, l);
    case AnnounceSet(_, _) => AnnounceStepKeepsCore(s, l);
    case _ => RouteLossKeepsCore(s, l);
  }

  lemma StepKeepsTenants(s: State, l: Label)
    requires Tenants(s) && Enabled(s, l) && InOwnTenant(s, l)
    ensures Tenants(Next(s, l))
  {
    var s' := Next(s, l);
    forall j | j in s'.owner ensures OwnedInTenant(s', j) {
      if j in s.owner { assert OwnedInTenant(s, j); }
      if l.EnsureClaim? { assert ClaimsInTenant(s, l.thread); }
    }
    forall t | t in s'.threads ensures ClaimsInTenant(s', t) {
      if t in s.threads { assert ClaimsInTenant(s, t); }
    }
  }

  lemma StepKeepsInv(s: State, l: Label)
    requires Inv(s) && Enabled(s, l) && Disciplined(s, l)
    ensures Inv(Next(s, l))
  {
    StepKeepsCore(s, l);
    StepKeepsTenants(s, l);
  }

  // ---------- Runs ----------

  /** A sequence of steps, each possible where it is taken. */
  ghost predicate Possible(s: State, ls: seq<Label>)
    decreases |ls|
  {
    ls != [] ==> Enabled(s, ls[0]) && Possible(Next(s, ls[0]), ls[1..])
  }

  ghost function Run(s: State, ls: seq<Label>): State
    requires Possible(s, ls)
    decreases |ls|
  {
    if ls == [] then s else Run(Next(s, ls[0]), ls[1..])
  }

  ghost predicate AllCareful(s: State, ls: seq<Label>)
    requires Possible(s, ls)
    decreases |ls|
  {
    ls != [] ==> Careful(s, ls[0]) && AllCareful(Next(s, ls[0]), ls[1..])
  }

  ghost predicate AllDisciplined(s: State, ls: seq<Label>)
    requires Possible(s, ls)
    decreases |ls|
  {
    ls != [] ==> Disciplined(s, ls[0]) && AllDisciplined(Next(s, ls[0]), ls[1..])
  }

  lemma OneStep(s: State, l: Label)
    requires Enabled(s, l)
    ensures Possible(s, [l]) && Run(s, [l]) == Next(s, l)
    ensures AllDisciplined(s, [l]) <==> Disciplined(s, l)
    ensures AllCareful(s, [l]) <==> Careful(s, l)
  {
    assert [l][1..] == [];
  }

  lemma Prepend(s: State, l: Label, ls: seq<Label>)
    requires Enabled(s, l) && Possible(Next(s, l), ls)
    ensures Possible(s, [l] + ls) && Run(s, [l] + ls) == Run(Next(s, l), ls)
    ensures AllDisciplined(s, [l] + ls) <==> Disciplined(s, l) && AllDisciplined(Next(s, l), ls)
  {
    assert ([l] + ls)[1..] == ls;
  }

  lemma {:induction false} RunsCompose(s: State, a: seq<Label>, b: seq<Label>)
    requires Possible(s, a) && Possible(Run(s, a), b)
    ensures Possible(s, a + b) && Run(s, a + b) == Run(Run(s, a), b)
    ensures AllDisciplined(s, a + b) <==> AllDisciplined(s, a) && AllDisciplined(Run(s, a), b)
    ensures AllCareful(s, a + b) <==> AllCareful(s, a) && AllCareful(Run(s, a), b)
    decreases |a|
  {
    if a == [] {
      assert a + b == b;
    } else {
      assert (a + b)[1..] == a[1..] + b;
      RunsCompose(Next(s, a[0]), a[1..], b);
    }
  }

  /** Nothing claimed, nothing routed, nothing in flight; the pool may already hold warm rows. */
  ghost predicate Initial(s: State) {
    && OneRowPerPod(s) && (forall i :: i in s.rows ==> s.rows[i].phase != Active)
    && s.route == map[] && s.owner == map[] && s.threads == map[] && s.gauge == 0
  }

  lemma {:induction false} RunKeepsCore(s: State, ls: seq<Label>)
    requires Possible(s, ls) && AllCareful(s, ls) && Core(s)
    ensures Core(Run(s, ls))
    decreases |ls|
  {
    if ls != [] {
      StepKeepsCore(s, ls[0]);
      RunKeepsCore(Next(s, ls[0]), ls[1..]);
    }
  }

  lemma {:induction false} RunKeepsInv(s: State, ls: seq<Label>)
    requires Possible(s, ls) && AllDisciplined(s, ls) && Inv(s)
    ensures Inv(Run(s, ls)) && AllCareful(s, ls)
    decreases |ls|
  {
    if ls != [] {
      StepKeepsInv(s, ls[0]);
      RunKeepsInv(Next(s, ls[0]), ls[1..]);
    }
  }

  /** In every state of every careful interleaving each routed instance is active and owned by its
      conversation, no instance is routed to two conversations, and a pod has one row; and if the
      conversations ask in their own tenants, each routed instance is in its conversation's tenant. */
  lemma NoInstanceServesTwoConversations(s: State, ls: seq<Label>)
    requires Initial(s) && Possible(s, ls) && AllCareful(s, ls)
    ensures Exclusive(Run(s, ls)) && OneRowPerPod(Run(s, ls))
    ensures var r := Run(s, ls).route; forall c, d :: c in r && d in r && r[c] == r[d] ==> c == d
    ensures AllDisciplined(s, ls) ==> Safe(Run(s, ls))
  {
    RunKeepsCore(s, ls);
    CoreIsExclusive(Run(s, ls));
    if AllDisciplined(s, ls) {
      RunKeepsInv(s, ls);
      InvIsSafe(Run(s, ls));
    }
  }

  // ---------- The gauge ----------

  ghost function ActiveRows(s: State): set<InstanceId> {
    set i | i in s.rows && s.rows[i].phase == Active
  }

  predicate IsUncounted(pc: Pc) { pc.Routing? || pc.Counting? }

  /** Operations that have claimed a row and not raised the gauge yet. */
  ghost function Uncounted(threads: map<ThreadId, Pc>): set<ThreadId> {
    set t | t in threads && IsUncounted(threads[t])
  }

  /** Operations that have released a row and not lowered the gauge yet. */
  ghost function Overcounted(threads: map<ThreadId, Pc>): set<ThreadId> {
    set t | t in threads && threads[t].Uncounting?
  }

  /** What the gauge still has to gain from the operations in flight. */
  ghost function Pending(threads: map<ThreadId, Pc>): int {
    |Uncounted(threads)| - |Overcounted(threads)|
  }

  function Weight(pc: Pc): int {
    if IsUncounted(pc) then 1 else if pc.Uncounting? then -1 else 0
  }

  ghost predicate Balanced(s: State) {
    |s.owner.Keys| == s.gauge + Pending(s.threads)
  }

  lemma ThreadEnds(threads: map<ThreadId, Pc>, t: ThreadId)
    requires t in threads
    ensures Pending(threads - {t}) == Pending(threads) - Weight(threads[t])
  {
    assert Uncounted(threads - {t}) == Uncounted(threads) - {t};
    assert Overcounted(threads - {t}) == Overcounted(threads) - {t};
  }

  lemma ThreadStarts(threads: map<ThreadId, Pc>, t: ThreadId, pc: Pc)
    requires t !in threads
    ensures Pending(threads[t := pc]) == Pending(threads) + Weight(pc)
  {
    ThreadEnds(threads[t := pc], t);
    assert threads[t := pc] - {t} == threads;
  }

  lemma ThreadMoves(threads: map<ThreadId, Pc>, t: ThreadId, pc: Pc)
    requires t in threads
    ensures Pending(threads[t := pc]) == Pending(threads) + Weight(pc) - Weight(threads[t])
  {
    ThreadEnds(threads, t);
    ThreadStarts(threads - {t}, t, pc);
    assert (threads - {t})[t := pc] == threads[t := pc];
  }

  lemma ClaimKeepsBalance(s: State, l: Label)
    requires Enabled(s, l) && Balanced(s) && l.EnsureClaim? && (l.pick.Some? ==> l.pick.value !in s.owner)
    ensures Balanced(Next(s, l))
  {
    if l.pick.Some? {
      ThreadMoves(s.threads, l.thread, Routing(s.threads[l.thread].conv, l.pick.value));
      assert Next(s, l).owner.Keys == s.owner.Keys + {l.pick.value};
    } else {
      ThreadEnds(s.threads, l.thread);
    }
  }

  lemma UpdateKeepsBalance(s: State, l: Label)
    requires Enabled(s, l) && Balanced(s) && l.ReleaseUpdate? && s.threads[l.thread].inst in s.owner
    ensures Balanced(Next(s, l))
  {
    if l.ok {
      ThreadMoves(s.threads, l.thread, Uncounting(s.threads[l.thread].conv, s.threads[l.thread].inst));
      assert Next(s, l).owner.Keys == s.owner.Keys - {s.threads[l.thread].inst};
    } else {
      ThreadEnds(s.threads, l.thread);
    }
  }

  lemma OtherStepKeepsBalance(s: State, l: Label)
    requires Enabled(s, l) && Balanced(s) && !l.EnsureClaim? && !l.ReleaseUpdate?
    ensures Balanced(Next(s, l))
  {
    match l
    case EnsureLookup(t, c, tenant, profile, _) => ThreadStarts(s.threads, t, Claiming(c, tenant, profile));
    case EnsureSet(t, _) => ThreadMoves(s.threads, t, Counting(s.threads[t].conv, s.threads[t].inst));
    case EnsureCount(t) => ThreadEnds(s.threads, t);
    case ReleaseLookup(t, c, _) => if c in s.route { ThreadStarts(s.threads, t, Dropping(c, s.route[c])); }
    case ReleaseDelete(t, _) => ThreadMoves(s.threads, t, Releasing(s.threads[t].conv, s.threads[t].inst));
    case ReleaseCount(t) => ThreadEnds(s.threads, t);
    case AnnounceLookup(t, c, _, found) => if found.Some? { ThreadStarts(s.threads, t, Announcing(c, found.value)); }
    case AnnounceSet(t, _) => ThreadEnds(s.threads, t);
    case _ =>
  }

  lemma StepKeepsBalance(s: State, l: Label)
    requires Core(s) && Enabled(s, l) && Balanced(s)
    ensures Balanced(Next(s, l))
  {
    match l
    case EnsureClaim(_, _, _, _) => ClaimKeepsBalance(s, l);
    case ReleaseUpdate(t, _, _) =>
      assert ThreadOk(s, t);
      UpdateKeepsBalance(s, l);
    case _ => OtherStepKeepsBalance(s, l);
  }

  lemma {:induction false} RunKeepsBalance(s: State, ls: seq<Label>)
    requires Possible(s, ls) && AllCareful(s, ls) && Core(s) && Balanced(s)
    ensures Balanced(Run(s, ls))
    decreases |ls|
  {
    if ls != [] {
      StepKeepsCore(s, ls[0]);
      StepKeepsBalance(s, ls[0]);
      RunKeepsBalance(Next(s, ls[0]), ls[1..]);
    }
  }

  /** At every point of every careful run the gauge differs from the number of active rows
      by the operations between their row update and their gauge update; between operations the
      two are equal. Failed database releases, expired and cleared routes are part of the runs. */
  lemma GaugeCountsActiveRows(s: State, ls: seq<Label>)
    requires Initial(s) && Possible(s, ls) && AllCareful(s, ls)
    ensures var r := Run(s, ls); r.gauge == |ActiveRows(r)| + |Overcounted(r.threads)| - |Uncounted(r.threads)|
    ensures Run(s, ls).threads == map[] ==> Run(s, ls).gauge == |ActiveRows(Run(s, ls))|
  {
    var r := Run(s, ls);
    assert Overcounted(s.threads) == {} && Uncounted(s.threads) == {} && s.owner.Keys == {};
    RunKeepsCore(s, ls);
    RunKeepsBalance(s, ls);
    assert ActiveRows(r) == r.owner.Keys;
    if r.threads == map[] {
      assert Overcounted(r.threads) == {} && Uncounted(r.threads) == {};
    }
  }

  // ---------- Claims last until their release ----------

  /** No step of the run is a successful row release of the instance. */
  ghost predicate NeverReleased(s: State, ls: seq<Label>, i: InstanceId)
    requires Possible(s, ls)
    decreases |ls|
  {
    ls != [] ==>
      && !(ls[0].ReleaseUpdate? && ls[0].ok && s.threads[ls[0].thread].inst == i)
      && NeverReleased(Next(s, ls[0]), ls[1..], i)
  }

  /** In any run at all, disciplined or not, with any number of heartbeats, a claimed row stays
      active, with its tenant, pod and claim time, until a release updates it. */
  lemma {:induction false} ClaimLastsUntilRelease(s: State, ls: seq<Label>, i: InstanceId)
    requires Possible(s, ls) && NeverReleased(s, ls, i)
    requires i in s.rows && s.rows[i].phase == Active
    ensures i in Run(s, ls).rows && Run(s, ls).rows[i] == s.rows[i].(lastHeartbeat := Run(s, ls).rows[i].lastHeartbeat)
    decreases |ls|
  {
    if ls != [] {
      ClaimLastsUntilRelease(Next(s, ls[0]), ls[1..], i);
    }
  }

  // ---------- What the instance table says about the past ----------

  /** What one statement did to a row, and when. */
  datatype Touch = Claim(at: int) | Free(at: int) | Beat(at: int)

  /** What a step does to the row of an instance, if anything. */
  function TouchOf(s: State, l: Label, i: InstanceId): Option<Touch>
    requires l.ReleaseUpdate? ==> l.thread in s.threads && s.threads[l.thread].Releasing?
  {
    match l
    case EnsureClaim(_, pick, _, now) => if pick == Some(i) then Some(Claim(now)) else None
    case ReleaseUpdate(t, ok, now) => if ok && s.threads[t].inst == i then Some(Free(now)) else None
    case Heartbeat(_, _, _, id, now) => if id == i then Some(Beat(now)) else None
    case _ => None
  }

  /** The claims, releases and heartbeats of the instance in the run, in order. */
  ghost function History(s: State, ls: seq<Label>, i: InstanceId): seq<Touch>
    requires Possible(s, ls)
    decreases |ls|
  {
    if ls == [] then []
    else
      var touch, later := TouchOf(s, ls[0], i), History(Next(s, ls[0]), ls[1..], i);
      if touch.Some? then [touch.value] + later else later
  }

  /** The time of the last heartbeat. */
  function LastBeat(h: seq<Touch>, before: int): int {
    if h == [] then before else LastBeat(h[1..], if h[0].Beat? then h[0].at else before)
  }

  /** The time of the claim that no release followed. */
  function OpenClaim(h: seq<Touch>, before: Option<int>): Option<int> {
    if h == [] then before
    else OpenClaim(h[1..], if h[0].Claim? then Some(h[0].at) else if h[0].Free? then None else before)
  }

  function LastFree(h: seq<Touch>, before: Option<int>): Option<int> {
    if h == [] then before else LastFree(h[1..], if h[0].Free? then Some(h[0].at) else before)
  }

  /** Whether the last claim or release was a claim. */
  predicate Held(h: seq<Touch>, before: bool) {
    if h == [] then before else Held(h[1..], if h[0].Claim? then true else if h[0].Free? then false else before)
  }

  /** The row, which was another before, tells what happened in between: the time of the last heartbeat; that
      it is active exactly while it is claimed, and otherwise warm once anything has happened; since when it
      is claimed, and when it was last released. Its pod, tenant and profile have not changed. */
  predicate Tells(h: seq<Touch>, was: Row, row: Row) {
    && row.lastHeartbeat == LastBeat(h, was.lastHeartbeat)
    && (row.phase == Active <==> Held(h, was.phase == Active))
    && (row.phase != Active ==> row.phase == if h == [] then was.phase else Warm)
    && row.claimedAt == OpenClaim(h, was.claimedAt) && row.releasedAt == LastFree(h, was.releasedAt)
    && row.pod == was.pod && row.tenant == was.tenant && row.profile == was.profile
  }

  /** What each statement writes. */
  predicate Writes(touch: Touch, was: Row, row: Row) {
    match touch
    case Claim(at) => row == was.(phase := Active, claimedAt := Some(at))
    case Free(at) => row == was.(phase := Warm, releasedAt := Some(at), claimedAt := None)
    case Beat(at) => row == was.(lastHeartbeat := at, phase := if was.phase == Active then Active else Warm)
  }

  lemma StepWrites(s: State, l: Label, i: InstanceId)
    requires Enabled(s, l) && i in s.rows
    ensures i in Next(s, l).rows
    ensures var touch := TouchOf(s, l, i);
            if touch.Some? then Writes(touch.value, s.rows[i], Next(s, l).rows[i]) else Next(s, l).rows[i] == s.rows[i]
  {
  }

  lemma TellsMore(touch: Touch, h: seq<Touch>, was: Row, mid: Row, row: Row)
    requires Writes(touch, was, mid) && Tells(h, mid, row)
    ensures Tells([touch] + h, was, row)
  {
    assert ([touch] + h)[1..] == h;
  }

  /** In any run at all, careful or not, the row of an instance tells its history. */
  lemma {:induction false} RowTellsItsHistory(s: State, ls: seq<Label>, i: InstanceId)
    requires Possible(s, ls) && i in s.rows
    ensures i in Run(s, ls).rows && Tells(History(s, ls, i), s.rows[i], Run(s, ls).rows[i])
    decreases |ls|
  {
    if ls != [] {
      var s' := Next(s, ls[0]);
      var touch := TouchOf(s, ls[0], i);
      StepWrites(s, ls[0], i);
      RowTellsItsHistory(s', ls[1..], i);
      if touch.Some? {
        TellsMore(touch.value, History(s', ls[1..], i), s.rows[i], s'.rows[i], Run(s, ls).rows[i]);
      }
    }
  }

  /** The pod that beat last, later than every other claimable pod, is the one that a claim takes. */
  lemma LatestBeatIsClaimed(s: State, beat: Label, tenant: TenantId, profile: ProfileId, locked: set<InstanceId>,
      i: InstanceId)
    requires beat.Heartbeat? && Enabled(s, beat)
    requires forall j :: j in s.rows && j != beat.id ==> s.rows[j].lastHeartbeat < beat.now
    requires beat.id !in locked && Claimable(Next(s, beat).rows, tenant, profile, beat.id)
    ensures Picks(Next(s, beat).rows, tenant, profile, locked, i) <==> i == beat.id
  {
  }

  // ---------- The discipline is exact ----------

  /** Some disciplined continuation ends in an unsafe state. */
  ghost predicate CanGoWrong(s: State) {
    exists ls :: Possible(s, ls) && AllDisciplined(s, ls) && !Safe(Run(s, ls))
  }

  lemma GoesWrongNow(s: State)
    requires !Safe(s)
    ensures CanGoWrong(s)
  {
    assert Possible(s, []) && AllDisciplined(s, []) && Run(s, []) == s;
  }

  lemma GoesWrongLater(s: State, l: Label)
    requires Enabled(s, l) && Disciplined(s, l) && CanGoWrong(Next(s, l))
    ensures CanGoWrong(s)
  {
    var s' := Next(s, l);
    var ls :| Possible(s', ls) && AllDisciplined(s', ls) && !Safe(Run(s', ls));
    assert ([l] + ls)[1..] == ls;
    assert Possible(s, [l] + ls) && AllDisciplined(s, [l] + ls) && Run(s, [l] + ls) == Run(s', ls);
  }

  lemma {:induction false} BoundOf(used: set<nat>) returns (n: nat)
    ensures forall m :: m in used ==> m < n
  {
    if used == {} {
      n := 0;
    } else {
      var m :| m in used;
      var k := BoundOf(used - {m});
      n := if k <= m then m + 1 else k;
      assert forall j :: j in used ==> j == m || j in used - {m};
    }
  }

  lemma FreshThread(s: State) returns (t: ThreadId)
    ensures t !in s.threads
  {
    t := BoundOf(s.threads.Keys);
  }

  /** An id and a pod name that no row has. */
  lemma FreshPod(s: State) returns (i: InstanceId, pod: PodName)
    ensures i !in s.rows && forall j :: !HasPod(s.rows, pod, j)
  {
    i := BoundOf(s.rows.Keys);
    var pods := set j | j in s.rows :: s.rows[j].pod;
    pod := BoundOf(pods);
    assert forall j :: j in s.rows ==> s.rows[j].pod in pods;
  }

  /** A claim under way for a tenant that is not the conversation's gets a pod of that tenant. */
  lemma ForeignClaimGoesWrong(s: State, t: ThreadId)
    requires t in s.threads && s.threads[t].Claiming?
    requires s.threads[t].conv in s.tenantOf ==> s.tenantOf[s.threads[t].conv] != s.threads[t].tenant
    ensures CanGoWrong(s)
  {
    var Claiming(c, tenant, profile) := s.threads[t];
    var i, pod := FreshPod(s);
    var beat := Heartbeat(tenant, Some(profile), pod, i, 0);
    var s1 := Next(s, beat);
    var claim := EnsureClaim(t, Some(i), s.rows.Keys, 0);
    assert Picks(s1.rows, tenant, profile, s.rows.Keys, i);
    var s2 := Next(s1, claim);
    var s3 := Next(s2, EnsureSet(t, true));
    assert c in s3.route && s3.route[c] == i && s3.rows[i].tenant == tenant;
    GoesWrongNow(s3);
    GoesWrongLater(s2, EnsureSet(t, true));
    GoesWrongLater(s1, claim);
    GoesWrongLater(s, beat);
  }

  /** A release about to update the row of an instance that is routed. */
  lemma LateUpdateGoesWrong(s: State, t: ThreadId, c: ConvId)
    requires t in s.threads && s.threads[t].Releasing? && Routed(s, c, s.threads[t].inst)
    ensures CanGoWrong(s)
  {
    var s1 := Next(s, ReleaseUpdate(t, true, 0));
    assert Routed(s1, c, s.threads[t].inst) && s.threads[t].inst !in s1.owner;
    GoesWrongNow(s1);
    GoesWrongLater(s, ReleaseUpdate(t, true, 0));
  }

  /** A conversation may claim a warm row again while a release of the row is still under way. */
  lemma ReclaimGoesWrong(s: State, t: ThreadId, c: ConvId)
    requires t in s.threads && s.threads[t].Releasing? && c !in s.route && c in s.tenantOf
    requires s.threads[t].inst in s.rows && s.rows[s.threads[t].inst].profile.Some?
    requires Claimable(s.rows, s.tenantOf[c], s.rows[s.threads[t].inst].profile.value, s.threads[t].inst)
    ensures CanGoWrong(s)
  {
    var i, tenant := s.threads[t].inst, s.tenantOf[c];
    var profile := s.rows[i].profile.value;
    var u := FreshThread(s);
    var lookup := EnsureLookup(u, c, tenant, profile, true);
    var s1 := Next(s, lookup);
    var claim := EnsureClaim(u, Some(i), s.rows.Keys - {i}, 0);
    assert Picks(s1.rows, tenant, profile, s.rows.Keys - {i}, i);
    var s2 := Next(s1, claim);
    var s3 := Next(s2, EnsureSet(u, true));
    LateUpdateGoesWrong(s3, t, c);
    GoesWrongLater(s2, EnsureSet(u, true));
    GoesWrongLater(s1, claim);
    GoesWrongLater(s, lookup);
  }

  /** Two releases that have both read the route. */
  lemma DoubleReleaseGoesWrong(s: State, t: ThreadId, u: ThreadId, c: ConvId, i: InstanceId)
    requires t != u && At(s, t, Dropping(c, i)) && At(s, u, Dropping(c, i))
    requires i in s.owner && s.owner[i] == c && OwnedInTenant(s, i)
    ensures CanGoWrong(s)
  {
    var s1 := Next(s, ReleaseDelete(t, true));
    var s2 := Next(s1, ReleaseUpdate(t, true, 0));
    var s3 := Next(s2, ReleaseDelete(u, true));
    ReclaimGoesWrong(s3, u, c);
    GoesWrongLater(s2, ReleaseDelete(u, true));
    GoesWrongLater(s1, ReleaseUpdate(t, true, 0));
    GoesWrongLater(s, ReleaseDelete(t, true));
  }

  /** A row released between its claim and the setting of its route. */
  lemma EarlyRouteGoesWrong(s: State, t: ThreadId, c: ConvId, i: InstanceId)
    requires At(s, t, Routing(c, i)) && Routed(s, c, i)
    requires forall t' :: t' in s.threads ==> !Releases(s.threads[t'], i)
    ensures CanGoWrong(s)
  {
    var u := FreshThread(s);
    var s1 := Next(s, ReleaseLookup(u, c, true));
    var s2 := Next(s1, ReleaseDelete(u, true));
    var s3 := Next(s2, ReleaseUpdate(u, true, 0));
    var s4 := Next(s3, EnsureSet(t, true));
    assert Routed(s4, c, i) && i !in s4.owner;
    GoesWrongNow(s4);
    GoesWrongLater(s3, EnsureSet(t, true));
    GoesWrongLater(s2, ReleaseUpdate(u, true, 0));
    GoesWrongLater(s1, ReleaseDelete(u, true));
    GoesWrongLater(s, ReleaseLookup(u, c, true));
  }

  lemma BadAnnouncementGoesWrong(s: State, t: ThreadId)
    requires Inv(s) && Enabled(s, AnnounceSet(t, true)) && !Disciplined(s, AnnounceSet(t, true))
    ensures CanGoWrong(Next(s, AnnounceSet(t, true)))
  {
    var c, i, s' := s.threads[t].conv, s.threads[t].inst, Next(s, AnnounceSet(t, true));
    assert Routed(s', c, i);
    if i in s.owner && s.owner[i] == c {
      var u :| u in s.threads && Holds(s.threads[u], i) && !s.threads[u].Dropping?;
      assert ThreadOk(s, u) && u in s'.threads;
      if s.threads[u].Releasing? {
        LateUpdateGoesWrong(s', u, c);
      } else {
        EarlyRouteGoesWrong(s', u, c, i);
      }
    } else {
      GoesWrongNow(s');
    }
  }

  /** Every step outside the discipline opens the way to an unsafe state. */
  lemma UndisciplinedStepGoesWrong(s: State, l: Label)
    requires Inv(s) && Enabled(s, l) && !Disciplined(s, l)
    ensures CanGoWrong(Next(s, l))
  {
    match l
    case EnsureLookup(t, _, _, _, _) => ForeignClaimGoesWrong(Next(s, l), t);
    case ReleaseLookup(t, c, _) =>
      var i := s.route[c];
      var u :| u in s.threads && Releases(s.threads[u], i);
      assert ThreadOk(s, u) && OwnedInTenant(s, i);
      DoubleReleaseGoesWrong(Next(s, l), t, u, c, i);
    case ReleaseDelete(t, _) => LateUpdateGoesWrong(Next(s, l), t, s.threads[t].conv);
    case AnnounceSet(t, _) => BadAnnouncementGoesWrong(s, t);
  }

  lemma InvStaysSafe(s: State)
    requires Inv(s)
    ensures !CanGoWrong(s)
  {
    forall ls | Possible(s, ls) && AllDisciplined(s, ls) ensures Safe(Run(s, ls)) {
      RunKeepsInv(s, ls);
      InvIsSafe(Run(s, ls));
    }
  }

  /** The discipline is exactly what safety needs: from a state with the invariant, a step keeps the
      discipline if and only if no disciplined continuation after it reaches an unsafe state. */
  lemma GuardIsExact(s: State, l: Label)
    requires Inv(s) && Enabled(s, l)
    ensures Disciplined(s, l) <==> !CanGoWrong(Next(s, l))
  {
    if Disciplined(s, l) {
      StepKeepsInv(s, l);
      InvStaysSafe(Next(s, l));
    } else {
      UndisciplinedStepGoesWrong(s, l);
    }
  }

  // ---------- Each hypothesis is needed ----------

  /** The four hypotheses on the protocol, each dropped in turn. */
  datatype Slip = ForeignTenant | SecondRelease | LostDelete | ForeignAnnouncement

  predicate Excused(l: Label, slip: Slip) {
    match slip
    case ForeignTenant => l.EnsureLookup?
    case SecondRelease => l.ReleaseLookup?
    case LostDelete => l.ReleaseDelete?
    case ForeignAnnouncement => l.AnnounceSet?
  }

  /** Some run goes wrong that breaks the given hypothesis once and keeps the others. */
  ghost predicate CanFail(s: State, slip: Slip) {
    exists ls, l :: Slips(s, ls, l, slip)
  }

  ghost predicate Slips(s: State, ls: seq<Label>, l: Label, slip: Slip) {
    && Possible(s, ls) && AllDisciplined(s, ls)
    && Excused(l, slip) && Enabled(Run(s, ls), l) && CanGoWrong(Next(Run(s, ls), l))
  }

  lemma FailsNow(s: State, l: Label, slip: Slip)
    requires Inv(s) && Enabled(s, l) && !Disciplined(s, l) && Excused(l, slip)
    ensures CanFail(s, slip)
  {
    UndisciplinedStepGoesWrong(s, l);
    assert Possible(s, []) && AllDisciplined(s, []) && Run(s, []) == s;
    assert Slips(s, [], l, slip);
  }

  lemma FailsLater(s: State, l: Label, slip: Slip)
    requires Enabled(s, l) && Disciplined(s, l) && CanFail(Next(s, l), slip)
    ensures CanFail(s, slip)
  {
    var s' := Next(s, l);
    var ls, bad :| Slips(s', ls, bad, slip);
    assert ([l] + ls)[1..] == ls;
    assert Possible(s, [l] + ls) && AllDisciplined(s, [l] + ls) && Run(s, [l] + ls) == Run(s', ls);
    assert Slips(s, [l] + ls, bad, slip);
  }

  /** What a conversation has once its claim went through. */
  function WithClaim(s: State, c: ConvId, i: InstanceId, now: int): State
    requires i in s.rows
  {
    s.(rows := s.rows[i := Claimed(s.rows[i], now)], owner := s.owner[i := c],
       route := s.route[c := i], gauge := s.gauge + 1)
  }

  lemma RoutingComesFirst(s: State, c: ConvId, i: InstanceId, slip: Slip)
    requires s.threads == map[] && CanFail(s.(route := s.route[c := i], gauge := s.gauge + 1), slip)
    ensures CanFail(s.(threads := map[0 := Routing(c, i)]), slip)
  {
    var s1 := s.(threads := map[0 := Routing(c, i)]);
    var s2 := Next(s1, EnsureSet(0, true));
    assert Next(s2, EnsureCount(0)).threads == map[];
    FailsLater(s2, EnsureCount(0), slip);
    FailsLater(s1, EnsureSet(0, true), slip);
  }

  lemma TakingStep(s: State, c: ConvId, tenant: TenantId, profile: ProfileId, i: InstanceId, now: int)
    requires Picks(s.rows, tenant, profile, {}, i)
    ensures var asked, claim := s.(threads := map[0 := Claiming(c, tenant, profile)]), EnsureClaim(0, Some(i), {}, now);
            && Enabled(asked, claim)
            && Next(asked, claim)
               == s.(rows := s.rows[i := Claimed(s.rows[i], now)], owner := s.owner[i := c],
                     threads := map[0 := Routing(c, i)])
  {
    assert map[0 := Claiming(c, tenant, profile)][0 := Routing(c, i)] == map[0 := Routing(c, i)];
  }

  lemma TakingComesFirst(s: State, c: ConvId, tenant: TenantId, profile: ProfileId, i: InstanceId, now: int, slip: Slip)
    requires Picks(s.rows, tenant, profile, {}, i)
    requires CanFail(s.(rows := s.rows[i := Claimed(s.rows[i], now)], owner := s.owner[i := c],
                        threads := map[0 := Routing(c, i)]), slip)
    ensures CanFail(s.(threads := map[0 := Claiming(c, tenant, profile)]), slip)
  {
    var asked, claim := s.(threads := map[0 := Claiming(c, tenant, profile)]), EnsureClaim(0, Some(i), {}, now);
    TakingStep(s, c, tenant, profile, i, now);
    FailsLater(asked, claim, slip);
  }

  lemma AskingComesFirst(s: State, c: ConvId, profile: ProfileId, slip: Slip)
    requires s.threads == map[] && c !in s.route && c in s.tenantOf
    requires CanFail(s.(threads := map[0 := Claiming(c, s.tenantOf[c], profile)]), slip)
    ensures CanFail(s, slip)
  {
    FailsLater(s, EnsureLookup(0, c, s.tenantOf[c], profile, true), slip);
  }

  /** What can fail once a conversation has claimed a pod can fail before. */
  lemma ClaimingComesFirst(s: State, c: ConvId, i: InstanceId, profile: ProfileId, now: int, slip: Slip)
    requires s.threads == map[] && c !in s.route && c in s.tenantOf && Picks(s.rows, s.tenantOf[c], profile, {}, i)
    requires CanFail(WithClaim(s, c, i, now), slip)
    ensures CanFail(s, slip)
  {
    var taken := s.(rows := s.rows[i := Claimed(s.rows[i], now)], owner := s.owner[i := c]);
    assert taken.(route := taken.route[c := i], gauge := taken.gauge + 1) == WithClaim(s, c, i, now);
    RoutingComesFirst(taken, c, i, slip);
    TakingComesFirst(s, c, s.tenantOf[c], profile, i, now, slip);
    AskingComesFirst(s, c, profile, slip);
  }

  /** A pool in which nothing happened yet: one warm pod, and the conversation 10 of its tenant. */
  function WarmPod(): State {
    State(map[1 := Row(0, Some(0), 7, Warm, None, None, 0)], map[], 0, map[], map[], map[10 := 0])
  }

  /** The pod claimed by the conversation, between operations. */
  function ClaimedPod(): State { WithClaim(WarmPod(), 10, 1, 0) }

  lemma StartsAreSound()
    ensures Initial(WarmPod()) && Inv(WarmPod()) && Inv(ClaimedPod())
  {
    assert OwnedInTenant(ClaimedPod(), 1);
  }

  /** A conversation that starts its release again may release the row of its next claim. */
  lemma SecondReleaseFails(s: State, c: ConvId)
    requires Inv(s) && s.threads == map[] && c in s.route
    ensures CanFail(s, SecondRelease)
  {
    var l := ReleaseLookup(1, c, true);
    var s' := Next(s, l);
    StepKeepsInv(s, l);
    assert 1 in s'.threads && Releases(s'.threads[1], s'.route[c]);
    FailsNow(s', ReleaseLookup(2, c, true), SecondRelease);
    FailsLater(s, l, SecondRelease);
  }

  lemma LostDeleteFails(s: State, c: ConvId)
    requires Inv(s) && s.threads == map[] && c in s.route
    ensures CanFail(s, LostDelete)
  {
    var l := ReleaseLookup(1, c, true);
    StepKeepsInv(s, l);
    FailsNow(Next(s, l), ReleaseDelete(1, false), LostDelete);
    FailsLater(s, l, LostDelete);
  }

  lemma ForeignAnnouncementFails(s: State, c: ConvId, pod: PodName, i: InstanceId)
    requires Inv(s) && s.threads == map[] && s.owner == map[] && HasPod(s.rows, pod, i)
    ensures CanFail(s, ForeignAnnouncement)
  {
    var l := AnnounceLookup(1, c, pod, Some(i));
    StepKeepsInv(s, l);
    FailsNow(Next(s, l), AnnounceSet(1, true), ForeignAnnouncement);
    FailsLater(s, l, ForeignAnnouncement);
  }

  lemma PodIsWarm()
    ensures var s := WarmPod();
            s.threads == map[] && 10 !in s.route && 10 in s.tenantOf && Picks(s.rows, s.tenantOf[10], 0, {}, 1)
  {
  }

  lemma PodIsClaimed(slip: Slip)
    requires CanFail(ClaimedPod(), slip)
    ensures CanFail(WarmPod(), slip)
  {
    var s := WarmPod();
    PodIsWarm();
    ClaimingComesFirst(s, 10, 1, 0, 0, slip);
  }

  /** Asking in a foreign tenant routes a conversation to a pod of that tenant. */
  lemma ForeignTenantIsUnsafe()
    ensures Initial(WarmPod()) && CanFail(WarmPod(), ForeignTenant)
  {
    StartsAreSound();
    FailsNow(WarmPod(), EnsureLookup(0, 10, 5, 0, true), ForeignTenant);
  }

  /** Two releases of one instance in flight: the second releases the row of its next claim. */
  lemma DoubleReleaseIsUnsafe()
    ensures Initial(WarmPod()) && CanFail(WarmPod(), SecondRelease)
  {
    StartsAreSound();
    SecondReleaseFails(ClaimedPod(), 10);
    PodIsClaimed(SecondRelease);
  }

  /** A release that goes on over a failed route deletion leaves a route to a warm row. */
  lemma LostDeleteIsUnsafe()
    ensures Initial(WarmPod()) && CanFail(WarmPod(), LostDelete)
  {
    StartsAreSound();
    LostDeleteFails(ClaimedPod(), 10);
    PodIsClaimed(LostDelete);
  }

  /** An agent_start after a pool dispatch routes a conversation to a warm pod it never claimed. */
  lemma ForeignAnnouncementIsUnsafe()
    ensures Initial(WarmPod()) && CanFail(WarmPod(), ForeignAnnouncement)
  {
    StartsAreSound();
    assert HasPod(WarmPod().rows, 7, 1);
    ForeignAnnouncementFails(WarmPod(), 10, 7, 1);
  }
}
