/**
  The claim protocol over Redis. Several gateways, each with its own faulty connection, share one Redis
  server as their routing table. Whatever fails, every run of this system is a run of the protocol of
  module WarmPool: a call is a routing step that the table answered or did not answer, and the time that
  passes is a series of expiries.
 */
module PoolRoutes {
  import opened Resp
  import opened RoutingTables
  import WarmPool

  type ClientId = nat
  type Routes = map<WarmPool.ConvId, WarmPool.InstanceId>

  /** How identifiers are written. */
  datatype Names = Names(conv: WarmPool.ConvId -> Bytes, inst: WarmPool.InstanceId -> Bytes)

  /** Different identifiers have different names, and the name of an instance is not empty. */
  ghost predicate Proper(names: Names) {
    && (forall c, d :: names.conv(c) == names.conv(d) ==> c == d)
    && (forall i, j :: names.inst(i) == names.inst(j) ==> i == j)
    && (forall i :: names.inst(i) != [])
  }

  // ---------- The system ----------

  /** The rest is the protocol state but for the routes, which are in the store. */
  datatype System = System(rest: WarmPool.State, store: Store, conns: map<ClientId, Conn>, now: int)

  /** A step of a gateway, with what goes wrong on its connection, or the passing of time. */
  datatype Event = Call(step: WarmPool.Label, client: ClientId, faults: Faults) | Wait(until: int)

  predicate IsLookup(l: WarmPool.Label) { l.EnsureLookup? || l.ReleaseLookup? }

  predicate IsSet(l: WarmPool.Label) { l.EnsureSet? || l.AnnounceSet? }

  predicate IsDrop(l: WarmPool.Label) { l.ReleaseDelete? || l.Clear? }

  ghost predicate Enabled(y: System, e: Event) {
    match e
    case Wait(until) => y.now <= until
    case Call(l, g, _) => g in y.conns && !l.Expire? && WarmPool.Enabled(y.rest, l)
  }

  /** What a gateway knows of the routes after a lookup. */
  ghost function Seen(c: WarmPool.ConvId, answer: Bytes, names: Names): Routes {
    if exists i :: names.inst(i) == answer then
      var i :| names.inst(i) == answer;
      map[c := i]
    else map[]
  }

  /** The label for a routing call that was answered or not. */
  function Answered(l: WarmPool.Label, ok: bool): WarmPool.Label
    requires IsLookup(l) || IsSet(l) || l.ReleaseDelete?
  {
    l.(ok := ok)
  }

  ghost predicate Ready(y: System, l: WarmPool.Label, g: ClientId) { g in y.conns && WarmPool.Enabled(y.rest, l) }

  ghost function AfterLookup(y: System, l: WarmPool.Label, g: ClientId, f: Faults, names: Names): System
    requires Ready(y, l, g) && IsLookup(l)
  {
    var (conn, answer) := GetBy(y.store, y.conns[g], names.conv(l.conv), f, y.now);
    var seen := y.rest.(route := Seen(l.conv, answer, names));
    System(WarmPool.Next(seen, Answered(l, true)).(route := map[]), y.store, y.conns[g := conn], y.now)
  }

  ghost function AfterSet(y: System, l: WarmPool.Label, g: ClientId, f: Faults, names: Names): System
    requires Ready(y, l, g) && IsSet(l)
  {
    var pc := y.rest.threads[l.thread];
    var (store, conn) := SetBy(y.store, y.conns[g], names.conv(pc.conv), names.inst(pc.inst), 0, f, y.now);
    System(WarmPool.Next(y.rest, Answered(l, false)), store, y.conns[g := conn], y.now)
  }

  ghost function AfterDrop(y: System, l: WarmPool.Label, g: ClientId, f: Faults, names: Names): System
    requires Ready(y, l, g) && IsDrop(l)
  {
    var c := if l.Clear? then l.conv else y.rest.threads[l.thread].conv;
    var (store, conn) := DeleteBy(y.store, y.conns[g], names.conv(c), f, y.now);
    var rest := if l.Clear? then y.rest else WarmPool.Next(y.rest, Answered(l, false));
    System(rest, store, y.conns[g := conn], y.now)
  }

  ghost function Next(y: System, e: Event, names: Names): System
    requires Enabled(y, e)
  {
    match e
    case Wait(until) => y.(now := until)
    case Call(l, g, f) =>
      if IsLookup(l) then AfterLookup(y, l, g, f, names)
      else if IsSet(l) then AfterSet(y, l, g, f, names)
      else if IsDrop(l) then AfterDrop(y, l, g, f, names)
      else y.(rest := WarmPool.Next(y.rest, l))
  }

  /** What the gateway gets from a lookup. */
  ghost function Answer(y: System, l: WarmPool.Label, g: ClientId, f: Faults, names: Names): Bytes
    requires g in y.conns && IsLookup(l)
  {
    GetBy(y.store, y.conns[g], names.conv(l.conv), f, y.now).1
  }

  /** The protocol steps of a gateway's call: a routing call is its step with the answer it had, or nothing
      for a clear that does not reach the server, and any other step is itself. */
  ghost function StepsOf(y: System, e: Event, names: Names): seq<WarmPool.Label>
    requires Enabled(y, e) && e.Call?
  {
    var Call(l, g, f) := e;
    var reached := Reaches(y.conns[g], f);
    if IsLookup(l) then [Answered(l, Answer(y, l, g, f, names) != [])]
    else if IsSet(l) || l.ReleaseDelete? then [Answered(l, reached)]
    else if l.Clear? && !reached then []
    else [l]
  }

  /** The protocol steps are those of the event; the passing of time is a series of expiries. */
  ghost predicate Realizes(y: System, e: Event, ls: seq<WarmPool.Label>, names: Names)
    requires Enabled(y, e)
  {
    if e.Wait? then forall k :: 0 <= k < |ls| ==> ls[k].Expire? else ls == StepsOf(y, e, names)
  }

  /** What exclusive use asks of the gateways and of the faults they meet: the instance that a release finds
      is not being released; a deletion reaches the server, unless the route is another one by then; and
      an announcement that reaches the server names an instance that its conversation has claimed and not
      released. */
  ghost predicate Steady(y: System, e: Event, names: Names)
    requires Enabled(y, e)
  {
    e.Wait? ||
    var Call(l, g, f) := e;
    match l
    case ReleaseLookup(_, _, _) =>
      var answer := Answer(y, l, g, f, names);
      forall t :: t in y.rest.threads ==> !ReleasesNamed(y, t, answer, names)
    case ReleaseDelete(t, _) =>
      var pc := y.rest.threads[t];
      Reaches(y.conns[g], f) || RouteIn(y.store, names.conv(pc.conv), y.now) != names.inst(pc.inst)
    case AnnounceSet(t, _) =>
      Reaches(y.conns[g], f) ==> WarmPool.HasClaimed(y.rest, y.rest.threads[t].conv, y.rest.threads[t].inst)
    case _ => true
  }

  /** And a conversation that finds no route asks in its own tenant. */
  ghost predicate Orderly(y: System, e: Event, names: Names)
    requires Enabled(y, e)
  {
    Steady(y, e, names) &&
    (e.Call? && e.step.EnsureLookup? && Answer(y, e.step, e.client, e.faults, names) == [] ==>
       e.step.conv in y.rest.tenantOf && y.rest.tenantOf[e.step.conv] == e.step.tenant)
  }

  /** The operation is a release of the instance with the given name. */
  ghost predicate ReleasesNamed(y: System, t: WarmPool.ThreadId, name: Bytes, names: Names)
    requires t in y.rest.threads
  {
    var pc := y.rest.threads[t];
    (pc.Dropping? || pc.Releasing?) && names.inst(pc.inst) == name
  }

  ghost predicate Possible(y: System, es: seq<Event>, names: Names)
    decreases |es|
  {
    es != [] ==> Enabled(y, es[0]) && Possible(Next(y, es[0], names), es[1..], names)
  }

  ghost function Run(y: System, es: seq<Event>, names: Names): System
    requires Possible(y, es, names)
    decreases |es|
  {
    if es == [] then y else Run(Next(y, es[0], names), es[1..], names)
  }

  // ---------- The protocol state of a system ----------

  ghost predicate ShowsOne(s: Store, now: int, route: Routes, names: Names, c: WarmPool.ConvId) {
    var key := Key(names.conv(c));
    && (c in route <==> Live(s, key, now))
    && (c in route ==> s[key].value == names.inst(route[c]))
  }

  /** The live entries of the store are the routes. */
  ghost predicate Shows(s: Store, now: int, route: Routes, names: Names) {
    forall c :: ShowsOne(s, now, route, names, c)
  }

  ghost predicate AllInStep(conns: map<ClientId, Conn>) { forall g :: g in conns ==> InStep(conns[g]) }

  /** The protocol state is the rest of the system with the live entries as its routes. */
  ghost predicate Matches(y: System, s: WarmPool.State, names: Names) {
    && s == y.rest.(route := s.route) && y.rest.route == map[]
    && Shows(y.store, y.now, s.route, names) && AllInStep(y.conns)
  }

  lemma StoredShows(s: Store, now: int, route: Routes, names: Names, c: WarmPool.ConvId, i: WarmPool.InstanceId)
    requires Proper(names) && Shows(s, now, route, names)
    ensures Shows(Stored(s, names.conv(c), names.inst(i), Seconds(0), now), now, route[c := i], names)
  {
    var s' := Stored(s, names.conv(c), names.inst(i), Seconds(0), now);
    var route' := route[c := i];
    forall d ensures ShowsOne(s', now, route', names, d) {
      assert ShowsOne(s, now, route, names, d);
      if Key(names.conv(d)) == Key(names.conv(c)) {
        KeyIsInjective(names.conv(d), names.conv(c));
      }
    }
  }

  lemma DeletedShows(s: Store, now: int, route: Routes, names: Names, c: WarmPool.ConvId)
    requires Proper(names) && Shows(s, now, route, names)
    ensures Shows(s - {Key(names.conv(c))}, now, route - {c}, names)
  {
    var s' := s - {Key(names.conv(c))};
    var route' := route - {c};
    forall d ensures ShowsOne(s', now, route', names, d) {
      assert ShowsOne(s, now, route, names, d);
      if Key(names.conv(d)) == Key(names.conv(c)) {
        KeyIsInjective(names.conv(d), names.conv(c));
      }
    }
  }

  // ---------- One call ----------

  /** A gateway that gets the name of an instance knows the instance, and one that gets nothing knows none. */
  lemma SeenRoute(c: WarmPool.ConvId, i: WarmPool.InstanceId, names: Names)
    requires Proper(names)
    ensures Seen(c, names.inst(i), names) == map[c := i] && Seen(c, [], names) == map[]
  {
  }

  /** A lookup gives the route or nothing, whatever fails. */
  lemma LookupIsAnswered(s: Store, conn: Conn, c: WarmPool.ConvId, f: Faults, now: int, route: Routes, names: Names)
    requires Proper(names) && Shows(s, now, route, names) && InStep(conn)
    ensures var (conn', answer) := GetBy(s, conn, names.conv(c), f, now);
            && InStep(conn')
            && (answer != [] ==> c in route && Seen(c, answer, names) == map[c := route[c]])
            && (answer == [] ==> Seen(c, answer, names) == map[])
  {
    GetAnswers(s, conn, names.conv(c), f, now);
    assert ShowsOne(s, now, route, names, c);
    SeenRoute(c, if c in route then route[c] else 0, names);
  }

  /** A write sets the route exactly when it reaches the server, whatever else fails. */
  lemma SetIsAnswered(s: Store, conn: Conn, c: WarmPool.ConvId, i: WarmPool.InstanceId, f: Faults, now: int,
      route: Routes, names: Names)
    requires Proper(names) && Shows(s, now, route, names) && InStep(conn)
    ensures var (s', conn') := SetBy(s, conn, names.conv(c), names.inst(i), 0, f, now);
            InStep(conn') && Shows(s', now, if Reaches(conn, f) then route[c := i] else route, names)
  {
    SetAnswers(s, conn, names.conv(c), names.inst(i), f, now);
    StoredShows(s, now, route, names, c, i);
  }

  /** A deletion drops the route exactly when it reaches the server, whatever else fails. */
  lemma DropIsAnswered(s: Store, conn: Conn, c: WarmPool.ConvId, f: Faults, now: int, route: Routes, names: Names)
    requires Proper(names) && Shows(s, now, route, names) && InStep(conn)
    ensures var (s', conn') := DeleteBy(s, conn, names.conv(c), f, now);
            InStep(conn') && Shows(s', now, if Reaches(conn, f) then route - {c} else route, names)
  {
    DeleteAnswers(s, conn, names.conv(c), f, now);
    DeletedShows(s, now, route, names, c);
  }

  // ---------- One event ----------

  predicate IsRouting(l: WarmPool.Label) { IsLookup(l) || IsSet(l) || IsDrop(l) || l.Expire? }

  /** Steps that are not on the routing table do not depend on the routes. */
  lemma RowStepIgnoresRoutes(s: WarmPool.State, route: Routes, l: WarmPool.Label)
    requires WarmPool.Enabled(s, l) && (l.EnsureClaim? || l.ReleaseUpdate? || l.Heartbeat?)
    ensures WarmPool.Enabled(s.(route := route), l)
    ensures WarmPool.Next(s.(route := route), l) == WarmPool.Next(s, l).(route := route)
    ensures WarmPool.Next(s, l).route == s.route
  {
  }

  lemma CountStepIgnoresRoutes(s: WarmPool.State, route: Routes, l: WarmPool.Label)
    requires WarmPool.Enabled(s, l) && (l.EnsureCount? || l.ReleaseCount? || l.AnnounceLookup?)
    ensures WarmPool.Enabled(s.(route := route), l)
    ensures WarmPool.Next(s.(route := route), l) == WarmPool.Next(s, l).(route := route)
    ensures WarmPool.Next(s, l).route == s.route
  {
  }

  /** A lookup depends on the route of its own conversation only. */
  lemma HitIsLocal(s: WarmPool.State, route: Routes, l: WarmPool.Label)
    requires IsLookup(l) && WarmPool.Enabled(s, l) && l.conv in route
    ensures WarmPool.Next(s.(route := route), Answered(l, true))
            == WarmPool.Next(s.(route := map[l.conv := route[l.conv]]), Answered(l, true)).(route := route)
  {
  }

  lemma MissIsLocal(s: WarmPool.State, route: Routes, l: WarmPool.Label)
    requires IsLookup(l) && WarmPool.Enabled(s, l)
    ensures WarmPool.Next(s.(route := route), Answered(l, false))
            == WarmPool.Next(s.(route := map[]), Answered(l, true)).(route := route)
  {
  }

  lemma SetIsLocal(s: WarmPool.State, route: Routes, l: WarmPool.Label, ok: bool)
    requires IsSet(l) && WarmPool.Enabled(s, l)
    ensures var pc := s.threads[l.thread];
            WarmPool.Next(s.(route := route), Answered(l, ok))
            == WarmPool.Next(s, Answered(l, false)).(route := if ok then route[pc.conv := pc.inst] else route)
    ensures WarmPool.Next(s, Answered(l, false)).route == s.route
  {
  }

  lemma DropIsLocal(s: WarmPool.State, route: Routes, l: WarmPool.Label, ok: bool)
    requires l.ReleaseDelete? && WarmPool.Enabled(s, l)
    ensures WarmPool.Next(s.(route := route), Answered(l, ok))
            == WarmPool.Next(s, Answered(l, false)).(route := if ok then route - {s.threads[l.thread].conv} else route)
    ensures WarmPool.Next(s, Answered(l, false)).route == s.route
  {
  }

  lemma MatchesAgain(y: System, rest: WarmPool.State, store: Store, g: ClientId, conn: Conn, route: Routes,
      names: Names)
    requires AllInStep(y.conns) && InStep(conn) && rest.route == map[] && Shows(store, y.now, route, names)
    ensures Matches(System(rest, store, y.conns[g := conn], y.now), rest.(route := route), names)
  {
  }

  /** The lookup of a system and that of the protocol leave the same operations in flight. */
  lemma LookupsAgree(rest: WarmPool.State, route: Routes, l: WarmPool.Label, answer: Bytes, names: Names)
    requires rest.route == map[] && IsLookup(l) && WarmPool.Enabled(rest, l)
    requires answer != [] ==> l.conv in route && Seen(l.conv, answer, names) == map[l.conv := route[l.conv]]
    requires answer == [] ==> Seen(l.conv, answer, names) == map[]
    ensures WarmPool.Next(rest.(route := route), Answered(l, answer != []))
            == WarmPool.Next(rest.(route := Seen(l.conv, answer, names)), Answered(l, true)).(route := route)
  {
    if answer != [] {
      HitIsLocal(rest, route, l);
    } else {
      MissIsLocal(rest, route, l);
    }
  }

  lemma LookupMatches(y: System, s: WarmPool.State, l: WarmPool.Label, g: ClientId, f: Faults, names: Names)
    requires Proper(names) && Matches(y, s, names) && Ready(y, l, g) && IsLookup(l)
    ensures var ok := Answer(y, l, g, f, names) != [];
            Matches(AfterLookup(y, l, g, f, names), WarmPool.Next(s, Answered(l, ok)), names)
  {
    var (conn, answer) := GetBy(y.store, y.conns[g], names.conv(l.conv), f, y.now);
    LookupIsAnswered(y.store, y.conns[g], l.conv, f, y.now, s.route, names);
    LookupsAgree(y.rest, s.route, l, answer, names);
    MatchesAgain(y, AfterLookup(y, l, g, f, names).rest, y.store, g, conn, s.route, names);
  }

  lemma SetMatches(y: System, s: WarmPool.State, l: WarmPool.Label, g: ClientId, f: Faults, names: Names)
    requires Proper(names) && Matches(y, s, names) && Ready(y, l, g) && IsSet(l)
    ensures var ok := Reaches(y.conns[g], f);
            Matches(AfterSet(y, l, g, f, names), WarmPool.Next(s, Answered(l, ok)), names)
  {
    var pc, ok := s.threads[l.thread], Reaches(y.conns[g], f);
    var (store, conn) := SetBy(y.store, y.conns[g], names.conv(pc.conv), names.inst(pc.inst), 0, f, y.now);
    SetIsAnswered(y.store, y.conns[g], pc.conv, pc.inst, f, y.now, s.route, names);
    SetIsLocal(y.rest, s.route, l, ok);
    var route := if ok then s.route[pc.conv := pc.inst] else s.route;
    MatchesAgain(y, AfterSet(y, l, g, f, names).rest, store, g, conn, route, names);
  }

  lemma DropMatches(y: System, s: WarmPool.State, l: WarmPool.Label, g: ClientId, f: Faults, names: Names)
    requires Proper(names) && Matches(y, s, names) && Ready(y, l, g) && l.ReleaseDelete?
    ensures var ok := Reaches(y.conns[g], f);
            Matches(AfterDrop(y, l, g, f, names), WarmPool.Next(s, Answered(l, ok)), names)
  {
    var c, ok := s.threads[l.thread].conv, Reaches(y.conns[g], f);
    var (store, conn) := DeleteBy(y.store, y.conns[g], names.conv(c), f, y.now);
    DropIsAnswered(y.store, y.conns[g], c, f, y.now, s.route, names);
    DropIsLocal(y.rest, s.route, l, ok);
    MatchesAgain(y, AfterDrop(y, l, g, f, names).rest, store, g, conn, if ok then s.route - {c} else s.route, names);
  }

  lemma ClearMatches(y: System, s: WarmPool.State, l: WarmPool.Label, g: ClientId, f: Faults, names: Names)
    requires Proper(names) && Matches(y, s, names) && Ready(y, l, g) && l.Clear?
    ensures Matches(AfterDrop(y, l, g, f, names), if Reaches(y.conns[g], f) then WarmPool.Next(s, l) else s, names)
  {
    var ok := Reaches(y.conns[g], f);
    var (store, conn) := DeleteBy(y.store, y.conns[g], names.conv(l.conv), f, y.now);
    DropIsAnswered(y.store, y.conns[g], l.conv, f, y.now, s.route, names);
    MatchesAgain(y, y.rest, store, g, conn, if ok then s.route - {l.conv} else s.route, names);
  }

  lemma RoutingStep(y: System, s: WarmPool.State, e: Event, names: Names)
    requires Proper(names) && Matches(y, s, names) && Enabled(y, e) && e.Call? && IsRouting(e.step)
    ensures WarmPool.Possible(s, StepsOf(y, e, names))
    ensures Matches(Next(y, e, names), WarmPool.Run(s, StepsOf(y, e, names)), names)
  {
    var Call(l, g, f) := e;
    if IsLookup(l) {
      LookupMatches(y, s, l, g, f, names);
    } else if IsSet(l) {
      SetMatches(y, s, l, g, f, names);
    } else if l.ReleaseDelete? {
      DropMatches(y, s, l, g, f, names);
    } else {
      ClearMatches(y, s, l, g, f, names);
    }
    if StepsOf(y, e, names) != [] {
      WarmPool.OneStep(s, StepsOf(y, e, names)[0]);
    }
  }

  lemma OtherStep(y: System, s: WarmPool.State, e: Event, names: Names)
    requires Matches(y, s, names) && Enabled(y, e) && e.Call? && !IsRouting(e.step)
    ensures WarmPool.Possible(s, StepsOf(y, e, names))
    ensures Matches(Next(y, e, names), WarmPool.Run(s, StepsOf(y, e, names)), names)
  {
    if e.step.EnsureCount? || e.step.ReleaseCount? || e.step.AnnounceLookup? {
      CountStepIgnoresRoutes(y.rest, s.route, e.step);
    } else {
      RowStepIgnoresRoutes(y.rest, s.route, e.step);
    }
    WarmPool.OneStep(s, e.step);
  }

  lemma CallIsSteps(y: System, s: WarmPool.State, e: Event, names: Names)
    requires Proper(names) && Matches(y, s, names) && Enabled(y, e) && e.Call?
    ensures WarmPool.Possible(s, StepsOf(y, e, names))
    ensures Matches(Next(y, e, names), WarmPool.Run(s, StepsOf(y, e, names)), names)
  {
    if IsRouting(e.step) {
      RoutingStep(y, s, e, names);
    } else {
      OtherStep(y, s, e, names);
    }
  }

  // ---------- Order in the system is discipline in the protocol ----------

  lemma OrderlyLookup(y: System, s: WarmPool.State, l: WarmPool.Label, g: ClientId, f: Faults, names: Names)
    requires Proper(names) && Matches(y, s, names) && Enabled(y, Call(l, g, f)) && IsLookup(l)
    ensures var step := Answered(l, Answer(y, l, g, f, names) != []);
            && (Steady(y, Call(l, g, f), names) <==> WarmPool.Careful(s, step))
            && (Orderly(y, Call(l, g, f), names) <==> WarmPool.Disciplined(s, step))
  {
    var answer := Answer(y, l, g, f, names);
    LookupIsAnswered(y.store, y.conns[g], l.conv, f, y.now, s.route, names);
    GetAnswers(y.store, y.conns[g], names.conv(l.conv), f, y.now);
    assert ShowsOne(y.store, y.now, s.route, names, l.conv);
    if l.ReleaseLookup? {
      forall t | t in s.threads
        ensures ReleasesNamed(y, t, answer, names) <==>
                answer != [] && WarmPool.Releases(s.threads[t], s.route[l.conv])
      {
      }
    }
  }

  lemma OrderlyDelete(y: System, s: WarmPool.State, l: WarmPool.Label, g: ClientId, f: Faults, names: Names)
    requires Proper(names) && Matches(y, s, names) && Enabled(y, Call(l, g, f)) && l.ReleaseDelete?
    ensures Steady(y, Call(l, g, f), names) <==> WarmPool.Careful(s, Answered(l, Reaches(y.conns[g], f)))
  {
    assert ShowsOne(y.store, y.now, s.route, names, s.threads[l.thread].conv);
  }

  lemma OrderlyAnnouncement(y: System, s: WarmPool.State, l: WarmPool.Label, g: ClientId, f: Faults, names: Names)
    requires Matches(y, s, names) && Enabled(y, Call(l, g, f)) && l.AnnounceSet?
    ensures Steady(y, Call(l, g, f), names) <==> WarmPool.Careful(s, Answered(l, Reaches(y.conns[g], f)))
  {
    var pc := s.threads[l.thread];
    assert WarmPool.HasClaimed(s, pc.conv, pc.inst) <==> WarmPool.HasClaimed(y.rest, pc.conv, pc.inst);
  }

  /** A call is steady exactly when its protocol steps are careful, and orderly exactly when they are
      disciplined. */
  lemma OrderlyIsDisciplined(y: System, s: WarmPool.State, e: Event, names: Names)
    requires Proper(names) && Matches(y, s, names) && Enabled(y, e) && e.Call?
    ensures WarmPool.Possible(s, StepsOf(y, e, names))
    ensures Steady(y, e, names) <==> WarmPool.AllCareful(s, StepsOf(y, e, names))
    ensures Orderly(y, e, names) <==> WarmPool.AllDisciplined(s, StepsOf(y, e, names))
  {
    var Call(l, g, f) := e;
    CallIsSteps(y, s, e, names);
    if StepsOf(y, e, names) != [] {
      WarmPool.OneStep(s, StepsOf(y, e, names)[0]);
    }
    if IsLookup(l) {
      OrderlyLookup(y, s, l, g, f, names);
    } else if l.ReleaseDelete? {
      OrderlyDelete(y, s, l, g, f, names);
    } else if l.AnnounceSet? {
      OrderlyAnnouncement(y, s, l, g, f, names);
    }
  }

  /** The routes that are over at a later time. */
  ghost function Expired(s: Store, later: int, route: Routes, names: Names): set<WarmPool.ConvId> {
    set c | c in route && !Live(s, Key(names.conv(c)), later)
  }

  lemma TimePasses(s: Store, now: int, later: int, route: Routes, names: Names)
    requires Shows(s, now, route, names) && now <= later
    ensures Shows(s, later, route - Expired(s, later, route, names), names)
  {
    var route' := route - Expired(s, later, route, names);
    forall c ensures ShowsOne(s, later, route', names, c) {
      assert ShowsOne(s, now, route, names, c);
    }
  }

  lemma {:induction false} ExpiriesAreSteps(s: WarmPool.State, gone: set<WarmPool.ConvId>)
    returns (ls: seq<WarmPool.Label>)
    requires gone <= s.route.Keys
    ensures WarmPool.Possible(s, ls) && WarmPool.AllDisciplined(s, ls) && WarmPool.AllCareful(s, ls)
    ensures WarmPool.Run(s, ls) == s.(route := s.route - gone) && forall k :: 0 <= k < |ls| ==> ls[k].Expire?
    decreases gone
  {
    if gone == {} {
      ls := [];
      assert s.route - gone == s.route;
    } else {
      var c :| c in gone;
      var l := WarmPool.Expire(c);
      var s' := WarmPool.Next(s, l);
      var rest := ExpiriesAreSteps(s', gone - {c});
      ls := [l] + rest;
      assert ls[1..] == rest;
      assert s'.route - (gone - {c}) == s.route - gone;
    }
  }

  lemma WaitStep(y: System, s: WarmPool.State, e: Event, names: Names) returns (ls: seq<WarmPool.Label>)
    requires Matches(y, s, names) && Enabled(y, e) && e.Wait?
    ensures WarmPool.Possible(s, ls) && WarmPool.AllDisciplined(s, ls) && WarmPool.AllCareful(s, ls)
    ensures Matches(Next(y, e, names), WarmPool.Run(s, ls), names) && Realizes(y, e, ls, names)
  {
    TimePasses(y.store, y.now, e.until, s.route, names);
    ls := ExpiriesAreSteps(s, Expired(y.store, e.until, s.route, names));
  }

  /** Every event of the system is its protocol steps; it is steady exactly when they are careful, and orderly
      exactly when they are disciplined. */
  lemma EventIsRun(y: System, s: WarmPool.State, e: Event, names: Names) returns (ls: seq<WarmPool.Label>)
    requires Proper(names) && Matches(y, s, names) && Enabled(y, e)
    ensures Realizes(y, e, ls, names)
    ensures WarmPool.Possible(s, ls) && Matches(Next(y, e, names), WarmPool.Run(s, ls), names)
    ensures Steady(y, e, names) <==> WarmPool.AllCareful(s, ls)
    ensures Orderly(y, e, names) <==> WarmPool.AllDisciplined(s, ls)
  {
    if e.Wait? {
      ls := WaitStep(y, s, e, names);
    } else {
      ls := StepsOf(y, e, names);
      CallIsSteps(y, s, e, names);
      OrderlyIsDisciplined(y, s, e, names);
    }
  }

  /** The guard is exact for the faults too: from a state with the invariant, a call is orderly if and only
      if no disciplined continuation after it reaches an unsafe state. */
  lemma FaultGuardIsExact(y: System, s: WarmPool.State, e: Event, names: Names)
    requires Proper(names) && Matches(y, s, names) && Enabled(y, e) && e.Call? && WarmPool.Inv(s)
    ensures WarmPool.Possible(s, StepsOf(y, e, names))
    ensures Orderly(y, e, names) <==> !WarmPool.CanGoWrong(WarmPool.Run(s, StepsOf(y, e, names)))
  {
    var ls := StepsOf(y, e, names);
    OrderlyIsDisciplined(y, s, e, names);
    if ls == [] {
      WarmPool.InvStaysSafe(s);
    } else {
      WarmPool.OneStep(s, ls[0]);
      WarmPool.GuardIsExact(s, ls[0]);
    }
  }

  // ---------- Whole runs ----------

  ghost predicate AllSteady(y: System, es: seq<Event>, names: Names)
    requires Possible(y, es, names)
    decreases |es|
  {
    es != [] ==> Steady(y, es[0], names) && AllSteady(Next(y, es[0], names), es[1..], names)
  }

  ghost predicate AllOrderly(y: System, es: seq<Event>, names: Names)
    requires Possible(y, es, names)
    decreases |es|
  {
    es != [] ==> Orderly(y, es[0], names) && AllOrderly(Next(y, es[0], names), es[1..], names)
  }

  /** The protocol steps are those of the events, one event after another. */
  ghost predicate AllRealized(y: System, es: seq<Event>, ls: seq<WarmPool.Label>, names: Names)
    requires Possible(y, es, names)
    decreases |es|
  {
    if es == [] then ls == []
    else exists n :: 0 <= n <= |ls| && RealizedFrom(y, es, ls, n, names)
  }

  ghost predicate RealizedFrom(y: System, es: seq<Event>, ls: seq<WarmPool.Label>, n: nat, names: Names)
    requires Possible(y, es, names) && es != [] && n <= |ls|
    decreases |es|, 0
  {
    Realizes(y, es[0], ls[..n], names) && AllRealized(Next(y, es[0], names), es[1..], ls[n..], names)
  }

  /** Every run of gateways over Redis, with every pattern of faults and waits, is a run of the protocol:
      its steps are those of the events, the rows, the gauge and the operations in flight are those of
      the run, and the live entries of the store are its routes. The run of the protocol is careful exactly
      when the events are steady, and disciplined exactly when they are orderly. */
  lemma {:induction false} SystemRunsAreProtocolRuns(y: System, s: WarmPool.State, es: seq<Event>, names: Names)
    returns (ls: seq<WarmPool.Label>)
    requires Proper(names) && Matches(y, s, names) && Possible(y, es, names)
    ensures AllRealized(y, es, ls, names)
    ensures WarmPool.Possible(s, ls) && Matches(Run(y, es, names), WarmPool.Run(s, ls), names)
    ensures AllSteady(y, es, names) <==> WarmPool.AllCareful(s, ls)
    ensures AllOrderly(y, es, names) <==> WarmPool.AllDisciplined(s, ls)
    decreases |es|
  {
    if es == [] {
      ls := [];
    } else {
      var first := EventIsRun(y, s, es[0], names);
      var rest := SystemRunsAreProtocolRuns(Next(y, es[0], names), WarmPool.Run(s, first), es[1..], names);
      WarmPool.RunsCompose(s, first, rest);
      ls := first + rest;
      assert ls[..|first|] == first && ls[|first|..] == rest;
      assert RealizedFrom(y, es, ls, |first|, names);
    }
  }

  /** A live entry leads to an active instance that its conversation owns. */
  ghost predicate ExclusiveEntry(y: System, names: Names, c: WarmPool.ConvId, i: WarmPool.InstanceId) {
    && RouteIn(y.store, names.conv(c), y.now) == names.inst(i)
    && i in y.rest.rows && y.rest.rows[i].phase == WarmPool.Active && i in y.rest.owner && y.rest.owner[i] == c
  }

  /** And that is in the conversation's tenant. */
  ghost predicate SafeEntry(y: System, names: Names, c: WarmPool.ConvId, i: WarmPool.InstanceId) {
    && ExclusiveEntry(y, names, c, i)
    && c in y.rest.tenantOf && y.rest.rows[i].tenant == y.rest.tenantOf[c]
  }

  predicate IsLive(y: System, names: Names, c: WarmPool.ConvId) { Live(y.store, Key(names.conv(c)), y.now) }

  /** What holds of the routes of the protocol holds of the live entries of Redis. */
  lemma EntriesAreRoutes(y: System, s: WarmPool.State, names: Names)
    requires Matches(y, s, names) && WarmPool.Exclusive(s)
    ensures forall c :: IsLive(y, names, c) ==> exists i :: ExclusiveEntry(y, names, c, i)
    ensures WarmPool.Safe(s) ==> forall c :: IsLive(y, names, c) ==> exists i :: SafeEntry(y, names, c, i)
  {
    forall c | IsLive(y, names, c)
      ensures exists i :: ExclusiveEntry(y, names, c, i)
      ensures WarmPool.Safe(s) ==> exists i :: SafeEntry(y, names, c, i)
    {
      assert ShowsOne(y.store, y.now, s.route, names, c);
      assert ExclusiveEntry(y, names, c, s.route[c]);
      assert WarmPool.Safe(s) ==> SafeEntry(y, names, c, s.route[c]);
    }
  }

  /** At the end of every steady run of any number of gateways over one Redis server, whatever faults they
      meet, every live entry leads to an active instance that its conversation owns; and if the run is
      orderly, it is in the conversation's tenant. */
  lemma RedisEntriesAreSafe(y: System, s: WarmPool.State, es: seq<Event>, names: Names)
    requires Proper(names) && Matches(y, s, names) && WarmPool.Inv(s)
    requires Possible(y, es, names) && AllSteady(y, es, names)
    ensures var r := Run(y, es, names); forall c :: IsLive(r, names, c) ==> exists i :: ExclusiveEntry(r, names, c, i)
    ensures AllOrderly(y, es, names) ==>
              var r := Run(y, es, names); forall c :: IsLive(r, names, c) ==> exists i :: SafeEntry(r, names, c, i)
  {
    var ls := SystemRunsAreProtocolRuns(y, s, es, names);
    WarmPool.RunKeepsCore(s, ls);
    WarmPool.CoreIsExclusive(WarmPool.Run(s, ls));
    if AllOrderly(y, es, names) {
      WarmPool.RunKeepsInv(s, ls);
      WarmPool.InvIsSafe(WarmPool.Run(s, ls));
    }
    EntriesAreRoutes(Run(y, es, names), WarmPool.Run(s, ls), names);
  }

  /** And from a fresh pool the gauge counts the active rows, up to the operations between their row update
      and their gauge update. */
  lemma RedisGaugeCountsActiveRows(y: System, s: WarmPool.State, es: seq<Event>, names: Names)
    requires Proper(names) && Matches(y, s, names) && WarmPool.Initial(s)
    requires Possible(y, es, names) && AllSteady(y, es, names)
    ensures var r := Run(y, es, names).rest;
            r.gauge == |WarmPool.ActiveRows(r)| + |WarmPool.Overcounted(r.threads)| - |WarmPool.Uncounted(r.threads)|
  {
    var ls := SystemRunsAreProtocolRuns(y, s, es, names);
    WarmPool.GaugeCountsActiveRows(s, ls);
    assert WarmPool.ActiveRows(WarmPool.Run(s, ls)) == WarmPool.ActiveRows(Run(y, es, names).rest);
  }
}
