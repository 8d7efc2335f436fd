/**
  The Redis client and the two routing tables. The client keeps one connection, writes a command,
  reads one reply, and replaces the connection after an I/O error; the server is an object that
  decodes each command it receives and answers with one reply.
 */
module RoutingTables {
  import opened Resp
  import opened Wrappers

  // ---------- The server ----------

  datatype Entry = Entry(value: Bytes, expiresAt: int)

  type Store = map<Bytes, Entry>

  const GET: Bytes := [71, 69, 84]
  const SET: Bytes := [83, 69, 84]
  const DEL: Bytes := [68, 69, 76]
  const EX: Bytes := [69, 88]
  const OK: Bytes := [79, 75]
  const ERR: Bytes := [69, 82, 82]

  predicate Live(s: Store, key: Bytes, now: int) { key in s && now < s[key].expiresAt }

  /** The commands of the routing table; times are in milliseconds, expiries in seconds. */
  function Exec(s: Store, args: seq<Bytes>, now: int): (Store, Reply) {
    if |args| == 2 && args[0] == GET then
      (s, if Live(s, args[1], now) then Bulk(s[args[1]].value) else NilBulk)
    else if |args| == 5 && args[0] == SET && args[3] == EX && Atoi(args[4]) > 0 then
      (s[args[1] := Entry(args[2], now + 1000 * Atoi(args[4]))], Simple(OK))
    else if |args| == 2 && args[0] == DEL then
      (s - {args[1]}, Integer(if Live(s, args[1], now) then 1 else 0))
    else (s, Error(ERR))
  }

  /** The server reads a command off the wire and executes it. */
  function Serve(s: Store, wire: Bytes, now: int): (Store, Reply) {
    match DecodeCommand(wire)
    case None => (s, Error(ERR))
    case Some((args, _)) => Exec(s, args, now)
  }

  lemma ServeExecutes(s: Store, args: seq<Bytes>, now: int)
    ensures Serve(s, EncodeCommand(args), now) == Exec(s, args, now)
  {
    CommandRoundTrip(args, []);
    assert EncodeCommand(args) + [] == EncodeCommand(args);
  }

  lemma ServerRepliesAreFlat(s: Store, wire: Bytes, now: int)
    ensures WellFormed(Serve(s, wire, now).1) && Flat(Serve(s, wire, now).1)
  {
  }

  // ---------- The connection ----------

  /** No connection yet; an open one with the bytes received and not read; or a closed one that
      the client still holds because the redial failed. */
  datatype Conn = NoConn | Open(inbound: Bytes) | Shut(inbound: Bytes)

  /** What goes wrong during one command. A failed write may still have reached the server. The
      leftover is whatever a failed read left in the buffer of the dropped connection. */
  datatype Faults = Faults(dialOk: bool, writeOk: bool, delivered: bool, lineOk: bool, bodyOk: bool,
                           redialOk: bool, leftover: Bytes)

  const NO_FAULTS := Faults(true, true, true, true, true, true, [])

  /** Reconnecting closes the old connection first; when the dial fails the closed one stays. */
  function Reconnect(f: Faults): Conn {
    if f.redialOk then Open([]) else Shut(f.leftover)
  }

  /** Reading one reply off an open connection. */
  function Await(inbound: Bytes, f: Faults): (Conn, Outcome) {
    match ReadLine(inbound)
    case None => (Reconnect(f), IOError)
    case Some((line, rest)) =>
      if !f.lineOk then (Reconnect(f), IOError)
      else match Interpret(line, rest)
        case None => (Reconnect(f), IOError)
        case Some((outcome, rest')) =>
          if line != [] && line[0] == DOLLAR && Atoi(line[1..]) >= 0 && !f.bodyOk then (Reconnect(f), IOError)
          else (Open(rest'), outcome)
  }

  /** One command on a connection, given the reply the server sends to it. */
  function Exchange(conn: Conn, reply: Reply, f: Faults): (Conn, Outcome) {
    if conn.NoConn? && !f.dialOk then (NoConn, IOError)
    else if conn.Shut? || !f.writeOk then (Reconnect(f), IOError)
    else Await((if conn.NoConn? then [] else conn.inbound) + EncodeReply(reply), f)
  }

  /** Whether the command is executed by the server. */
  predicate Reaches(conn: Conn, f: Faults) {
    !conn.Shut? && (conn.NoConn? ==> f.dialOk) && (f.writeOk || f.delivered)
  }

  // ---------- Request and reply stay paired ----------

  /** No unread reply is left on a connection that will be used again. */
  predicate InStep(conn: Conn) { conn.Open? ==> conn.inbound == [] }

  lemma FlatReplyIsRead(reply: Reply)
    requires WellFormed(reply) && Flat(reply)
    ensures ReadReply(EncodeReply(reply)) == Some((Meaning(reply), []))
  {
    ReplyRoundTrip(reply, []);
    assert EncodeReply(reply) + [] == EncodeReply(reply);
  }

  lemma AwaitReply(reply: Reply, f: Faults)
    requires WellFormed(reply) && Flat(reply)
    ensures || Await(EncodeReply(reply), f) == (Reconnect(f), IOError)
            || Await(EncodeReply(reply), f) == (Open([]), Meaning(reply))
  {
    FlatReplyIsRead(reply);
  }

  lemma ExchangeStaysInStep(conn: Conn, reply: Reply, f: Faults)
    requires InStep(conn) && WellFormed(reply) && Flat(reply)
    ensures InStep(Exchange(conn, reply, f).0)
    ensures Exchange(conn, reply, f).1 == IOError || Exchange(conn, reply, f).1 == Meaning(reply)
  {
    AwaitReply(reply, f);
    assert [] + EncodeReply(reply) == EncodeReply(reply);
  }

  lemma AwaitHead(reply: Reply, rest: Bytes)
    requires WellFormed(reply)
    ensures Await(EncodeReply(reply) + rest, NO_FAULTS) == (Open(Residue(reply) + rest), Meaning(reply))
  {
    ReplyRoundTrip(reply, rest);
  }

  /** Exactly what a fault does to a command: a dial that fails leaves no connection; a closed connection, a
      failed write and a failed read of the line, or of the payload of a bulk string, fail the command and
      replace the connection, or keep the closed one if the redial fails; anything else gets the reply. */
  lemma ExchangeUnderFaults(conn: Conn, reply: Reply, f: Faults)
    requires InStep(conn) && WellFormed(reply) && Flat(reply)
    ensures var (later, outcome) := Exchange(conn, reply, f);
            if conn.NoConn? && !f.dialOk then later == NoConn && outcome == IOError
            else if conn.Shut? || !f.writeOk || !f.lineOk || (reply.Bulk? && !f.bodyOk) then
              outcome == IOError && later == if f.redialOk then Open([]) else Shut(f.leftover)
            else later == Open([]) && outcome == Meaning(reply)
  {
    assert [] + EncodeReply(reply) == EncodeReply(reply);
    ReplyUnderFaults(reply, f);
  }

  lemma ReplyUnderFaults(reply: Reply, f: Faults)
    requires WellFormed(reply) && Flat(reply)
    ensures Await(EncodeReply(reply), f) ==
            if !f.lineOk || (reply.Bulk? && !f.bodyOk) then (Reconnect(f), IOError) else (Open([]), Meaning(reply))
  {
    FlatReplyIsRead(reply);
    ReplyHead(reply);
    AwaitUnderFaults(EncodeReply(reply), reply.Bulk?, Meaning(reply), f);
  }

  lemma AwaitUnderFaults(wire: Bytes, payload: bool, outcome: Outcome, f: Faults)
    requires ReadReply(wire) == Some((outcome, [])) && ReadLine(wire).Some?
    requires var line := ReadLine(wire).value.0;
             line != [] && (line[0] == DOLLAR && Atoi(line[1..]) >= 0 <==> payload)
    ensures Await(wire, f) ==
            if !f.lineOk || (payload && !f.bodyOk) then (Reconnect(f), IOError) else (Open([]), outcome)
  {
  }

  /** A reply is a line, which announces a payload exactly for a bulk string. */
  lemma ReplyHead(reply: Reply)
    requires WellFormed(reply)
    ensures ReadLine(EncodeReply(reply)).Some?
    ensures var line := ReadLine(EncodeReply(reply)).value.0;
            line != [] && (line[0] == DOLLAR && Atoi(line[1..]) >= 0 <==> reply.Bulk?)
  {
    match reply
    case Simple(text) => HeadIs(PLUS, text, []);
    case Error(text) => HeadIs(MINUS, text, []);
    case Integer(n) =>
      SignedRoundTrip(n);
      HeadIs(COLON, Signed(n), []);
    case Bulk(data) =>
      SignedRoundTrip(|data|);
      assert EncodeBulk(data) == [DOLLAR] + Signed(|data|) + EOL + (data + EOL);
      HeadIs(DOLLAR, Signed(|data|), data + EOL);
    case NilBulk =>
      SignedRoundTrip(-1);
      HeadIs(DOLLAR, Signed(-1), []);
    case Array(items) =>
      SignedRoundTrip(|items|);
      HeadIs(STAR, Signed(|items|), EncodeReplies(items));
    case NilArray =>
      SignedRoundTrip(-1);
      HeadIs(STAR, Signed(-1), []);
  }

  lemma HeadIs(marker: Byte, text: Bytes, rest: Bytes)
    requires marker != CR && marker != LF && OneLine(text)
    ensures ReadLine([marker] + text + EOL + rest) == Some(([marker] + text, rest))
    ensures [marker] + text + EOL + [] == [marker] + text + EOL && ([marker] + text)[1..] == text
  {
    ReadLineBack([marker] + text, rest);
  }

  /** Without a fault, a connection that is not closed stays in step exactly when the reply is not
      an array with items, and the caller gets the meaning of the reply either way. */
  lemma StepLostExactlyByArrays(conn: Conn, reply: Reply)
    requires InStep(conn) && !conn.Shut? && WellFormed(reply)
    ensures Exchange(conn, reply, NO_FAULTS) == (Open(Residue(reply)), Meaning(reply))
    ensures InStep(Exchange(conn, reply, NO_FAULTS).0) <==> Flat(reply)
  {
    AwaitHead(reply, []);
    ReplyRoundTrip(reply, []);
    assert [] + EncodeReply(reply) == EncodeReply(reply) + [] == EncodeReply(reply);
    assert Residue(reply) + [] == Residue(reply);
  }

  /** After an array with items, the next command is answered with the array's first item. */
  lemma ArrayAnswersNextCommand(conn: Conn, items: seq<Reply>, next: Reply)
    requires InStep(conn) && !conn.Shut? && items != [] && WellFormed(Array(items))
    ensures Exchange(Exchange(conn, Array(items), NO_FAULTS).0, next, NO_FAULTS).1 == Meaning(items[0])
  {
    StepLostExactlyByArrays(conn, Array(items));
    var first, others := EncodeReply(items[0]), EncodeReplies(items[1..]);
    Regroup(first, others, EncodeReply(next));
    AwaitHead(items[0], others + EncodeReply(next));
    assert Residue(Array(items)) == first + others;
  }

  /** A command as the connection sees it: what the server answers to it and what goes wrong. */
  datatype Command = Command(reply: Reply, faults: Faults)

  /** The connection after a series of commands. */
  function ConnAfter(conn: Conn, cmds: seq<Command>): Conn {
    if cmds == [] then conn
    else Exchange(ConnAfter(conn, cmds[..|cmds| - 1]), cmds[|cmds| - 1].reply, cmds[|cmds| - 1].faults).0
  }

  lemma {:induction false} SeriesStaysInStep(conn: Conn, cmds: seq<Command>)
    requires InStep(conn)
    requires forall i :: 0 <= i < |cmds| ==> WellFormed(cmds[i].reply) && Flat(cmds[i].reply)
    ensures InStep(ConnAfter(conn, cmds))
  {
    if cmds != [] {
      var earlier, c := cmds[..|cmds| - 1], cmds[|cmds| - 1];
      SeriesStaysInStep(conn, earlier);
      ExchangeStaysInStep(ConnAfter(conn, earlier), c.reply, c.faults);
    }
  }

  /** After every series of commands, with arbitrary failures of dials, writes and reads, a command
      that does not fail with an I/O error returns the reply to that very command. */
  lemma RequestsAndRepliesPair(conn: Conn, earlier: seq<Command>, c: Command)
    requires InStep(conn) && WellFormed(c.reply) && Flat(c.reply)
    requires forall i :: 0 <= i < |earlier| ==> WellFormed(earlier[i].reply) && Flat(earlier[i].reply)
    ensures var outcome := Exchange(ConnAfter(conn, earlier), c.reply, c.faults).1;
            outcome == IOError || outcome == Meaning(c.reply)
  {
    SeriesStaysInStep(conn, earlier);
    ExchangeStaysInStep(ConnAfter(conn, earlier), c.reply, c.faults);
  }

  // ---------- The tables ----------

  const PREFIX: Bytes := [114, 116, 58]

  function Key(conv: Bytes): Bytes { PREFIX + conv }

  lemma KeyIsInjective(c: Bytes, d: Bytes)
    requires Key(c) == Key(d)
    ensures c == d
  {
    assert Key(c)[3..] == c && Key(d)[3..] == d;
  }

  const DEFAULT_TTL := 2100  // 35 minutes, in seconds

  /** The time to live in whole seconds; zero nanoseconds stand for the default. */
  function Seconds(ttl: nat): (secs: nat)
    ensures if ttl == 0 then secs == 35 * 60 else secs * 1_000_000_000 <= ttl < (secs + 1) * 1_000_000_000
  {
    if ttl == 0 then DEFAULT_TTL else ttl / 1_000_000_000
  }

  /** An argument on the wire: its length after a dollar sign, then its bytes, each closed by a line end. */
  function Sent(a: Bytes): Bytes { [36] + Decimal(|a|) + [13, 10] + a + [13, 10] }

  /** The three commands of the table by their bytes; the key is "rt:" and the conversation, and a set without
      a time to live expires after 2100 seconds. */
  lemma CommandsByTheirBytes(conv: Bytes, inst: Bytes)
    ensures EncodeCommand([GET, Key(conv)])
            == [42, 50, 13, 10] + ([36, 51, 13, 10, 71, 69, 84, 13, 10] + Sent([114, 116, 58] + conv))
    ensures EncodeCommand([DEL, Key(conv)])
            == [42, 50, 13, 10] + ([36, 51, 13, 10, 68, 69, 76, 13, 10] + Sent([114, 116, 58] + conv))
    ensures EncodeCommand([SET, Key(conv), inst, EX, Decimal(Seconds(0))])
            == [42, 53, 13, 10] + ([36, 51, 13, 10, 83, 69, 84, 13, 10] + (Sent([114, 116, 58] + conv) + (Sent(inst)
               + ([36, 50, 13, 10, 69, 88, 13, 10] + [36, 52, 13, 10, 50, 49, 48, 48, 13, 10]))))
  {
    TwoOnTheWire(GET, Key(conv));
    TwoOnTheWire(DEL, Key(conv));
    FiveOnTheWire(SET, Key(conv), inst, EX, Decimal(Seconds(0)));
    WordsOnTheWire();
    ExpiryOnTheWire();
  }

  lemma TwoOnTheWire(a: Bytes, b: Bytes)
    ensures EncodeCommand([a, b]) == [42, 50, 13, 10] + (Sent(a) + Sent(b))
  {
    EncodeArgsCons(b, []);
    EncodeArgsCons(a, [b]);
    OneDigit(2);
    assert [a] + [b] == [a, b] && [b] + [] == [b];
    assert EncodeArgs([b]) == Sent(b);
  }

  lemma FiveOnTheWire(a: Bytes, b: Bytes, c: Bytes, d: Bytes, e: Bytes)
    ensures EncodeCommand([a, b, c, d, e])
            == [42, 53, 13, 10] + (Sent(a) + (Sent(b) + (Sent(c) + (Sent(d) + Sent(e)))))
  {
    EncodeArgsCons(e, []);
    EncodeArgsCons(d, [e]);
    EncodeArgsCons(c, [d, e]);
    EncodeArgsCons(b, [c, d, e]);
    EncodeArgsCons(a, [b, c, d, e]);
    OneDigit(5);
    assert [a] + [b, c, d, e] == [a, b, c, d, e] && [b] + [c, d, e] == [b, c, d, e];
    assert [c] + [d, e] == [c, d, e] && [d] + [e] == [d, e] && [e] + [] == [e];
    assert EncodeArgs([e]) == Sent(e);
  }

  lemma WordsOnTheWire()
    ensures Sent(GET) == [36, 51, 13, 10, 71, 69, 84, 13, 10] && Sent(SET) == [36, 51, 13, 10, 83, 69, 84, 13, 10]
    ensures Sent(DEL) == [36, 51, 13, 10, 68, 69, 76, 13, 10] && Sent(EX) == [36, 50, 13, 10, 69, 88, 13, 10]
  {
    OneDigit(2);
    OneDigit(3);
  }

  lemma ExpiryOnTheWire()
    ensures Sent(Decimal(Seconds(0))) == [36, 52, 13, 10, 50, 49, 48, 48, 13, 10]
  {
    OneDigit(2);
    OneDigit(4);
    assert Decimal(21) == Decimal(2) + [49];
    assert Decimal(210) == Decimal(21) + [48];
    assert Decimal(2100) == Decimal(210) + [48];
  }

  /** The route a conversation has in a Redis store at a time; empty for none. */
  function RouteIn(s: Store, conv: Bytes, now: int): Bytes {
    if Live(s, Key(conv), now) then s[Key(conv)].value else []
  }

  /** One command of a client on values: the store, the connection and the outcome after it. */
  function Do(s: Store, conn: Conn, args: seq<Bytes>, f: Faults, now: int): (Store, Conn, Outcome) {
    var (s', reply) := Serve(s, EncodeCommand(args), now);
    var (conn', outcome) := Exchange(conn, reply, f);
    (if Reaches(conn, f) then s' else s, conn', outcome)
  }

  /** The commands of the routing table. */
  function GetBy(s: Store, conn: Conn, conv: Bytes, f: Faults, now: int): (Conn, Bytes) {
    var (_, conn', outcome) := Do(s, conn, [GET, Key(conv)], f, now);
    (conn', if outcome.Value? then outcome.data else [])
  }

  function SetBy(s: Store, conn: Conn, conv: Bytes, inst: Bytes, ttl: nat, f: Faults, now: int): (Store, Conn) {
    var (s', conn', _) := Do(s, conn, [SET, Key(conv), inst, EX, Decimal(Seconds(ttl))], f, now);
    (s', conn')
  }

  function DeleteBy(s: Store, conn: Conn, conv: Bytes, f: Faults, now: int): (Store, Conn) {
    var (s', conn', _) := Do(s, conn, [DEL, Key(conv)], f, now);
    (s', conn')
  }

  class RedisServer {
    var store: Store

    method Receive(wire: Bytes, now: int) returns (reply: Reply)
      modifies this
      ensures (store, reply) == Serve(old(store), wire, now)
    {
      var r := Serve(store, wire, now);
      store, reply := r.0, r.1;
    }
  }

  class RedisRoutingTable {
    const server: RedisServer
    var conn: Conn

    /** A table is created only when the first dial succeeds. */
    constructor (server: RedisServer)
      ensures this.server == server && conn == Open([])
    {
      this.server := server;
      conn := Open([]);
    }

    method Close()
      modifies this
      ensures conn == NoConn
    {
      conn := NoConn;
    }

    /** Sends one command and reads one reply. */
    method DoLocked(args: seq<Bytes>, f: Faults, now: int) returns (outcome: Outcome)
      modifies this, server
      ensures (server.store, conn, outcome) == Do(old(server.store), old(conn), args, f, now)
    {
      if conn.NoConn? {
        if !f.dialOk {
          return IOError;
        }
        conn := Open([]);
      }
      var buf := BuildCommand(args);
      if conn.Shut? {
        conn := Reconnect(f);
        return IOError;
      }
      if !f.writeOk && !f.delivered {
        conn := Reconnect(f);
        return IOError;
      }
      var reply := server.Receive(buf, now);
      if !f.writeOk {
        conn := Reconnect(f);
        return IOError;
      }
      outcome := ReadOff(conn.inbound + EncodeReply(reply), f);
    }

    /** Reads one reply off the bytes that arrive. */
    method ReadOff(inbound: Bytes, f: Faults) returns (outcome: Outcome)
      modifies this
      ensures (conn, outcome) == Await(inbound, f)
    {
      var read := ReadLine(inbound);
      if read.None? || !f.lineOk {
        conn := Reconnect(f);
        return IOError;
      }
      var line, rest := read.value.0, read.value.1;
      if line == [] {
        conn := Open(rest);
        return EmptyResponse;
      }
      if line[0] == PLUS || line[0] == COLON {
        conn := Open(rest);
        return Value(line[1..]);
      }
      if line[0] == MINUS {
        conn := Open(rest);
        return ServerError(line[1..]);
      }
      if line[0] == DOLLAR {
        var n := Atoi(line[1..]);
        if n < 0 {
          conn := Open(rest);
          return Value([]);
        }
        if |rest| < n + 2 || !f.bodyOk {
          conn := Reconnect(f);
          return IOError;
        }
        conn := Open(rest[n + 2..]);
        return Value(rest[..n]);
      }
      conn := Open(rest);
      return Value(line);
    }

    /** Whatever fails, Get returns the live route of the conversation or nothing. */
    method Get(conv: Bytes, f: Faults, now: int) returns (inst: Bytes)
      requires InStep(conn)
      modifies this, server
      ensures InStep(conn) && server.store == old(server.store)
      ensures (conn, inst) == GetBy(old(server.store), old(conn), conv, f, now)
      ensures inst == [] || inst == RouteIn(server.store, conv, now)
      ensures !old(conn).Shut? && f == NO_FAULTS ==> !conn.Shut? && inst == RouteIn(server.store, conv, now)
    {
      CallFacts(conn, server.store, [GET, Key(conv)], f, now);
      var outcome := DoLocked([GET, Key(conv)], f, now);
      inst := if outcome.Value? then outcome.data else [];
    }

    method Set(conv: Bytes, inst: Bytes, ttl: nat, f: Faults, now: int)
      requires InStep(conn)
      modifies this, server
      ensures InStep(conn) && (server.store, conn) == SetBy(old(server.store), old(conn), conv, inst, ttl, f, now)
      ensures || server.store == old(server.store)
              || server.store == Stored(old(server.store), conv, inst, Seconds(ttl), now)
      ensures !old(conn).Shut? && f == NO_FAULTS ==>
                !conn.Shut? && server.store == Stored(old(server.store), conv, inst, Seconds(ttl), now)
    {
      var args := [SET, Key(conv), inst, EX, Decimal(Seconds(ttl))];
      CallFacts(conn, server.store, args, f, now);
      SetFacts(server.store, conv, inst, Seconds(ttl), now);
      var _ := DoLocked(args, f, now);
    }

    method Delete(conv: Bytes, f: Faults, now: int)
      requires InStep(conn)
      modifies this, server
      ensures InStep(conn) && (server.store, conn) == DeleteBy(old(server.store), old(conn), conv, f, now)
      ensures server.store == old(server.store) || server.store == old(server.store) - {Key(conv)}
      ensures !old(conn).Shut? && f == NO_FAULTS ==> !conn.Shut? && server.store == old(server.store) - {Key(conv)}
    {
      CallFacts(conn, server.store, [DEL, Key(conv)], f, now);
      var _ := DoLocked([DEL, Key(conv)], f, now);
    }
  }

  /** The store after a SET with an expiry; the server refuses an expiry of zero. */
  function Stored(s: Store, conv: Bytes, inst: Bytes, secs: nat, now: int): Store {
    if secs == 0 then s else s[Key(conv) := Entry(inst, now + 1000 * secs)]
  }

  lemma SetFacts(s: Store, conv: Bytes, inst: Bytes, secs: nat, now: int)
    ensures Exec(s, [SET, Key(conv), inst, EX, Decimal(secs)], now).0 == Stored(s, conv, inst, secs, now)
  {
    DecimalRoundTrip(secs);
    assert Atoi(Decimal(secs)) == secs;
  }

  lemma CallFacts(conn: Conn, s: Store, args: seq<Bytes>, f: Faults, now: int)
    requires InStep(conn)
    ensures Serve(s, EncodeCommand(args), now) == Exec(s, args, now)
    ensures var (conn', outcome) := Exchange(conn, Exec(s, args, now).1, f);
            && InStep(conn') && (outcome == IOError || outcome == Meaning(Exec(s, args, now).1))
            && (!conn.Shut? && f == NO_FAULTS ==> conn'.Open? && outcome == Meaning(Exec(s, args, now).1))
  {
    ServeExecutes(s, args, now);
    ServerRepliesAreFlat(s, EncodeCommand(args), now);
    ExchangeStaysInStep(conn, Exec(s, args, now).1, f);
    if !conn.Shut? {
      StepLostExactlyByArrays(conn, Exec(s, args, now).1);
    }
  }

  /** Whatever fails, a lookup gives the live route or nothing, and a write or deletion is done or not. */
  lemma GetAnswers(s: Store, conn: Conn, conv: Bytes, f: Faults, now: int)
    requires InStep(conn)
    ensures InStep(GetBy(s, conn, conv, f, now).0)
    ensures GetBy(s, conn, conv, f, now).1 == [] || GetBy(s, conn, conv, f, now).1 == RouteIn(s, conv, now)
  {
    CallFacts(conn, s, [GET, Key(conv)], f, now);
  }

  lemma SetAnswers(s: Store, conn: Conn, conv: Bytes, inst: Bytes, f: Faults, now: int)
    requires InStep(conn)
    ensures var (s', conn') := SetBy(s, conn, conv, inst, 0, f, now);
            InStep(conn') && s' == if Reaches(conn, f) then Stored(s, conv, inst, Seconds(0), now) else s
  {
    CallFacts(conn, s, [SET, Key(conv), inst, EX, Decimal(Seconds(0))], f, now);
    SetFacts(s, conv, inst, Seconds(0), now);
  }

  lemma DeleteAnswers(s: Store, conn: Conn, conv: Bytes, f: Faults, now: int)
    requires InStep(conn)
    ensures var (s', conn') := DeleteBy(s, conn, conv, f, now);
            InStep(conn') && s' == if Reaches(conn, f) then s - {Key(conv)} else s
  {
    CallFacts(conn, s, [DEL, Key(conv)], f, now);
  }

  /** The in-process table that stands in when Redis is not available. */
  class MemoryRoutingTable {
    var table: map<Bytes, Bytes>

    constructor ()
      ensures table == map[]
    {
      table := map[];
    }

    method Get(conv: Bytes) returns (inst: Bytes)
      ensures inst == Lookup(table, conv)
    {
      inst := if conv in table then table[conv] else [];
    }

    method Set(conv: Bytes, inst: Bytes, ttl: nat)
      modifies this
      ensures table == old(table)[conv := inst]
    {
      table := table[conv := inst];
    }

    method Delete(conv: Bytes)
      modifies this
      ensures table == old(table) - {conv}
    {
      table := table - {conv};
    }
  }

  function Lookup(table: map<Bytes, Bytes>, conv: Bytes): Bytes {
    if conv in table then table[conv] else []
  }

  // ---------- The two tables agree up to expiry ----------

  /** A call on a routing table, with the default time to live. */
  datatype Call = Put(conv: Bytes, inst: Bytes, at: int) | Drop(conv: Bytes, at: int) | Look(conv: Bytes, at: int)

  function MemoryAfter(h: seq<Call>): map<Bytes, Bytes> {
    if h == [] then map[]
    else
      var t := MemoryAfter(h[..|h| - 1]);
      match h[|h| - 1]
      case Put(c, i, _) => t[c := i]
      case Drop(c, _) => t - {c}
      case Look(_, _) => t
  }

  /** The Redis store after the same calls. */
  function StoreAfter(h: seq<Call>): Store {
    if h == [] then map[]
    else
      var s := StoreAfter(h[..|h| - 1]);
      match h[|h| - 1]
      case Put(c, i, at) => Stored(s, c, i, Seconds(0), at)
      case Drop(c, _) => s - {Key(c)}
      case Look(_, _) => s
  }

  /** When the entry of a conversation was last set, if it was not deleted since. */
  ghost function LastSet(h: seq<Call>, conv: Bytes): Option<int> {
    if h == [] then None
    else
      var last := h[|h| - 1];
      if last.conv == conv && last.Put? then Some(last.at)
      else if last.conv == conv && last.Drop? then None
      else LastSet(h[..|h| - 1], conv)
  }

  /** The entry was last set within the time to live, which is 35 minutes. */
  ghost predicate Fresh(h: seq<Call>, conv: Bytes, now: int) {
    LastSet(h, conv).Some? && now < LastSet(h, conv).value + 35 * 60 * 1000
  }

  lemma {:induction false} StoreTracksMemory(h: seq<Call>, conv: Bytes)
    ensures conv in MemoryAfter(h) <==> LastSet(h, conv).Some?
    ensures Key(conv) in StoreAfter(h) <==> conv in MemoryAfter(h)
    ensures conv in MemoryAfter(h) ==>
              StoreAfter(h)[Key(conv)] == Entry(MemoryAfter(h)[conv], LastSet(h, conv).value + 1000 * DEFAULT_TTL)
  {
    if h != [] {
      StoreTracksMemory(h[..|h| - 1], conv);
      if Key(h[|h| - 1].conv) == Key(conv) {
        KeyIsInjective(h[|h| - 1].conv, conv);
      }
    }
  }

  /** A route is there for its time to live in whole seconds, by default 35 minutes, and then gone; with less than
      a second the set is refused. No other route changes. */
  lemma RouteLivesForItsTTL(s: Store, conv: Bytes, inst: Bytes, ttl: nat, at: int, other: Bytes, now: int)
    ensures var secs := if ttl == 0 then 35 * 60 else ttl / 1_000_000_000;
            RouteIn(Stored(s, conv, inst, Seconds(ttl), at), conv, now) ==
            if secs == 0 then RouteIn(s, conv, now) else if now < at + secs * 1000 then inst else []
    ensures other != conv ==>
              RouteIn(Stored(s, conv, inst, Seconds(ttl), at), other, now) == RouteIn(s, other, now)
  {
    if Key(other) == Key(conv) {
      KeyIsInjective(other, conv);
    }
  }

  /** After every history of calls, the Redis table answers what the in-memory table answers if
      the entry was last set within the default time to live, and nothing otherwise. */
  lemma TablesAgreeWithinTTL(h: seq<Call>, conv: Bytes, now: int)
    ensures RouteIn(StoreAfter(h), conv, now) == if Fresh(h, conv, now) then Lookup(MemoryAfter(h), conv) else []
  {
    StoreTracksMemory(h, conv);
  }

  /** The same call on both tables. */
  method CallBoth(redis: RedisRoutingTable, memory: MemoryRoutingTable, call: Call, ghost h: seq<Call>)
    returns (r: Bytes, m: Bytes)
    requires InStep(redis.conn) && !redis.conn.Shut?
    requires redis.server.store == StoreAfter(h) && memory.table == MemoryAfter(h)
    modifies redis, redis.server, memory
    ensures InStep(redis.conn) && !redis.conn.Shut?
    ensures redis.server.store == StoreAfter(h + [call]) && memory.table == MemoryAfter(h + [call])
    ensures SameAnswer(h + [call], |h|, r, m)
  {
    r, m := [], [];
    assert (h + [call])[..|h|] == h;
    match call {
      case Put(c, i, at) =>
        redis.Set(c, i, 0, NO_FAULTS, at);
        memory.Set(c, i, 0);
      case Drop(c, at) =>
        redis.Delete(c, NO_FAULTS, at);
        memory.Delete(c);
      case Look(c, at) =>
        r := redis.Get(c, NO_FAULTS, at);
        m := memory.Get(c);
        TablesAgreeWithinTTL(h, c, at);
    }
  }

  /** A lookup in memory answers with the entry, and the one in Redis likewise if the entry was last
      set within the time to live, and else with nothing. */
  ghost predicate SameAnswer(calls: seq<Call>, k: nat, r: Bytes, m: Bytes)
    requires k < |calls|
  {
    calls[k].Look? ==>
      && m == Lookup(MemoryAfter(calls[..k]), calls[k].conv)
      && r == if Fresh(calls[..k], calls[k].conv, calls[k].at) then m else []
  }

  /** A gateway that makes the same calls on both tables, with no I/O fault, gets the same answers up
      to the time to live, for every sequence of calls. */
  method Replay(redis: RedisRoutingTable, memory: MemoryRoutingTable, calls: seq<Call>)
    returns (r: seq<Bytes>, m: seq<Bytes>)
    requires InStep(redis.conn) && !redis.conn.Shut? && redis.server.store == map[] && memory.table == map[]
    modifies redis, redis.server, memory
    ensures |r| == |m| == |calls|
    ensures forall k :: 0 <= k < |calls| ==> SameAnswer(calls, k, r[k], m[k])
  {
    r, m := [], [];
    for i := 0 to |calls|
      invariant InStep(redis.conn) && !redis.conn.Shut?
      invariant redis.server.store == StoreAfter(calls[..i]) && memory.table == MemoryAfter(calls[..i])
      invariant |r| == |m| == i
      invariant forall k :: 0 <= k < i ==> SameAnswer(calls, k, r[k], m[k])
    {
      var x, y := CallBoth(redis, memory, calls[i], calls[..i]);
      assert calls[..i] + [calls[i]] == calls[..i + 1] && calls[..i + 1][..i] == calls[..i];
      assert SameAnswer(calls, i, x, y);
      r, m := r + [x], m + [y];
    }
    assert calls[..|calls|] == calls;
  }
}
