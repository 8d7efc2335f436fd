/**
  The Redis serialization protocol (RESP2) as far as the routing table speaks it: commands are
  arrays of bulk strings, replies are simple strings, errors, integers, bulk strings and arrays.
 */
module Resp {
  import opened Wrappers

  type Byte = b: int | 0 <= b < 256
  type Bytes = seq<Byte>

  const LF: Byte := 10
  const CR: Byte := 13
  const DOLLAR: Byte := 36
  const STAR: Byte := 42
  const PLUS: Byte := 43
  const MINUS: Byte := 45
  const COLON: Byte := 58

  const EOL: Bytes := [CR, LF]

  predicate IsDigit(b: Byte) { 48 <= b <= 57 }

  /** A text that fits on one line. */
  predicate OneLine(s: Bytes) { forall i :: 0 <= i < |s| ==> s[i] != CR && s[i] != LF }

  // ---------- Decimal numbers ----------

  function Decimal(n: nat): (s: Bytes)
    ensures |s| > 0 && forall i :: 0 <= i < |s| ==> IsDigit(s[i])
  {
    if n < 10 then [48 + n] else Decimal(n / 10) + [48 + n % 10]
  }

  function Signed(n: int): Bytes {
    if n < 0 then [MINUS] + Decimal(-n) else Decimal(n)
  }

  predicate AllDigits(s: Bytes) { |s| > 0 && forall i :: 0 <= i < |s| ==> IsDigit(s[i]) }

  function Number(s: Bytes): nat
    requires forall i :: 0 <= i < |s| ==> IsDigit(s[i])
  {
    if s == [] then 0
    else
      assert IsDigit(s[|s| - 1]);
      10 * Number(s[..|s| - 1]) + (s[|s| - 1] as int - 48)
  }

  /** The integer a text denotes, and 0 for a text that denotes none. */
  function Atoi(s: Bytes): int {
    if AllDigits(s) then Number(s)
    else if |s| > 0 && s[0] == MINUS && AllDigits(s[1..]) then -(Number(s[1..]) as int)
    else if |s| > 0 && s[0] == PLUS && AllDigits(s[1..]) then Number(s[1..])
    else 0
  }

  lemma {:induction false} DecimalRoundTrip(n: nat)
    ensures Number(Decimal(n)) == n
  {
    var s := Decimal(n);
    if n < 10 {
      assert s[..|s| - 1] == [];
    } else {
      DecimalRoundTrip(n / 10);
      assert s[..|s| - 1] == Decimal(n / 10);
    }
  }

  lemma SignedRoundTrip(n: int)
    ensures Atoi(Signed(n)) == n && OneLine(Signed(n)) && |Signed(n)| > 0
  {
    if n < 0 {
      DecimalRoundTrip(-n);
      assert Signed(n)[1..] == Decimal(-n);
    } else {
      DecimalRoundTrip(n);
    }
  }

  // ---------- Lines ----------

  /** The position of the first line feed from k on, or the length. */
  function FirstLF(s: Bytes, k: nat): (j: nat)
    requires k <= |s|
    ensures k <= j <= |s| && (j < |s| ==> s[j] == LF)
    ensures forall i :: k <= i < j ==> s[i] != LF
    decreases |s| - k
  {
    if k == |s| || s[k] == LF then k else FirstLF(s, k + 1)
  }

  /** Without the carriage returns and line feeds at the end. */
  function TrimEOL(s: Bytes): Bytes {
    if s != [] && (s[|s| - 1] == CR || s[|s| - 1] == LF) then TrimEOL(s[..|s| - 1]) else s
  }

  /** One line, trimmed, and what follows it; nothing when no line is complete. */
  function ReadLine(s: Bytes): Option<(Bytes, Bytes)> {
    var k := FirstLF(s, 0);
    if k == |s| then None else Some((TrimEOL(s[..k + 1]), s[k + 1..]))
  }

  lemma TrimsEOL(line: Bytes)
    requires OneLine(line)
    ensures TrimEOL(line + EOL) == line
  {
    assert (line + EOL)[..|line| + 1] == line + [CR];
    assert (line + [CR])[..|line|] == line;
    assert TrimEOL(line + EOL) == TrimEOL(line + [CR]);
    assert TrimEOL(line + [CR]) == TrimEOL(line);
  }

  lemma FindsEOL(line: Bytes, rest: Bytes)
    requires OneLine(line)
    ensures FirstLF(line + EOL + rest, 0) == |line| + 1
  {
    var s := line + EOL + rest;
    assert s[|line| + 1] == LF && s[|line|] == CR;
    assert forall i :: 0 <= i < |line| ==> s[i] == line[i];
  }

  lemma ReadLineBack(line: Bytes, rest: Bytes)
    requires OneLine(line)
    ensures ReadLine(line + EOL + rest) == Some((line, rest))
  {
    var s, k := line + EOL + rest, |line| + 1;
    FindsEOL(line, rest);
    TrimsEOL(line);
    assert s[..k + 1] == line + EOL && s[k + 1..] == rest;
  }

  // ---------- Commands ----------

  function EncodeBulk(a: Bytes): Bytes {
    [DOLLAR] + Decimal(|a|) + EOL + a + EOL
  }

  /** The codes of the items one after another. */
  function EncodeAll(encode: Bytes -> Bytes, xs: seq<Bytes>): Bytes {
    if xs == [] then [] else encode(xs[0]) + EncodeAll(encode, xs[1..])
  }

  function EncodeArgs(args: seq<Bytes>): Bytes { EncodeAll(EncodeBulk, args) }

  function EncodeCommand(args: seq<Bytes>): Bytes {
    [STAR] + Decimal(|args|) + EOL + EncodeArgs(args)
  }

  lemma {:induction false} EncodeAllSnoc(encode: Bytes -> Bytes, xs: seq<Bytes>, x: Bytes)
    ensures EncodeAll(encode, xs + [x]) == EncodeAll(encode, xs) + encode(x)
  {
    if xs == [] {
      assert xs + [x] == [x] && [x][1..] == [];
    } else {
      assert (xs + [x])[1..] == xs[1..] + [x];
      EncodeAllSnoc(encode, xs[1..], x);
    }
  }

  lemma EncodeArgsCons(x: Bytes, xs: seq<Bytes>)
    ensures EncodeArgs([x] + xs) == EncodeBulk(x) + EncodeArgs(xs)
  {
    assert ([x] + xs)[1..] == xs;
  }

  lemma OneDigit(n: nat)
    requires n < 10
    ensures Decimal(n) == [48 + n]
  {
  }

  /** Builds the command as the client does, argument by argument. */
  method BuildCommand(args: seq<Bytes>) returns (buf: Bytes)
    ensures buf == EncodeCommand(args)
  {
    buf := [STAR] + Decimal(|args|) + EOL;
    for i := 0 to |args|
      invariant buf == [STAR] + Decimal(|args|) + EOL + EncodeArgs(args[..i])
    {
      EncodeAllSnoc(EncodeBulk, args[..i], args[i]);
      assert args[..i + 1] == args[..i] + [args[i]];
      buf := buf + ([DOLLAR] + Decimal(|args[i]|) + EOL + args[i] + EOL);
    }
    assert args[..|args|] == args;
  }

  /** A length line: the marker and a number, at the head of the stream. */
  function ReadHeader(marker: Byte, s: Bytes): Option<(int, Bytes)> {
    match ReadLine(s)
    case None => None
    case Some((line, rest)) =>
      if line == [] || line[0] != marker then None else Some((Atoi(line[1..]), rest))
  }

  /** One bulk string at the head of the stream, as a server reads it. */
  function DecodeBulk(s: Bytes): Option<(Bytes, Bytes)> {
    match ReadHeader(DOLLAR, s)
    case None => None
    case Some((n, rest)) => if 0 <= n && n + 2 <= |rest| then Some((rest[..n], rest[n + 2..])) else None
  }

  /** A number of items at the head of the stream. */
  function DecodeAll(decode: Bytes -> Option<(Bytes, Bytes)>, n: nat, s: Bytes): Option<(seq<Bytes>, Bytes)> {
    if n == 0 then Some(([], s))
    else match decode(s)
      case None => None
      case Some((x, rest)) =>
        match DecodeAll(decode, n - 1, rest)
        case None => None
        case Some((xs, rest')) => Some(([x] + xs, rest'))
  }

  /** One command at the head of the stream, and what follows it. */
  function DecodeCommand(s: Bytes): Option<(seq<Bytes>, Bytes)> {
    match ReadHeader(STAR, s)
    case None => None
    case Some((n, rest)) => if n < 0 then None else DecodeAll(DecodeBulk, n, rest)
  }

  lemma HeaderRoundTrip(marker: Byte, n: int, rest: Bytes)
    requires marker != CR && marker != LF
    ensures ReadHeader(marker, [marker] + Signed(n) + EOL + rest) == Some((n, rest))
  {
    var line := [marker] + Signed(n);
    SignedRoundTrip(n);
    assert OneLine(line) && line[1..] == Signed(n);
    ReadLineBack(line, rest);
  }

  lemma BulkRoundTrip(a: Bytes, rest: Bytes)
    ensures DecodeBulk(EncodeBulk(a) + rest) == Some((a, rest))
  {
    var body := a + EOL + rest;
    assert EncodeBulk(a) + rest == [DOLLAR] + Signed(|a|) + EOL + body;
    HeaderRoundTrip(DOLLAR, |a|, body);
    assert body[..|a|] == a && body[|a| + 2..] == rest;
  }

  lemma Regroup(x: Bytes, y: Bytes, z: Bytes)
    ensures (x + y) + z == x + (y + z)
  {
  }

  ghost predicate RoundTrips(encode: Bytes -> Bytes, decode: Bytes -> Option<(Bytes, Bytes)>) {
    forall x, rest :: decode(encode(x) + rest) == Some((x, rest))
  }

  /** Items that read back one by one read back together. */
  lemma {:induction false} AllRoundTrip(encode: Bytes -> Bytes, decode: Bytes -> Option<(Bytes, Bytes)>,
      xs: seq<Bytes>, rest: Bytes)
    requires RoundTrips(encode, decode)
    ensures DecodeAll(decode, |xs|, EncodeAll(encode, xs) + rest) == Some((xs, rest))
    decreases |xs|
  {
    if xs == [] {
      assert EncodeAll(encode, xs) + rest == rest;
    } else {
      var x, others := xs[0], xs[1..];
      AllRoundTrip(encode, decode, others, rest);
      Regroup(encode(x), EncodeAll(encode, others), rest);
      assert decode(encode(x) + (EncodeAll(encode, others) + rest)) == Some((x, EncodeAll(encode, others) + rest));
      assert [x] + others == xs;
    }
  }

  lemma ArgsRoundTrip(args: seq<Bytes>, rest: Bytes)
    ensures DecodeAll(DecodeBulk, |args|, EncodeArgs(args) + rest) == Some((args, rest))
  {
    forall a, more ensures DecodeBulk(EncodeBulk(a) + more) == Some((a, more)) {
      BulkRoundTrip(a, more);
    }
    AllRoundTrip(EncodeBulk, DecodeBulk, args, rest);
  }

  /** Whatever bytes the arguments hold and whatever follows, a command reads back as itself. */
  lemma CommandRoundTrip(args: seq<Bytes>, rest: Bytes)
    ensures DecodeCommand(EncodeCommand(args) + rest) == Some((args, rest))
  {
    var body := EncodeArgs(args) + rest;
    assert EncodeCommand(args) + rest == [STAR] + Signed(|args|) + EOL + body;
    HeaderRoundTrip(STAR, |args|, body);
    ArgsRoundTrip(args, rest);
  }

  /** The encoding is injective and prefix-free. */
  lemma CommandsArePrefixFree(a: seq<Bytes>, b: seq<Bytes>, x: Bytes, y: Bytes)
    requires EncodeCommand(a) + x == EncodeCommand(b) + y
    ensures a == b && x == y
  {
    CommandRoundTrip(a, x);
    CommandRoundTrip(b, y);
  }

  // ---------- Replies ----------

  datatype Reply =
    | Simple(text: Bytes)
    | Error(text: Bytes)
    | Integer(n: int)
    | Bulk(data: Bytes)
    | NilBulk
    | Array(items: seq<Reply>)
    | NilArray

  predicate WellFormed(r: Reply) {
    match r
    case Simple(text) => OneLine(text)
    case Error(text) => OneLine(text)
    case Array(items) => forall i :: 0 <= i < |items| ==> WellFormed(items[i])
    case _ => true
  }

  function EncodeReply(r: Reply): (s: Bytes)
    ensures |s| > 0
    decreases r, 0
  {
    match r
    case Simple(text) => [PLUS] + text + EOL
    case Error(text) => [MINUS] + text + EOL
    case Integer(n) => [COLON] + Signed(n) + EOL
    case Bulk(data) => EncodeBulk(data)
    case NilBulk => [DOLLAR] + Signed(-1) + EOL
    case Array(items) => [STAR] + Signed(|items|) + EOL + EncodeReplies(items)
    case NilArray => [STAR] + Signed(-1) + EOL
  }

  function EncodeReplies(rs: seq<Reply>): (s: Bytes)
    ensures rs != [] ==> |s| > 0
    decreases rs, 1
  {
    if rs == [] then [] else EncodeReply(rs[0]) + EncodeReplies(rs[1..])
  }

  /** What the caller of a command gets: a value, or an error. */
  datatype Outcome = Value(data: Bytes) | ServerError(text: Bytes) | EmptyResponse | IOError

  /** What a reply says to the caller: the payload; nothing for nil; the header for an array. */
  function Meaning(r: Reply): Outcome {
    match r
    case Simple(text) => Value(text)
    case Error(text) => ServerError(text)
    case Integer(n) => Value(Signed(n))
    case Bulk(data) => Value(data)
    case NilBulk => Value([])
    case Array(items) => Value([STAR] + Signed(|items|))
    case NilArray => Value([STAR] + Signed(-1))
  }

  /** A reply the client reads to its end: any but an array with items. */
  predicate Flat(r: Reply) { r.Array? ==> r.items == [] }

  /** What the client makes of the line it has read and the bytes behind it; None when the
      bytes it still needs are not there. */
  function Interpret(line: Bytes, rest: Bytes): Option<(Outcome, Bytes)> {
    if line == [] then Some((EmptyResponse, rest))
    else if line[0] == PLUS then Some((Value(line[1..]), rest))
    else if line[0] == MINUS then Some((ServerError(line[1..]), rest))
    else if line[0] == COLON then Some((Value(line[1..]), rest))
    else if line[0] == DOLLAR then
      var n := Atoi(line[1..]);
      if n < 0 then Some((Value([]), rest))
      else if n + 2 <= |rest| then Some((Value(rest[..n]), rest[n + 2..]))
      else None
    else Some((Value(line), rest))
  }

  /** Reading one reply off a stream. */
  function ReadReply(s: Bytes): Option<(Outcome, Bytes)> {
    match ReadLine(s)
    case None => None
    case Some((line, rest)) => Interpret(line, rest)
  }

  /** What the client leaves unread of a reply. */
  function Residue(r: Reply): Bytes {
    if r.Array? then EncodeReplies(r.items) else []
  }

  lemma LineReply(marker: Byte, text: Bytes, rest: Bytes)
    requires marker != CR && marker != LF && OneLine(text)
    ensures ReadReply([marker] + text + EOL + rest) == Interpret([marker] + text, rest)
    ensures ([marker] + text)[1..] == text
  {
    ReadLineBack([marker] + text, rest);
  }

  lemma TextRoundTrip(r: Reply, rest: Bytes)
    requires WellFormed(r) && (r.Simple? || r.Error? || r.Integer?)
    ensures ReadReply(EncodeReply(r) + rest) == Some((Meaning(r), rest))
  {
    match r
    case Simple(text) => LineReply(PLUS, text, rest);
    case Error(text) => LineReply(MINUS, text, rest);
    case Integer(n) =>
      SignedRoundTrip(n);
      LineReply(COLON, Signed(n), rest);
  }

  lemma BulkReplyRoundTrip(r: Reply, rest: Bytes)
    requires r.Bulk? || r.NilBulk?
    ensures ReadReply(EncodeReply(r) + rest) == Some((Meaning(r), rest))
  {
    var n, body := if r.Bulk? then |r.data| else -1, if r.Bulk? then r.data + EOL + rest else rest;
    assert EncodeReply(r) + rest == [DOLLAR] + Signed(n) + EOL + body;
    SignedRoundTrip(n);
    LineReply(DOLLAR, Signed(n), body);
    if r.Bulk? {
      assert body[..n] == r.data && body[n + 2..] == rest;
    }
  }

  lemma ArrayRoundTrip(r: Reply, rest: Bytes)
    requires r.Array? || r.NilArray?
    ensures ReadReply(EncodeReply(r) + rest) == Some((Meaning(r), Residue(r) + rest))
  {
    var n := if r.Array? then |r.items| else -1;
    assert EncodeReply(r) + rest == [STAR] + Signed(n) + EOL + (Residue(r) + rest);
    SignedRoundTrip(n);
    LineReply(STAR, Signed(n), Residue(r) + rest);
  }

  /** Reading a well-formed reply yields its meaning and leaves exactly its residue unread, so
      the stream is back in step if and only if the reply is not an array with items. */
  lemma ReplyRoundTrip(r: Reply, rest: Bytes)
    requires WellFormed(r)
    ensures ReadReply(EncodeReply(r) + rest) == Some((Meaning(r), Residue(r) + rest))
    ensures Residue(r) == [] <==> Flat(r)
  {
    if r.Bulk? || r.NilBulk? {
      BulkReplyRoundTrip(r, rest);
      assert Residue(r) + rest == rest;
    } else if r.Array? || r.NilArray? {
      ArrayRoundTrip(r, rest);
    } else {
      TextRoundTrip(r, rest);
      assert Residue(r) + rest == rest;
    }
  }

  /** The replies by their bytes, whatever follows them on the stream: `+text`, `-text` and `:text` up to a line
      end, `$n` with n bytes of data, `$-1`, and an empty line. */
  lemma RepliesByTheirBytes(text: Bytes, data: Bytes, rest: Bytes)
    requires OneLine(text)
    ensures ReadReply([43] + text + [13, 10] + rest) == Some((Value(text), rest))
    ensures ReadReply([45] + text + [13, 10] + rest) == Some((ServerError(text), rest))
    ensures ReadReply([58] + text + [13, 10] + rest) == Some((Value(text), rest))
    ensures ReadReply([36] + Decimal(|data|) + [13, 10] + (data + [13, 10] + rest)) == Some((Value(data), rest))
    ensures ReadReply([36] + [45, 49] + [13, 10] + rest) == Some((Value([]), rest))
    ensures ReadReply([] + [13, 10] + rest) == Some((EmptyResponse, rest))
  {
    LineReply(PLUS, text, rest);
    LineReply(MINUS, text, rest);
    LineReply(COLON, text, rest);
    DataReply(data, rest);
    NilReply(rest);
    ReadLineBack([], rest);
  }

  lemma DataReply(data: Bytes, rest: Bytes)
    ensures ReadReply([36] + Decimal(|data|) + [13, 10] + (data + [13, 10] + rest)) == Some((Value(data), rest))
  {
    SignedRoundTrip(|data|);
    LineReply(DOLLAR, Decimal(|data|), data + [13, 10] + rest);
    PayloadIsRead([DOLLAR] + Decimal(|data|), data, [13, 10], rest);
  }

  lemma PayloadIsRead(line: Bytes, data: Bytes, end: Bytes, rest: Bytes)
    requires line != [] && line[0] == DOLLAR && Atoi(line[1..]) == |data| && |end| == 2
    ensures Interpret(line, data + end + rest) == Some((Value(data), rest))
  {
    var body, n := data + end + rest, |data|;
    assert body[..n] == data && body[n + 2..] == rest;
  }

  lemma NilReply(rest: Bytes)
    ensures ReadReply([36] + [45, 49] + [13, 10] + rest) == Some((Value([]), rest))
  {
    OneDigit(1);
    assert Signed(-1) == [MINUS] + Decimal(1) == [45, 49];
    SignedRoundTrip(-1);
    LineReply(DOLLAR, [45, 49], rest);
  }
}
