/**
  The Anthropic stream assembler: the events of one message, in which the deltas of several
  content blocks may interleave, become text chunks, tool calls and a final chunk.
 */
module ChatStreams {
  import opened Wrappers

  /** What a tool call needs of the start of its block; other blocks carry neither. */
  datatype Block = Block(id: string, name: string)

  const NO_BLOCK := Block("", "")

  datatype Event =
    | BlockStart(index: int, block: Block)
    | TextDelta(index: int, text: string)
    | JsonDelta(index: int, partial: string)
    | BlockStop(index: int)
    | MessageDelta(outputTokens: int, stopReason: string)
    | Other

  datatype Chunk =
    | Text(text: string)
    | ToolUse(id: string, name: string, input: string)
    | Final(stopReason: string, outputTokens: int)

  datatype Received = Next(chunk: Chunk) | EndOfStream | Broken(error: string)

  function StopReason(sr: string): string {
    if sr == "tool_use" then "tool_use" else if sr == "max_tokens" then "max_tokens" else "end_turn"
  }

  /** The conversion of a 64-bit count to 32 bits. */
  function Int32(n: int): int { (n + 0x8000_0000) % 0x1_0000_0000 - 0x8000_0000 }

  /** The fragments and block starts that the assembler remembers. */
  datatype Memory = Memory(inputs: map<int, string>, meta: map<int, Block>)

  const EMPTY := Memory(map[], map[])

  function Joined(m: Memory, i: int): string { if i in m.inputs then m.inputs[i] else "" }

  function MetaOf(m: Memory, i: int): Block { if i in m.meta then m.meta[i] else NO_BLOCK }

  function Absorb(m: Memory, e: Event): (Memory, Option<Chunk>) {
    match e
    case BlockStart(i, block) => (m.(meta := m.meta[i := block]), None)
    case TextDelta(_, text) => (m, if text == "" then None else Some(Text(text)))
    case JsonDelta(i, partial) => (m.(inputs := m.inputs[i := Joined(m, i) + partial]), None)
    case BlockStop(i) =>
      if i !in m.inputs then (m, None)
      else (Memory(m.inputs - {i}, m.meta - {i}), Some(ToolUse(MetaOf(m, i).id, MetaOf(m, i).name, m.inputs[i])))
    case MessageDelta(n, sr) => (m, if n > 0 || sr != "" then Some(Final(StopReason(sr), Int32(n))) else None)
    case Other => (m, None)
  }

  /** The chunks still to come. */
  function Assemble(m: Memory, es: seq<Event>): seq<Chunk>
    decreases |es|
  {
    if es == [] then []
    else
      var (m', out) := Absorb(m, es[0]);
      (if out.Some? then [out.value] else []) + Assemble(m', es[1..])
  }

  class ChatStream {
    var pending: seq<Event>       // what the connection will still deliver
    const failure: Option<string> // the error it ends with, if any
    var toolInputs: map<int, string>
    var toolMeta: map<int, Block>
    var done: bool

    constructor (events: seq<Event>, failure: Option<string>)
      ensures pending == events && this.failure == failure && Remembered() == EMPTY && !done
    {
      pending, this.failure := events, failure;
      toolInputs, toolMeta, done := map[], map[], false;
    }

    function Remembered(): Memory
      reads this
    {
      Memory(toolInputs, toolMeta)
    }

    /** Once done, every further call returns the end of the stream and changes nothing; before
        that, each call returns the next chunk, or the end together with the stream's error. */
    method Recv() returns (r: Received)
      modifies this
      ensures old(done) ==> r == EndOfStream && done && Remembered() == old(Remembered()) && pending == old(pending)
      ensures !old(done) ==>
                var chunks := Assemble(old(Remembered()), old(pending));
                if chunks == [] then
                  done && pending == [] && r == (if failure.Some? then Broken(failure.value) else EndOfStream)
                else
                  && !done && r == Next(chunks[0]) && |pending| < |old(pending)|
                  && Assemble(Remembered(), pending) == chunks[1..]
    {
      if done {
        return EndOfStream;
      }
      while true
        invariant !done && |pending| <= |old(pending)|
        invariant Assemble(Remembered(), pending) == Assemble(old(Remembered()), old(pending))
        decreases |pending|
      {
        if pending == [] {
          done := true;
          return if failure.Some? then Broken(failure.value) else EndOfStream;
        }
        var e := pending[0];
        pending := pending[1..];
        match e {
          case BlockStart(i, block) => toolMeta := toolMeta[i := block];
          case TextDelta(_, text) =>
            if text != "" {
              return Next(Text(text));
            }
          case JsonDelta(i, partial) =>
            toolInputs := toolInputs[i := (if i in toolInputs then toolInputs[i] else "") + partial];
          case BlockStop(i) =>
            if i in toolInputs {
              var input := toolInputs[i];
              var meta := if i in toolMeta then toolMeta[i] else NO_BLOCK;
              toolInputs, toolMeta := toolInputs - {i}, toolMeta - {i};
              return Next(ToolUse(meta.id, meta.name, input));
            }
          case MessageDelta(n, sr) =>
            if n > 0 || sr != "" {
              return Next(Final(StopReason(sr), Int32(n)));
            }
          case Other =>
        }
      }
    }

    /** A consumer that calls Recv until the stream ends. */
    method Drain() returns (chunks: seq<Chunk>, end: Received)
      requires !done
      modifies this
      ensures chunks == Assemble(old(Remembered()), old(pending))
      ensures done && end == if failure.Some? then Broken(failure.value) else EndOfStream
    {
      chunks := [];
      while true
        invariant !done
        invariant chunks + Assemble(Remembered(), pending) == Assemble(old(Remembered()), old(pending))
        decreases |pending|
      {
        var r := Recv();
        if !r.Next? {
          return chunks, r;
        }
        chunks := chunks + [r.chunk];
      }
    }
  }

  // ---------- What the assembler emits, by the history of each block ----------

  /** The JSON fragments of a block since it last stopped, in the first k events, joined; None when there
      are none. */
  ghost function Fragments(es: seq<Event>, k: nat, i: int): Option<string>
    requires k <= |es|
  {
    if k == 0 then None
    else
      var earlier, e := Fragments(es, k - 1, i), es[k - 1];
      if e == BlockStop(i) then None
      else if e.JsonDelta? && e.index == i then Some((if earlier.Some? then earlier.value else "") + e.partial)
      else earlier
  }

  /** The last start of a block, in the first k events, since it last ended in a tool call. */
  ghost function Opening(es: seq<Event>, k: nat, i: int): Block
    requires k <= |es|
  {
    if k == 0 then NO_BLOCK
    else
      var e := es[k - 1];
      if e.BlockStart? && e.index == i then e.block
      else if e == BlockStop(i) && Fragments(es, k - 1, i).Some? then NO_BLOCK
      else Opening(es, k - 1, i)
  }

  /** What event k makes the assembler emit after the events before it. */
  ghost function Emits(es: seq<Event>, k: nat): seq<Chunk>
    requires k < |es|
  {
    match es[k]
    case TextDelta(_, text) => if text == "" then [] else [Text(text)]
    case BlockStop(i) =>
      var fragments, block := Fragments(es, k, i), Opening(es, k, i);
      if fragments.None? then [] else [ToolUse(block.id, block.name, fragments.value)]
    case MessageDelta(n, sr) => if n > 0 || sr != "" then [Final(StopReason(sr), Int32(n))] else []
    case _ => []
  }

  /** The first k parts, one after another. */
  function Flatten<T>(parts: seq<seq<T>>, k: nat): seq<T>
    requires k <= |parts|
  {
    if k == 0 then [] else Flatten(parts, k - 1) + parts[k - 1]
  }

  /** What each event of a stream emits. */
  ghost function Outputs(es: seq<Event>): (r: seq<seq<Chunk>>)
    ensures |r| == |es| && forall k :: 0 <= k < |es| ==> r[k] == Emits(es, k)
  {
    seq(|es|, k requires 0 <= k < |es| => Emits(es, k))
  }

  ghost predicate RecallsBlock(m: Memory, es: seq<Event>, k: nat, i: int)
    requires k <= |es|
  {
    (if i in m.inputs then Some(m.inputs[i]) else None) == Fragments(es, k, i) && MetaOf(m, i) == Opening(es, k, i)
  }

  /** The memory holds, of every block, exactly what its own history says. */
  ghost predicate Recalls(m: Memory, es: seq<Event>, k: nat)
    requires k <= |es|
  {
    forall i :: RecallsBlock(m, es, k, i)
  }

  lemma AbsorbRecalls(m: Memory, es: seq<Event>, k: nat)
    requires k < |es| && Recalls(m, es, k)
    ensures Recalls(Absorb(m, es[k]).0, es, k + 1)
    ensures (if Absorb(m, es[k]).1.Some? then [Absorb(m, es[k]).1.value] else []) == Emits(es, k)
  {
    var m', n := Absorb(m, es[k]).0, k + 1;
    forall i ensures RecallsBlock(m', es, n, i) {
      assert RecallsBlock(m, es, k, i);
    }
    if es[k].BlockStop? {
      assert RecallsBlock(m, es, k, es[k].index);
    }
  }

  lemma Regroup(xs: seq<Chunk>, ys: seq<Chunk>, zs: seq<Chunk>)
    ensures (xs + ys) + zs == xs + (ys + zs)
  {
  }

  lemma {:induction false} AssembleEmits(m: Memory, es: seq<Event>, k: nat)
    requires k <= |es| && Recalls(m, es, k)
    ensures Flatten(Outputs(es), k) + Assemble(m, es[k..]) == Flatten(Outputs(es), |es|)
    decreases |es| - k
  {
    var earlier := Flatten(Outputs(es), k);
    if k == |es| {
      assert es[k..] == [] && earlier + [] == earlier;
    } else {
      var m' := Absorb(m, es[k]).0;
      AbsorbRecalls(m, es, k);
      AssembleEmits(m', es, k + 1);
      assert es[k..][0] == es[k] && es[k..][1..] == es[k + 1..];
      Regroup(earlier, Emits(es, k), Assemble(m', es[k + 1..]));
    }
  }

  /** For every stream, with blocks interleaved in any way, the chunks are what each event emits
      given the history of its own block. */
  lemma AssemblyFollowsBlocks(es: seq<Event>)
    ensures Assemble(EMPTY, es) == Flatten(Outputs(es), |es|)
  {
    assert Recalls(EMPTY, es, 0);
    AssembleEmits(EMPTY, es, 0);
    assert es[0..] == es && [] + Assemble(EMPTY, es) == Assemble(EMPTY, es);
  }

  // ---------- Well-formed streams ----------

  ghost predicate Concerns(e: Event, i: int) {
    (e.BlockStart? || e.TextDelta? || e.JsonDelta? || e.BlockStop?) && e.index == i
  }

  /** Every block starts once, before its deltas, and has no event after its stop. */
  ghost predicate WellFormed(es: seq<Event>) {
    && (forall k, j :: 0 <= j < k < |es| && es[k].BlockStart? ==> !Concerns(es[j], es[k].index))
    && (forall k, j :: 0 <= j < k < |es| && es[j].BlockStop? ==> !Concerns(es[k], es[j].index))
    && (forall k :: 0 <= k < |es| && (es[k].JsonDelta? || es[k].BlockStop?) ==>
          exists j :: 0 <= j < k && es[j].BlockStart? && es[j].index == es[k].index)
  }

  /** The JSON fragments of a block in the first k events, in order. */
  function Jsons(es: seq<Event>, k: nat, i: int): seq<string>
    requires k <= |es|
  {
    if k == 0 then []
    else if es[k - 1].JsonDelta? && es[k - 1].index == i then Jsons(es, k - 1, i) + [es[k - 1].partial]
    else Jsons(es, k - 1, i)
  }

  function Concat(ss: seq<string>): string {
    if ss == [] then "" else Concat(ss[..|ss| - 1]) + ss[|ss| - 1]
  }

  /** Where a block starts, from event k on, or the length of the stream. */
  function StartOf(es: seq<Event>, i: int, k: nat): (s: nat)
    requires k <= |es|
    ensures k <= s <= |es| && (s < |es| ==> es[s].BlockStart? && es[s].index == i)
    ensures forall j :: k <= j < s ==> !(es[j].BlockStart? && es[j].index == i)
    decreases |es| - k
  {
    if k == |es| || (es[k].BlockStart? && es[k].index == i) then k else StartOf(es, i, k + 1)
  }

  /** The tool call of a block of the stream: its own id and name, and its fragments joined. */
  function ToolCall(es: seq<Event>, i: int): Chunk {
    var s := StartOf(es, i, 0);
    var b := if s < |es| then es[s].block else NO_BLOCK;
    ToolUse(b.id, b.name, Concat(Jsons(es, |es|, i)))
  }

  /** What event k stands for: a non-empty text delta for its text, the stop of a block that has a
      fragment for the tool call of the block, the message delta for the final chunk. */
  function ChunkAt(es: seq<Event>, k: nat): seq<Chunk>
    requires k < |es|
  {
    match es[k]
    case TextDelta(_, text) => if text != "" then [Text(text)] else []
    case BlockStop(i) => if Jsons(es, |es|, i) != [] then [ToolCall(es, i)] else []
    case MessageDelta(n, sr) => if n > 0 || sr != "" then [Final(StopReason(sr), Int32(n))] else []
    case _ => []
  }

  /** The chunks of a stream, in the order of its events. */
  function Chunks(es: seq<Event>): seq<Chunk> {
    Flatten(seq(|es|, k requires 0 <= k < |es| => ChunkAt(es, k)), |es|)
  }

  lemma ConcatSnoc(ss: seq<string>, last: string)
    ensures Concat(ss + [last]) == Concat(ss) + last
  {
    assert (ss + [last])[..|ss|] == ss;
  }

  /** The block does not stop in the first k events. */
  ghost predicate Unstopped(es: seq<Event>, k: nat, i: int)
    requires k <= |es|
  {
    forall j :: 0 <= j < k ==> es[j] != BlockStop(i)
  }

  lemma {:induction false} FragmentsOfOpenBlock(es: seq<Event>, k: nat, i: int)
    requires k <= |es| && Unstopped(es, k, i)
    ensures Fragments(es, k, i) == if Jsons(es, k, i) == [] then None else Some(Concat(Jsons(es, k, i)))
  {
    if k > 0 {
      var e := es[k - 1];
      FragmentsOfOpenBlock(es, k - 1, i);
      if e.JsonDelta? && e.index == i {
        ConcatSnoc(Jsons(es, k - 1, i), e.partial);
        assert Concat([]) == "" && "" + e.partial == e.partial;
      }
    }
  }

  lemma {:induction false} OpeningOfOpenBlock(es: seq<Event>, k: nat, i: int, s: nat)
    requires s < k <= |es| && Unstopped(es, k, i) && es[s].BlockStart? && es[s].index == i
    requires forall j :: s < j < |es| ==> !(es[j].BlockStart? && es[j].index == i)
    ensures Opening(es, k, i) == es[s].block
  {
    if s < k - 1 {
      OpeningOfOpenBlock(es, k - 1, i, s);
    }
  }

  lemma {:induction false} JsonsStable(es: seq<Event>, k: nat, n: nat, i: int)
    requires k <= n <= |es| && forall j :: k <= j < |es| ==> !(es[j].JsonDelta? && es[j].index == i)
    ensures Jsons(es, n, i) == Jsons(es, k, i)
  {
    if k < n {
      JsonsStable(es, k, n - 1, i);
    }
  }

  lemma UnstoppedBefore(es: seq<Event>, k: nat)
    requires WellFormed(es) && k < |es| && es[k].BlockStop?
    ensures Unstopped(es, k, es[k].index)
  {
    forall j | 0 <= j < k ensures es[j] != BlockStop(es[k].index) {
      assert es[j].BlockStop? ==> !Concerns(es[k], es[j].index);
    }
  }

  /** The block that stops at k starts before, and nowhere else. */
  lemma StartsBefore(es: seq<Event>, k: nat)
    requires WellFormed(es) && k < |es| && es[k].BlockStop?
    ensures var s := StartOf(es, es[k].index, 0);
            && s < k && es[s].BlockStart? && es[s].index == es[k].index
            && forall j :: s < j < |es| ==> !(es[j].BlockStart? && es[j].index == es[k].index)
  {
    var i := es[k].index;
    var s := StartOf(es, i, 0);
    forall j | s < j < |es| ensures !(es[j].BlockStart? && es[j].index == i) {
      assert Concerns(es[s], i);
    }
  }

  lemma NoJsonAfter(es: seq<Event>, k: nat)
    requires WellFormed(es) && k < |es| && es[k].BlockStop?
    ensures Jsons(es, |es|, es[k].index) == Jsons(es, k, es[k].index)
  {
    var i := es[k].index;
    forall j | k <= j < |es| ensures !(es[j].JsonDelta? && es[j].index == i) {
      assert j > k ==> !Concerns(es[j], i);
    }
    JsonsStable(es, k, |es|, i);
  }

  lemma StopEmitsToolCall(es: seq<Event>, k: nat)
    requires WellFormed(es) && k < |es| && es[k].BlockStop?
    ensures Emits(es, k) == ChunkAt(es, k)
  {
    UnstoppedBefore(es, k);
    FragmentsOfOpenBlock(es, k, es[k].index);
    NoJsonAfter(es, k);
    StartsBefore(es, k);
    OpeningOfOpenBlock(es, k, es[k].index, StartOf(es, es[k].index, 0));
  }

  /** For every well-formed stream, with blocks interleaved in any way, the chunks are, in the order of the
      events: each non-empty text delta, one tool call per stopped block that has a fragment, with that
      block's id and name and its fragments joined in order, and the final chunk. */
  lemma WellFormedStreamsAssemble(es: seq<Event>)
    requires WellFormed(es)
    ensures Assemble(EMPTY, es) == Chunks(es)
  {
    AssemblyFollowsBlocks(es);
    forall k | 0 <= k < |es| ensures Emits(es, k) == ChunkAt(es, k) {
      if es[k].BlockStop? {
        StopEmitsToolCall(es, k);
      }
    }
    assert Outputs(es) == seq(|es|, k requires 0 <= k < |es| => ChunkAt(es, k));
  }

  // ---------- The final chunk ----------

  /** The conversion wraps around, and keeps every count that fits. */
  lemma Int32Wraps(n: int)
    ensures -0x8000_0000 <= Int32(n) < 0x8000_0000 && (Int32(n) - n) % 0x1_0000_0000 == 0
    ensures -0x8000_0000 <= n < 0x8000_0000 ==> Int32(n) == n
  {
  }

  /** In every stream a message delta becomes the final chunk with its own reason and count: a reason that asks
      for tools or that ran into the limit is passed on, every other one ends the turn, and without a reason
      and a count there is no chunk. */
  lemma FinalChunkIsItsEvents(es: seq<Event>, k: nat, n: int, reason: string)
    requires k < |es| && es[k] == MessageDelta(n, reason)
    ensures Outputs(es)[k] == [] <==> n <= 0 && reason == ""
    ensures Outputs(es)[k] != [] ==>
              && |Outputs(es)[k]| == 1 && Outputs(es)[k][0].Final?
              && (reason == "tool_use" ==> Outputs(es)[k][0].stopReason == "tool_use")
              && (reason == "max_tokens" ==> Outputs(es)[k][0].stopReason == "max_tokens")
              && (reason != "tool_use" && reason != "max_tokens" ==> Outputs(es)[k][0].stopReason == "end_turn")
              && (Outputs(es)[k][0].outputTokens - n) % 0x1_0000_0000 == 0
              && (-0x8000_0000 <= n < 0x8000_0000 ==> Outputs(es)[k][0].outputTokens == n)
  {
    Int32Wraps(n);
  }
}
