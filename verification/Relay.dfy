/**
 What a relay makes of its runtime (`relay.py`): whether a byte of its work has gone out, how the answer
 ends, and what is kept of a chat stream for a replay.
 */
module Relay {
  import opened Text

  // -- One client, one try a request -------------------------------------------------------

  /** What becomes of one request: no connection, a transport error after that, or a response. */
  datatype Try<R> = ConnectFails | Breaks | Responds(response: R)

  /** The client keeps in mind whether any byte of a work request may have been written. */
  class Client {
    var written: bool

    constructor ()
      ensures !written
    {
      written := false;
    }

    method Post<R>(t: Try<R>)
      modifies this
      ensures written == (old(written) || !t.ConnectFails?)
    {
      if !t.ConnectFails? {
        written := true;
      }
    }
  }

  datatype Reply<C> =
    | Completed(result: Option<Replay<C>>, replayUnavailable: bool)
    | RuntimeRefused
    | NotSent
    | Uncertain(chunks: nat, end: End)
    | RaisedOut   // the dispatcher takes it for uncertain

  /** How the transport lets go of a stream: after its last line, or instead of one. */
  datatype End = EndOfStream | TransportError | IdleTimeout

  /** A load or an unload: a runtime that refuses `generate` with 400 is asked to embed nothing instead. */
  method Lifecycle(client: Client, generate: Try<nat>, embed: Try<nat>) returns (reply: Reply<()>)
    modifies client
    ensures reply == NotSent <==> generate.ConnectFails?
    ensures !old(client.written) ==> (reply == NotSent <==> !client.written)
    ensures reply.Completed? <==>
              (generate.Responds? && generate.response < 400)
              || (generate == Responds(400) && embed.Responds? && embed.response < 400)
    ensures reply.Uncertain? <==> generate.Breaks? || (generate == Responds(400) && !embed.Responds?)
  {
    client.Post(generate);
    if generate.ConnectFails? {
      return NotSent;
    }
    if generate.Breaks? {
      return Uncertain(0, TransportError);
    }
    var status := generate.response;
    if status == 400 {
      client.Post(embed);
      if !embed.Responds? {
        return Uncertain(0, TransportError);
      }
      status := embed.response;
    }
    reply := if status >= 400 then RuntimeRefused else Completed(None, false);
  }

  /** A probe's answer: JSON or not, an object or not, the width of its first vector, its tokens. */
  datatype ProbeAnswer = ProbeAnswer(status: nat, readable: bool, width: nat, done: bool, generated: nat)

  method Probe(client: Client, embedding: bool, post: Try<ProbeAnswer>) returns (reply: Reply<()>)
    modifies client
    ensures !old(client.written) ==> (reply == NotSent <==> !client.written)
    ensures reply.Completed? <==> post.Responds? && var a := post.response;
              a.status < 400 && a.readable && (if embedding then a.width > 0 else a.done && a.generated > 0)
    ensures reply.Uncertain? <==> post.Breaks?
  {
    client.Post(post);
    match post
    case ConnectFails => reply := NotSent;
    case Breaks => reply := Uncertain(0, TransportError);
    case Responds(a) =>
      if a.status >= 400 || !a.readable {
        reply := RuntimeRefused;
      } else if embedding {
        reply := if a.width == 0 then RuntimeRefused else Completed(None, false);
      } else {
        reply := if !a.done || a.generated == 0 then RuntimeRefused else Completed(None, false);
      }
  }

  /** The body of an embedding's response. */
  datatype EmbedBody = NotJson | NotObject | NoVectors | Vectors

  method Embed(client: Client, post: Try<(nat, EmbedBody)>) returns (reply: Reply<()>)
    modifies client
    ensures !old(client.written) ==> (reply == NotSent <==> !client.written)
    ensures reply.Completed? <==> post == Responds((200, Vectors))
    ensures reply.Uncertain? <==> post.Breaks?
    ensures reply == RaisedOut <==> post == Responds((200, NotObject))
  {
    client.Post(post);
    match post
    case ConnectFails => reply := NotSent;
    case Breaks => reply := Uncertain(0, TransportError);
    case Responds((status, body)) =>
      if status != 200 || body == NotJson || body == NoVectors {
        reply := RuntimeRefused;
      } else {
        reply := if body == NotObject then RaisedOut else Completed(None, false);
      }
  }

  /** A line of a pull's progress. */
  datatype Progress = NoProgress | Odd | Progress(error: bool, success: bool)

  predicate EndsPull(p: Progress) {
    p == Odd || (p.Progress? && (p.error || p.success))
  }

  /** The first line that ends a pull decides it; without one nothing is known. */
  method Pull(client: Client, post: Try<(nat, seq<Progress>, End)>) returns (reply: Reply<()>)
    modifies client
    ensures !old(client.written) ==> (reply == NotSent <==> !client.written)
    ensures post.Breaks? ==> reply == Uncertain(0, TransportError)
    ensures post.Responds? && post.response.0 != 200 ==> reply == RuntimeRefused
    ensures post.Responds? && post.response.0 == 200 ==>
              var lines := post.response.1;
              && (reply.Completed? <==> exists k :: SucceedsAt(lines, k))
              && (reply == RuntimeRefused <==> exists k :: RefusedAt(lines, k))
              && (reply.Uncertain? <==> forall p | p in lines :: !EndsPull(p))
  {
    client.Post(post);
    if post.ConnectFails? {
      return NotSent;
    }
    if post.Breaks? {
      return Uncertain(0, TransportError);
    }
    var (status, lines, end) := post.response;
    if status != 200 {
      return RuntimeRefused;
    }
    for i := 0 to |lines|
      invariant forall j | 0 <= j < i :: !EndsPull(lines[j])
    {
      assert lines[i] in lines;
      if lines[i] == Odd {
        return RaisedOut;
      }
      if lines[i].Progress? && lines[i].error {
        assert RefusedAt(lines, i);
        return RuntimeRefused;
      }
      if lines[i].Progress? && lines[i].success {
        assert SucceedsAt(lines, i);
        return Completed(None, false);
      }
    }
    reply := Uncertain(0, end);
  }

  ghost predicate RefusedAt(lines: seq<Progress>, k: int) {
    && 0 <= k < |lines| && lines[k].Progress? && lines[k].error
    && forall j | 0 <= j < k :: !EndsPull(lines[j])
  }

  ghost predicate SucceedsAt(lines: seq<Progress>, k: int) {
    && 0 <= k < |lines| && lines[k].Progress? && lines[k].success && !lines[k].error
    && forall j | 0 <= j < k :: !EndsPull(lines[j])
  }

  // -- A chat stream ---------------------------------------------------------------------------

  /**
   A line of the stream; `C` is a tool call, which nothing here looks into. A message is `typed` if it is
   an object, its texts are texts and its calls a list: reading it for the replay raises otherwise.
   */
  datatype Line<C> =
    | Blank
    | Junk     // not JSON
    | Scalar   // JSON, but no object: reading its fields raises
    | Event(error: bool, typed: bool, content: string, thinking: string, calls: seq<C>, done: bool)

  datatype Replay<C> = Replay(content: string, thinking: string, calls: seq<C>)

  datatype Stream<C> = Stream(status: nat, lines: seq<Line<C>>, end: End)

  /** Does the stream end here? `kept` says that the replay is still being kept. */
  predicate Ends<C>(line: Line<C>, kept: bool) {
    line.Scalar? || (line.Event? && (line.error || line.done || (kept && !line.typed)))
  }

  /** What one line adds to the replay, in bytes; `dumped` is the length of a list of calls as JSON. */
  function Piece<C>(line: Line<C>, dumped: seq<C> -> nat): nat {
    if line.Event? then |Utf8(line.content)| + |Utf8(line.thinking)| + dumped(line.calls) else 0
  }

  function Size<C>(heard: seq<Line<C>>, dumped: seq<C> -> nat): nat {
    if heard == [] then 0 else Piece(heard[0], dumped) + Size(heard[1..], dumped)
  }

  /** The bound of a replay; none is kept without one. */
  datatype Cap<!C> = Cap(store: bool, bytes: nat, dumped: seq<C> -> nat)
  {
    /** Is the replay still kept after this many bytes? */
    predicate Keeps(size: nat) {
      store && size <= bytes
    }
  }

  /** The lines that are handed on: what is JSON, up to the first that ends the stream. */
  function Heard<C>(lines: seq<Line<C>>, size: nat, cap: Cap<C>): seq<Line<C>> {
    if lines == [] then []
    else if lines[0].Blank? || lines[0].Junk? then Heard(lines[1..], size, cap)
    else if Ends(lines[0], cap.Keeps(size)) then [lines[0]]
    else [lines[0]] + Heard(lines[1..], size + Piece(lines[0], cap.dumped), cap)
  }

  function Contents<C>(heard: seq<Line<C>>): string {
    if heard == [] then [] else (if heard[0].Event? then heard[0].content else []) + Contents(heard[1..])
  }

  function Thinking<C>(heard: seq<Line<C>>): string {
    if heard == [] then [] else (if heard[0].Event? then heard[0].thinking else []) + Thinking(heard[1..])
  }

  function Calls<C>(heard: seq<Line<C>>): seq<C> {
    if heard == [] then [] else (if heard[0].Event? then heard[0].calls else []) + Calls(heard[1..])
  }

  function ReplayOf<C>(heard: seq<Line<C>>): Replay<C> {
    Replay(Contents(heard), Thinking(heard), Calls(heard))
  }

  /** What the reply has to be when this line was the last one heard. */
  function Judged<C>(before: seq<Line<C>>, last: Line<C>, end: End, cap: Cap<C>): Reply<C> {
    var size := Size(before, cap.dumped);
    if !Ends(last, cap.Keeps(size)) then Uncertain(|before| + 1, end)
    else if last.Scalar? then RaisedOut
    else if last.error then RuntimeRefused
    else if cap.Keeps(size) && !last.typed then RaisedOut
    else
      var fits := cap.Keeps(size + Piece(last, cap.dumped));
      Completed(if fits then Some(ReplayOf(before + [last])) else None, cap.store && !fits)
  }

  /** What the reply has to be, from all that was heard, and from the end of the stream if nothing ended it. */
  function Verdict<C>(heard: seq<Line<C>>, end: End, cap: Cap<C>): Reply<C> {
    if heard == [] then Uncertain(0, end) else Judged(heard[..|heard| - 1], heard[|heard| - 1], end, cap)
  }

  lemma {:induction false} SizeMore<C>(a: seq<Line<C>>, line: Line<C>, dumped: seq<C> -> nat)
    ensures Size(a + [line], dumped) == Size(a, dumped) + Piece(line, dumped)
  {
    if a == [] {
      assert a + [line] == [line];
    } else {
      assert (a + [line])[0] == a[0] && (a + [line])[1..] == a[1..] + [line];
      SizeMore(a[1..], line, dumped);
    }
  }

  lemma {:induction false} ContentsMore<C>(a: seq<Line<C>>, line: Line<C>)
    requires line.Event?
    ensures Contents(a + [line]) == Contents(a) + line.content
  {
    if a == [] {
      assert a + [line] == [line];
    } else {
      assert (a + [line])[0] == a[0] && (a + [line])[1..] == a[1..] + [line];
      ContentsMore(a[1..], line);
    }
  }

  lemma {:induction false} ThinkingMore<C>(a: seq<Line<C>>, line: Line<C>)
    requires line.Event?
    ensures Thinking(a + [line]) == Thinking(a) + line.thinking
  {
    if a == [] {
      assert a + [line] == [line];
    } else {
      assert (a + [line])[0] == a[0] && (a + [line])[1..] == a[1..] + [line];
      ThinkingMore(a[1..], line);
    }
  }

  lemma {:induction false} CallsMore<C>(a: seq<Line<C>>, line: Line<C>)
    requires line.Event?
    ensures Calls(a + [line]) == Calls(a) + line.calls
  {
    if a == [] {
      assert a + [line] == [line];
    } else {
      assert (a + [line])[0] == a[0] && (a + [line])[1..] == a[1..] + [line];
      CallsMore(a[1..], line);
    }
  }

  lemma HeardMore<C>(a: seq<Line<C>>, line: Line<C>, dumped: seq<C> -> nat)
    requires line.Event?
    ensures Size(a + [line], dumped) == Size(a, dumped) + Piece(line, dumped)
    ensures ReplayOf(a + [line])
         == Replay(Contents(a) + line.content, Thinking(a) + line.thinking, Calls(a) + line.calls)
    ensures (a + [line])[..|a + [line]| - 1] == a
  {
    SizeMore(a, line, dumped);
    ContentsMore(a, line);
    ThinkingMore(a, line);
    CallsMore(a, line);
  }

  /** The replay as far as it has been kept. */
  ghost predicate Keeping<C>(emitted: seq<Line<C>>, cap: Cap<C>, overflowed: bool, bytes: nat, replay: Replay<C>) {
    cap.store ==>
      && (overflowed <==> !cap.Keeps(Size(emitted, cap.dumped)))
      && (!overflowed ==> bytes == Size(emitted, cap.dumped) && replay == ReplayOf(emitted))
  }

  lemma HeardNext<C>(lines: seq<Line<C>>, i: nat, size: nat, cap: Cap<C>)
    requires i < |lines|
    ensures var line := lines[i];
      Heard(lines[i..], size, cap) ==
        if line.Blank? || line.Junk? then Heard(lines[i + 1..], size, cap)
        else if Ends(line, cap.Keeps(size)) then [line]
        else [line] + Heard(lines[i + 1..], size + Piece(line, cap.dumped), cap)
  {
    assert lines[i..][0] == lines[i] && lines[i..][1..] == lines[i + 1..];
  }

  /** A line that goes on moves from what is to come to what was heard; one that ends it is the last. */
  lemma HeardOn<C>(lines: seq<Line<C>>, i: nat, emitted: seq<Line<C>>, cap: Cap<C>)
    requires i < |lines| && !lines[i].Blank? && !lines[i].Junk?
    ensures var size, more := Size(emitted, cap.dumped), emitted + [lines[i]];
      emitted + Heard(lines[i..], size, cap) ==
        if Ends(lines[i], cap.Keeps(size)) then more else more + Heard(lines[i + 1..], Size(more, cap.dumped), cap)
  {
    HeardNext(lines, i, Size(emitted, cap.dumped), cap);
    SizeMore(emitted, lines[i], cap.dumped);
  }

  lemma VerdictOfLast<C>(before: seq<Line<C>>, line: Line<C>, end: End, cap: Cap<C>)
    ensures Verdict(before + [line], end, cap) == Judged(before, line, end, cap)
  {
    assert (before + [line])[..|before|] == before;
  }

  /** So far nothing has ended the stream, and what is to come is heard from line `i` on. */
  ghost predicate OnTrack<C>(lines: seq<Line<C>>, i: nat, emitted: seq<Line<C>>, end: End, cap: Cap<C>)
    requires i <= |lines|
  {
    && emitted + Heard(lines[i..], Size(emitted, cap.dumped), cap) == Heard(lines, 0, cap)
    && Verdict(emitted, end, cap) == Uncertain(|emitted|, end)
  }

  lemma TrackEnds<C>(lines: seq<Line<C>>, i: nat, emitted: seq<Line<C>>, end: End, cap: Cap<C>)
    requires i < |lines| && OnTrack(lines, i, emitted, end, cap) && !lines[i].Blank? && !lines[i].Junk?
    requires Ends(lines[i], cap.Keeps(Size(emitted, cap.dumped)))
    ensures emitted + [lines[i]] == Heard(lines, 0, cap)
  {
    HeardOn(lines, i, emitted, cap);
  }

  lemma TrackGoesOn<C>(lines: seq<Line<C>>, i: nat, emitted: seq<Line<C>>, end: End, cap: Cap<C>)
    requires i < |lines| && OnTrack(lines, i, emitted, end, cap) && !lines[i].Blank? && !lines[i].Junk?
    requires !Ends(lines[i], cap.Keeps(Size(emitted, cap.dumped)))
    ensures OnTrack(lines, i + 1, emitted + [lines[i]], end, cap)
  {
    HeardOn(lines, i, emitted, cap);
    VerdictOfLast(emitted, lines[i], end, cap);
  }

  lemma TrackSkips<C>(lines: seq<Line<C>>, i: nat, emitted: seq<Line<C>>, end: End, cap: Cap<C>)
    requires i < |lines| && OnTrack(lines, i, emitted, end, cap) && (lines[i].Blank? || lines[i].Junk?)
    ensures OnTrack(lines, i + 1, emitted, end, cap)
  {
    HeardNext(lines, i, Size(emitted, cap.dumped), cap);
  }

  lemma TrackStarts<C>(lines: seq<Line<C>>, end: End, cap: Cap<C>)
    ensures OnTrack(lines, 0, [], end, cap)
  {
    assert lines[0..] == lines;
  }

  lemma TrackRunsOut<C>(lines: seq<Line<C>>, emitted: seq<Line<C>>, end: End, cap: Cap<C>)
    requires OnTrack(lines, |lines|, emitted, end, cap)
    ensures emitted == Heard(lines, 0, cap)
  {
    assert lines[|lines|..] == [];
  }

  method ReadStream<C>(lines: seq<Line<C>>, end: End, cap: Cap<C>) returns (reply: Reply<C>, emitted: seq<Line<C>>)
    ensures emitted == Heard(lines, 0, cap) && reply == Verdict(emitted, end, cap)
  {
    emitted := [];
    var chunks: nat, replay: Replay<C>, replayBytes: nat, overflowed := 0, Replay([], [], []), 0, false;
    TrackStarts(lines, end, cap);
    for i := 0 to |lines|
      invariant OnTrack(lines, i, emitted, end, cap)
      invariant Keeping(emitted, cap, overflowed, replayBytes, replay) && chunks == |emitted|
    {
      var line := lines[i];
      if line.Blank? || line.Junk? {
        TrackSkips(lines, i, emitted, end, cap);
        continue;
      }
      if Ends(line, cap.store && !overflowed) {
        TrackEnds(lines, i, emitted, end, cap);
        reply := EndStream(emitted, line, end, cap, overflowed, replayBytes, replay);
        return reply, emitted + [line];
      }
      TrackGoesOn(lines, i, emitted, end, cap);
      HeardMore(emitted, line, cap.dumped);
      if cap.store && !overflowed {
        overflowed, replayBytes, replay := Keep(line, cap, replayBytes, replay);
      }
      emitted := emitted + [line];
      chunks := chunks + 1;
    }
    TrackRunsOut(lines, emitted, end, cap);
    reply := Uncertain(chunks, end);
  }

  /** The line that ends the stream: an error, something that raises, or `done`, kept like any other. */
  method EndStream<C>(ghost emitted: seq<Line<C>>, line: Line<C>, ghost end: End, cap: Cap<C>, overflowed: bool,
                      bytes: nat, replay: Replay<C>)
    returns (reply: Reply<C>)
    requires Keeping(emitted, cap, overflowed, bytes, replay) && Ends(line, cap.store && !overflowed)
    ensures reply == Verdict(emitted + [line], end, cap)
  {
    VerdictOfLast(emitted, line, end, cap);
    if line.Scalar? {
      return RaisedOut;
    }
    HeardMore(emitted, line, cap.dumped);
    if line.error {
      return RuntimeRefused;
    }
    var lost, kept := overflowed, replay;
    if cap.store && !overflowed {
      if !line.typed {
        return RaisedOut;
      }
      var size;
      lost, size, kept := Keep(line, cap, bytes, replay);
    }
    reply := Completed(if cap.store && !lost then Some(kept) else None, cap.store && lost);
  }

  /** One more line into the replay, or the end of the replay. */
  method Keep<C>(line: Line<C>, cap: Cap<C>, bytes: nat, replay: Replay<C>)
    returns (overflowed: bool, bytes': nat, replay': Replay<C>)
    requires line.Event?
    ensures overflowed <==> bytes + Piece(line, cap.dumped) > cap.bytes
    ensures !overflowed ==>
              && bytes' == bytes + Piece(line, cap.dumped)
              && replay' == Replay(replay.content + line.content, replay.thinking + line.thinking,
                                   replay.calls + line.calls)
  {
    var piece := |Utf8(line.content)| + |Utf8(line.thinking)| + cap.dumped(line.calls);
    overflowed := bytes + piece > cap.bytes;
    if overflowed {
      bytes', replay' := bytes, Replay([], [], []);
    } else {
      bytes' := bytes + piece;
      replay' := Replay(replay.content + line.content, replay.thinking + line.thinking, replay.calls + line.calls);
    }
  }

  method StreamChat<C>(client: Client, post: Try<Stream<C>>, cap: Cap<C>)
    returns (reply: Reply<C>, emitted: seq<Line<C>>)
    modifies client
    ensures reply == NotSent <==> post.ConnectFails?
    ensures !old(client.written) ==> (reply == NotSent <==> !client.written)
    ensures post.Responds? && post.response.status == 200 ==>
              emitted == Heard(post.response.lines, 0, cap) && reply == Verdict(emitted, post.response.end, cap)
    ensures post.Breaks? ==> reply == Uncertain(0, TransportError)
    ensures post.Responds? && post.response.status != 200 ==> reply == RuntimeRefused
    ensures !(post.Responds? && post.response.status == 200) ==> emitted == []
  {
    emitted := [];
    client.Post(post);
    match post
    case ConnectFails => reply := NotSent;
    case Breaks => reply := Uncertain(0, TransportError);
    case Responds(stream) =>
      if stream.status != 200 {
        reply := RuntimeRefused;
      } else {
        reply, emitted := ReadStream(stream.lines, stream.end, cap);
      }
  }

  /** `chat`: only weights that were measured are sent to, and asking which they are writes no work. */
  method Chat<C>(client: Client, expected: Option<string>, served: Try<Option<string>>, post: Try<Stream<C>>,
                 cap: Cap<C>)
    returns (reply: Reply<C>, emitted: seq<Line<C>>)
    modifies client
    ensures !old(client.written) ==> (reply == NotSent <==> !client.written)
    ensures reply == NotSent <==> post.ConnectFails? || (expected.Some? && served != Responds(expected))
    ensures reply == NotSent ==> emitted == []
    ensures reply != NotSent && post.Responds? && post.response.status == 200 ==>
              emitted == Heard(post.response.lines, 0, cap) && reply == Verdict(emitted, post.response.end, cap)
    ensures reply != NotSent && post.Responds? && post.response.status != 200 ==> reply == RuntimeRefused
    ensures reply != NotSent && post.Breaks? ==> reply == Uncertain(0, TransportError)
  {
    if expected.Some? {
      if !served.Responds? || served.response != expected {
        return NotSent, [];
      }
    }
    reply, emitted := StreamChat(client, post, cap);
  }

  // -- When a stream counts as complete --------------------------------------------------------------

  /** The runtime's `done` comes before any error and before anything that raises. */
  ghost predicate DoneAt<C>(lines: seq<Line<C>>, k: int, size: nat, cap: Cap<C>) {
    && 0 <= k < |lines| && lines[k].Event? && lines[k].done && !lines[k].error
    && (cap.Keeps(size + Size(lines[..k], cap.dumped)) ==> lines[k].typed)
    && forall j | 0 <= j < k :: !Ends(lines[j], cap.Keeps(size + Size(lines[..j], cap.dumped)))
  }

  ghost predicate DoneFirst<C>(lines: seq<Line<C>>, size: nat, cap: Cap<C>) {
    exists k :: DoneAt(lines, k, size, cap)
  }

  lemma SizeOfTail<C>(lines: seq<Line<C>>, j: nat, dumped: seq<C> -> nat)
    requires 0 < j <= |lines|
    ensures Size(lines[..j], dumped) == Piece(lines[0], dumped) + Size(lines[1..][..j - 1], dumped)
  {
    assert lines[..j][0] == lines[0] && lines[..j][1..] == lines[1..][..j - 1];
  }

  lemma DoneEarlier<C>(lines: seq<Line<C>>, k: int, size: nat, cap: Cap<C>)
    requires lines != [] && k > 0 && DoneAt(lines, k, size, cap)
    ensures DoneAt(lines[1..], k - 1, size + Piece(lines[0], cap.dumped), cap)
  {
    SizeOfTail(lines, k, cap.dumped);
    forall j | 0 <= j < k - 1
      ensures !Ends(lines[1..][j], cap.Keeps(size + Piece(lines[0], cap.dumped) + Size(lines[1..][..j], cap.dumped)))
    {
      SizeOfTail(lines, j + 1, cap.dumped);
      assert lines[1..][j] == lines[j + 1];
    }
  }

  lemma DoneLater<C>(lines: seq<Line<C>>, k: int, size: nat, cap: Cap<C>)
    requires lines != [] && !Ends(lines[0], cap.Keeps(size))
    requires DoneAt(lines[1..], k, size + Piece(lines[0], cap.dumped), cap)
    ensures DoneAt(lines, k + 1, size, cap)
  {
    SizeOfTail(lines, k + 1, cap.dumped);
    assert lines[1..][k] == lines[k + 1];
    forall j | 0 <= j < k + 1 ensures !Ends(lines[j], cap.Keeps(size + Size(lines[..j], cap.dumped))) {
      if j == 0 {
        assert lines[..0] == [];
      } else {
        SizeOfTail(lines, j, cap.dumped);
        assert lines[1..][j - 1] == lines[j];
      }
    }
  }

  lemma DoneShifts<C>(lines: seq<Line<C>>, size: nat, cap: Cap<C>)
    requires lines != [] && !Ends(lines[0], cap.Keeps(size))
    ensures DoneFirst(lines, size, cap) <==> DoneFirst(lines[1..], size + Piece(lines[0], cap.dumped), cap)
  {
    if k :| DoneAt(lines, k, size, cap) {
      assert k > 0 by {
        assert lines[..0] == [];
      }
      DoneEarlier(lines, k, size, cap);
    }
    var tail, more := lines[1..], size + Piece(lines[0], cap.dumped);
    if k :| DoneAt(tail, k, more, cap) {
      DoneLater(lines, k, size, cap);
    }
  }

  /** Completed, as seen from a line before which `size` bytes were kept. */
  ghost predicate IsComplete<C>(heard: seq<Line<C>>, size: nat, cap: Cap<C>) {
    heard != [] && var n := |heard| - 1; var kept := cap.Keeps(size + Size(heard[..n], cap.dumped));
      heard[n].Event? && heard[n].done && !heard[n].error && (kept ==> heard[n].typed)
  }

  lemma {:induction false} CompleteFrom<C>(lines: seq<Line<C>>, size: nat, cap: Cap<C>)
    ensures IsComplete(Heard(lines, size, cap), size, cap) <==> DoneFirst(lines, size, cap)
  {
    if lines != [] {
      var heard := Heard(lines, size, cap);
      if Ends(lines[0], cap.Keeps(size)) {
        assert heard == [lines[0]] && heard[..0] == [] && lines[..0] == [];
        if IsComplete(heard, size, cap) { assert DoneAt(lines, 0, size, cap); }
      } else {
        DoneShifts(lines, size, cap);
        CompleteFrom(lines[1..], size + Piece(lines[0], cap.dumped), cap);
        if !lines[0].Blank? && !lines[0].Junk? {
          CompleteShifts(lines[0], Heard(lines[1..], size + Piece(lines[0], cap.dumped), cap), size, cap);
        }
      }
    }
  }

  lemma CompleteShifts<C>(line: Line<C>, rest: seq<Line<C>>, size: nat, cap: Cap<C>)
    requires !Ends(line, cap.Keeps(size))
    ensures IsComplete([line] + rest, size, cap) <==> IsComplete(rest, size + Piece(line, cap.dumped), cap)
  {
    var heard := [line] + rest;
    if rest == [] {
      assert heard[..0] == [];
    } else {
      SizeOfTail(heard, |rest|, cap.dumped);
      assert heard[1..] == rest;
    }
  }

  /** A stream counts as complete exactly when the runtime said so, whatever the transport did next. */
  lemma CompletedMeansDone<C>(lines: seq<Line<C>>, end: End, cap: Cap<C>)
    ensures Verdict(Heard(lines, 0, cap), end, cap).Completed? <==> DoneFirst(lines, 0, cap)
  {
    CompleteFrom(lines, 0, cap);
  }
}
