/**
  Reading a task's logs by cursor: pages of at most `limit` chunks after a
  sequence number, and the streaming loop built on them. Against the list of all
  stored chunks, which may grow while it is read.
 */
module LogPaging {
  import opened Common

  datatype Chunk = Chunk(seqno: int, data: string)

  // Stored chunks of one attempt: unique sequence numbers, ascending.
  predicate Ascending(cs: seq<Chunk>) {
    forall i, j :: 0 <= i < j < |cs| ==> cs[i].seqno < cs[j].seqno
  }

  function After(cs: seq<Chunk>, cursor: int): seq<Chunk> {
    if cs == [] then []
    else if cs[0].seqno > cursor then [cs[0]] + After(cs[1..], cursor)
    else After(cs[1..], cursor)
  }

  // The limit parameter, held to 1..1000.
  function PageLimit(limit: int): (n: nat)
    ensures 1 <= limit <= 1000 ==> n == limit
    ensures limit < 1 ==> n == 1
    ensures limit > 1000 ==> n == 1000
  {
    Max(1, Min(limit, 1000))
  }

  // store.ListTaskLogs: the first `limit` chunks after the cursor.
  function ListTaskLogs(cs: seq<Chunk>, after: int, limit: nat): seq<Chunk> {
    var rest := After(cs, after);
    if |rest| <= limit then rest else rest[..limit]
  }

  lemma {:induction false} AfterNothing(cs: seq<Chunk>, cursor: int)
    requires forall i :: 0 <= i < |cs| ==> cs[i].seqno > cursor
    ensures After(cs, cursor) == cs
  {
    if cs != [] {
      AfterNothing(cs[1..], cursor);
    }
  }

  // Chunks after a cursor are the stored ones above it, in order.
  lemma {:induction false} AfterIsSuffix(cs: seq<Chunk>, cursor: int) returns (k: nat)
    requires Ascending(cs)
    ensures k <= |cs| && After(cs, cursor) == cs[k..]
    ensures forall i :: 0 <= i < |cs| ==> (cs[i].seqno > cursor <==> k <= i)
  {
    if cs == [] {
      k := 0;
    } else if cs[0].seqno > cursor {
      AfterNothing(cs, cursor);
      k := 0;
    } else {
      var j := AfterIsSuffix(cs[1..], cursor);
      k := j + 1;
      assert cs[1..][j..] == cs[k..];
      assert forall i :: 1 <= i < |cs| ==> cs[i] == cs[1..][i - 1];
    }
  }

  // Moving the cursor to the n-th chunk of what is left leaves what follows it.
  lemma CursorAdvances(cs: seq<Chunk>, cursor: int, n: nat)
    requires Ascending(cs) && 0 < n <= |After(cs, cursor)|
    ensures After(cs, After(cs, cursor)[n - 1].seqno) == After(cs, cursor)[n..]
    ensures After(cs, cursor)[n - 1].seqno > cursor
  {
    var k := AfterIsSuffix(cs, cursor);
    var last := cs[k + n - 1];
    var j := AfterIsSuffix(cs, last.seqno);
    assert cs[k..][n - 1] == last;
    assert j == k + n by {
      assert cs[k + n - 1].seqno <= last.seqno;
      if k + n < |cs| {
        assert cs[k + n].seqno > last.seqno;
      }
    }
    assert cs[k..][n..] == cs[k + n..];
  }

  lemma {:induction false} AfterJoin(a: seq<Chunk>, b: seq<Chunk>, cursor: int)
    ensures After(a + b, cursor) == After(a, cursor) + After(b, cursor)
  {
    if a == [] {
      assert a + b == b;
    } else {
      assert (a + b)[1..] == a[1..] + b;
      AfterJoin(a[1..], b, cursor);
    }
  }

  // Appended chunks come after everything there was.
  lemma AfterGrows(cs: seq<Chunk>, more: seq<Chunk>, cursor: int)
    requires cs <= more
    ensures After(cs, cursor) <= After(more, cursor)
  {
    assert more == cs + more[|cs|..];
    AfterJoin(cs, more[|cs|..], cursor);
  }

  // getTaskLogs: one page, and the cursor to ask with next.
  method GetTaskLogs(cs: seq<Chunk>, after: int, limit: int) returns (items: seq<Chunk>, next: int)
    ensures items <= After(cs, after) && |items| == Min(|After(cs, after)|, PageLimit(limit))
    ensures next == if items == [] then after else items[|items| - 1].seqno
    ensures Ascending(cs) ==> After(cs, after) == items + After(cs, next)
  {
    if Ascending(cs) {
      PageSplits(cs, after, PageLimit(limit));
    }
    items := ListTaskLogs(cs, after, PageLimit(limit));
    next := after;
    if |items| > 0 {
      next := items[|items| - 1].seqno;
    }
  }

  // One page read from the store: what came before it, the page and what follows are the whole.
  lemma PageSplits(cs: seq<Chunk>, after: int, limit: nat)
    requires Ascending(cs) && limit >= 1
    ensures var page := ListTaskLogs(cs, after, limit);
            var next := if page == [] then after else page[|page| - 1].seqno;
            After(cs, after) == page + After(cs, next) && (page == [] <==> After(cs, after) == [])
  {
    var page := ListTaskLogs(cs, after, limit);
    if page != [] {
      CursorAdvances(cs, after, |page|);
    }
  }

  /** Following the cursor from any start, with any limit, until a page comes back empty yields
      every stored chunk after the start, exactly once and in order. */
  method FollowCursor(cs: seq<Chunk>, start: int, limit: int) returns (all: seq<Chunk>)
    requires Ascending(cs)
    ensures all == After(cs, start)
  {
    all := [];
    var cursor := start;
    while true
      invariant all + After(cs, cursor) == After(cs, start)
      decreases |After(cs, cursor)|
    {
      var items, next := GetTaskLogs(cs, cursor, limit);
      if items == [] {
        break;
      }
      assert all + (items + After(cs, next)) == (all + items) + After(cs, next);
      all, cursor := all + items, next;
    }
  }

  // ---- streamTaskLogs ----

  /** What one tick of the loop finds: no attempt yet, a store error, or the latest attempt's
      chunks, as they are when they are listed. `writes` is how many lines the client takes before it
      disconnects; `stored` are the attempt's chunks later in the tick, when the task's status is
      read. */
  datatype Tick =
    | NoAttempt
    | StoreError
    | Latest(chunks: seq<Chunk>, writes: nat, stored: seq<Chunk>, taskFound: bool, terminal: bool)

  datatype Stop = Gone | Aborted | Finished

  predicate Increasing(out: seq<Chunk>, above: int) {
    Ascending(out) && forall i :: 0 <= i < |out| ==> out[i].seqno > above
  }

  function Last(out: seq<Chunk>, start: int): int {
    if out == [] then start else out[|out| - 1].seqno
  }

  lemma PageIncreases(out: seq<Chunk>, start: int, cs: seq<Chunk>, limit: nat, n: nat)
    requires Ascending(cs) && Increasing(out, start) && n <= |ListTaskLogs(cs, Last(out, start), limit)|
    ensures Increasing(out + ListTaskLogs(cs, Last(out, start), limit)[..n], start)
  {
    var cursor := Last(out, start);
    var k := AfterIsSuffix(cs, cursor);
    var page := ListTaskLogs(cs, cursor, limit)[..n];
    assert forall i :: 0 <= i < n ==> page[i] == cs[k + i];
    AscendingJoin(out, page, cursor);
  }

  lemma AscendingJoin(a: seq<Chunk>, b: seq<Chunk>, m: int)
    requires Ascending(a) && Ascending(b)
    requires (forall i :: 0 <= i < |a| ==> a[i].seqno <= m) && (forall i :: 0 <= i < |b| ==> m < b[i].seqno)
    ensures Ascending(a + b)
  {
  }

  // The ticks read one attempt's log, which only grows.
  ghost predicate OneAttempt(ticks: seq<Tick>) {
    forall i, j :: 0 <= i <= j < |ticks| && ticks[i].Latest? && ticks[j].Latest? ==> ticks[i].chunks <= ticks[j].chunks
  }

  // What the loop sends, from tick n on, and how and in which tick it stops.
  function Streamed(ticks: seq<Tick>, n: nat, out: seq<Chunk>, start: int, limit: nat): (seq<Chunk>, Stop, nat)
    requires n <= |ticks|
    decreases |ticks| - n
  {
    if n == |ticks| then (out, Gone, n)
    else
      match ticks[n]
      case NoAttempt => Streamed(ticks, n + 1, out, start, limit)
      case StoreError => (out, Aborted, n)
      case Latest(cs, writes, _, taskFound, terminal) =>
        var logs := ListTaskLogs(cs, Last(out, start), limit);
        if writes < |logs| then (out + logs[..writes], Gone, n)
        else if !taskFound then (out + logs, Aborted, n)
        else if terminal && |logs| == 0 then (out + logs, Finished, n)
        else Streamed(ticks, n + 1, out + logs, start, limit)
  }

  /** The chunks are listed before the status is read, so the loop can stop with a chunk unsent that
      was stored in between: an attempt with nothing to list, which stores its only chunk before its
      task is read and found terminal. */
  lemma ChunkLeftUnsent(c: Chunk, start: int, limit: nat)
    requires c.seqno > start && limit >= 1
    ensures Streamed([Latest([], 0, [c], true, true)], 0, [], start, limit) == ([], Finished, 0)
    ensures After([c], start) == [c]
  {
    var none := ListTaskLogs([], start, limit);
    assert none == [] && none + none == [];
    assert [c][1..] == [];
  }

  // What was stored after the chunks were listed is what is missing.
  lemma UnsentIff(cs: seq<Chunk>, stored: seq<Chunk>, start: int)
    requires cs <= stored
    ensures After(cs, start) == After(stored, start) <==> After(stored[|cs|..], start) == []
  {
    assert stored == cs + stored[|cs|..];
    AfterJoin(cs, stored[|cs|..], start);
    var sent, missing := After(cs, start), After(stored[|cs|..], start);
    assert missing == [] ==> sent + missing == sent;
    assert |sent + missing| == |sent| + |missing|;
  }

  /** The streaming loop. Whatever attempt each tick finds, the sequence numbers sent strictly
      increase from the start, so nothing is sent twice; the loop ends by itself only when the task is
      terminal and the latest attempt, as last listed, has nothing left after what was sent; and when
      the attempt does not change, what was sent is then all that was listed. It is all that was stored
      when the task was found terminal if and only if no chunk was stored since that listing. */
  method StreamTaskLogs(ticks: seq<Tick>, start: int, limit: nat) returns (out: seq<Chunk>, stop: Stop, n: nat)
    requires limit >= 1
    requires forall i :: 0 <= i < |ticks| && ticks[i].Latest? ==> Ascending(ticks[i].chunks)
    ensures Increasing(out, start)
    ensures stop.Finished? ==>
              n < |ticks| && ticks[n].Latest? && ticks[n].terminal && After(ticks[n].chunks, Last(out, start)) == []
    ensures stop.Finished? && OneAttempt(ticks) ==> out == After(ticks[n].chunks, start)
    ensures stop.Finished? && OneAttempt(ticks) && ticks[n].chunks <= ticks[n].stored ==>
              (out == After(ticks[n].stored, start) <==>
               After(ticks[n].stored[|ticks[n].chunks|..], start) == [])
    ensures (out, stop, n) == Streamed(ticks, 0, [], start, limit)
  {
    out, n := [], 0;
    var cursor := start;
    ghost var read: seq<Chunk> := [];
    while n < |ticks|
      invariant n <= |ticks| && cursor == Last(out, start) && Increasing(out, start)
      invariant Streamed(ticks, n, out, start, limit) == Streamed(ticks, 0, [], start, limit)
      invariant OneAttempt(ticks) ==> Ascending(read) && out + After(read, cursor) == After(read, start)
      invariant OneAttempt(ticks) ==> forall i :: n <= i < |ticks| && ticks[i].Latest? ==> read <= ticks[i].chunks
    {
      match ticks[n] {
        case NoAttempt =>
        case StoreError => return out, Aborted, n;
        case Latest(cs, writes, stored, taskFound, terminal) =>
          var logs := ListTaskLogs(cs, cursor, limit);
          PageSplits(cs, cursor, limit);
          if writes < |logs| {
            PageIncreases(out, start, cs, limit, writes);
            return out + logs[..writes], Gone, n;
          }
          PageIncreases(out, start, cs, limit, |logs|);
          assert logs[..|logs|] == logs;
          if OneAttempt(ticks) {
            GrownPage(read, cs, out, start, limit);
          }
          out, cursor, read := out + logs, Last(out + logs, start), cs;
          if !taskFound {
            return out, Aborted, n;
          }
          if terminal && |logs| == 0 {
            if cs <= stored {
              UnsentIff(cs, stored, start);
            }
            return out, Finished, n;
          }
      }
      n := n + 1;
    }
    stop := Gone;
  }

  // What was sent of a log is still its beginning after the log has grown, and the cursor still splits it.
  lemma GrownSplit(read: seq<Chunk>, cs: seq<Chunk>, out: seq<Chunk>, start: int)
    requires Ascending(cs) && read <= cs
    requires out + After(read, Last(out, start)) == After(read, start)
    ensures out + After(cs, Last(out, start)) == After(cs, start)
  {
    AfterGrows(read, cs, start);
    var all := After(cs, start);
    assert out <= all;
    if out != [] {
      assert all[|out| - 1] == out[|out| - 1];
      CursorAdvances(cs, start, |out|);
      assert all == all[..|out|] + all[|out|..];
    }
  }

  // A page of a log that has grown since the last continues where that left off.
  lemma GrownPage(read: seq<Chunk>, cs: seq<Chunk>, out: seq<Chunk>, start: int, limit: nat)
    requires Ascending(cs) && read <= cs && limit >= 1
    requires out + After(read, Last(out, start)) == After(read, start)
    ensures var logs := ListTaskLogs(cs, Last(out, start), limit);
            (out + logs) + After(cs, Last(out + logs, start)) == After(cs, start)
  {
    GrownSplit(read, cs, out, start);
    var cursor := Last(out, start);
    var logs := ListTaskLogs(cs, cursor, limit);
    PageSplits(cs, cursor, limit);
    LastOfJoin(out, logs, start);
    Regroup(out, logs, After(cs, Last(out + logs, start)));
  }

  lemma LastOfJoin(out: seq<Chunk>, logs: seq<Chunk>, start: int)
    ensures Last(out + logs, start) == if logs == [] then Last(out, start) else logs[|logs| - 1].seqno
  {
    if logs == [] {
      assert out + logs == out;
    }
  }

  lemma Regroup(a: seq<Chunk>, b: seq<Chunk>, c: seq<Chunk>)
    ensures a + (b + c) == (a + b) + c
  {
  }

  // ---- the stream gets to the end ----

  // Ticks that find nothing wrong: no attempt yet, or the finished log cs, which the client takes.
  predicate Willing(t: Tick, cs: seq<Chunk>) {
    t.NoAttempt? || (t.Latest? && t.chunks == cs && t.writes >= |cs| && t.taskFound && t.terminal)
  }

  // How many of the ticks from n on find the attempt.
  function Listings(ticks: seq<Tick>, n: nat): nat
    requires n <= |ticks|
    decreases |ticks| - n
  {
    if n == |ticks| then 0 else Listings(ticks, n + 1) + if ticks[n].Latest? then 1 else 0
  }

  lemma {:induction false} StreamGoesOn(ticks: seq<Tick>, n: nat, out: seq<Chunk>, start: int, limit: nat,
                                        cs: seq<Chunk>)
    requires Ascending(cs) && limit >= 1 && n <= |ticks|
    requires forall i :: n <= i < |ticks| ==> Willing(ticks[i], cs)
    requires out + After(cs, Last(out, start)) == After(cs, start)
    requires Listings(ticks, n) > |After(cs, Last(out, start))|
    ensures var (sent, stop, _) := Streamed(ticks, n, out, start, limit); sent == After(cs, start) && stop.Finished?
    decreases |ticks| - n
  {
    if ticks[n].NoAttempt? {
      StreamGoesOn(ticks, n + 1, out, start, limit, cs);
    } else {
      var cursor := Last(out, start);
      var logs := ListTaskLogs(cs, cursor, limit);
      var k := AfterIsSuffix(cs, cursor);
      PageSplits(cs, cursor, limit);
      GrownPage(cs, cs, out, start, limit);
      LastOfJoin(out, logs, start);
      if logs == [] {
        assert out + logs == out && out + [] == out;
      } else {
        StreamGoesOn(ticks, n + 1, out + logs, start, limit, cs);
      }
    }
  }

  /** A stream of a finished task ends by itself, with every stored chunk after the start sent: it takes
      at most one tick per chunk left and one more, whatever the page size, not counting ticks that
      come before the attempt. */
  lemma StreamFinishes(ticks: seq<Tick>, start: int, limit: nat, cs: seq<Chunk>)
    requires Ascending(cs) && limit >= 1 && forall i :: 0 <= i < |ticks| ==> Willing(ticks[i], cs)
    requires Listings(ticks, 0) > |After(cs, start)|
    ensures var (sent, stop, _) := Streamed(ticks, 0, [], start, limit); sent == After(cs, start) && stop.Finished?
  {
    StreamGoesOn(ticks, 0, [], start, limit, cs);
  }
}
