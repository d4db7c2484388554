/** The ingest path (`gen_vector_from_file`, main.py:162-200): the file's
    lines are normalised, packed greedily into token-bounded chunks, and each
    chunk is embedded and written in order; the run stops at the first chunk
    whose embedding is empty or whose write yields no id. */
module Chunker {
  import opened Wrappers
  import opened Text
  import opened Tokens
  import opened Services

  /** The default `chunk_size`. */
  const DefaultChunkSize := 2000

  /** The grouping of the normalised lines: the groups flushed as chunks, in
      order, and the group still held by the accumulator. */
  datatype Packing = Packing(flushed: seq<seq<string>>, open: seq<string>)

  /** How a run ends: the totals it prints, or the 0-based index of the chunk
      at which it gave up. */
  datatype Outcome =
    | Completed(totalTokens: nat, apiCalls: nat)
    | EmptyEmbedding(chunk: nat)
    | InsertFailed(chunk: nat)

  /** A run as observed from outside: its outcome, the chunk texts sent to
      the embedding service and the chunk texts passed on to
      `create_embedding` (which, without a connection, returns before
      reaching the store), each in order. */
  datatype Trace = Trace(outcome: Outcome, embedded: seq<string>, inserted: seq<string>)

  function NormalizeAll(lines: seq<string>): (strs: seq<string>)
    ensures |strs| == |lines|
    ensures forall i :: 0 <= i < |lines| ==> strs[i] == Normalize(lines[i])
  {
    if lines == [] then [] else NormalizeAll(lines[..|lines| - 1]) + [Normalize(lines[|lines| - 1])]
  }

  /** The groups of lines one after the other. */
  function Flatten(groups: seq<seq<string>>): seq<string>
  {
    if groups == [] then [] else Flatten(groups[..|groups| - 1]) + groups[|groups| - 1]
  }

  /** The text of each group: its lines concatenated without separator. */
  function Chunks(groups: seq<seq<string>>): (cs: seq<string>)
    ensures |cs| == |groups|
  {
    if groups == [] then [] else Chunks(groups[..|groups| - 1]) + [Concat(groups[|groups| - 1])]
  }

  /** Chunk `i` is the text of group `i`. */
  lemma {:induction false} ChunksSpec(groups: seq<seq<string>>)
    ensures forall i :: 0 <= i < |groups| ==> Chunks(groups)[i] == Concat(groups[i])
    decreases |groups|
  {
    if groups != [] {
      var init := groups[..|groups| - 1];
      ChunksSpec(init);
      assert Chunks(groups) == Chunks(init) + [Concat(groups[|groups| - 1])];
    }
  }

  /** One iteration of the ingest loop on the accumulator: the line joins the
      accumulator while the accumulated count plus its own stays strictly
      below `chunkSize`; otherwise the accumulator is flushed, even when it is
      empty, and the line alone starts the next one, whatever its count. */
  function Step(p: Packing, str: string, tokens: string -> nat, chunkSize: int): Packing
  {
    if SumTokens(p.open, tokens) + tokens(str) < chunkSize then Packing(p.flushed, p.open + [str])
    else Packing(p.flushed + [p.open], [str])
  }

  /** The accumulator logic of the ingest loop over the normalised lines. */
  function Pack(strs: seq<string>, tokens: string -> nat, chunkSize: int): Packing
  {
    if strs == [] then Packing([], [])
    else Step(Pack(strs[..|strs| - 1], tokens, chunkSize), strs[|strs| - 1], tokens, chunkSize)
  }

  /** The flushed groups followed by the open one. */
  function Groups(p: Packing): (groups: seq<seq<string>>)
    ensures |groups| == |p.flushed| + 1
  {
    p.flushed + [p.open]
  }

  /** A declarative description of a greedy grouping:
      - the first group is empty (flushed only because the first line alone
        reached the budget) or below the budget;
      - every group is a single line (of any size) or below the budget;
      - every later group is non-empty, and the group before it was flushed
        because its first line would have brought that group to the budget. */
  ghost predicate GreedyGroups(groups: seq<seq<string>>, tokens: string -> nat, chunkSize: int)
  {
    (groups == [] || groups[0] == [] || SumTokens(groups[0], tokens) < chunkSize)
    && (forall i :: 0 <= i < |groups| ==> |groups[i]| <= 1 || SumTokens(groups[i], tokens) < chunkSize)
    && (forall i :: 0 < i < |groups| ==> FlushForced(groups, i, tokens, chunkSize))
  }

  /** Group `i` is non-empty and its first line would have brought group
      `i - 1` to the budget. */
  ghost predicate FlushForced(groups: seq<seq<string>>, i: nat, tokens: string -> nat, chunkSize: int)
    requires 0 < i < |groups|
  {
    groups[i] != [] && SumTokens(groups[i - 1], tokens) + tokens(groups[i][0]) >= chunkSize
  }

  ghost predicate Greedy(p: Packing, tokens: string -> nat, chunkSize: int)
  {
    GreedyGroups(Groups(p), tokens, chunkSize)
  }

  /** Appending a line that keeps the last group strictly below the budget
      keeps a grouping greedy. */
  lemma GreedyAppendLine(groups: seq<seq<string>>, str: string, tokens: string -> nat, chunkSize: int)
    requires groups != [] && GreedyGroups(groups, tokens, chunkSize)
    requires SumTokens(groups[|groups| - 1], tokens) + tokens(str) < chunkSize
    ensures GreedyGroups(groups[|groups| - 1 := groups[|groups| - 1] + [str]], tokens, chunkSize)
  {
    var n := |groups|;
    var last := groups[n - 1];
    var last' := last + [str];
    var g' := groups[n - 1 := last'];
    assert last'[..|last|] == last;
    assert SumTokens(last', tokens) < chunkSize;
    forall i | 0 < i < n
      ensures FlushForced(g', i, tokens, chunkSize)
    {
      assert FlushForced(groups, i, tokens, chunkSize);
      assert g'[i - 1] == groups[i - 1];
      assert g'[i][0] == groups[i][0];
    }
  }

  /** Starting a new group with a line that would have brought the last group
      to the budget keeps a grouping greedy. */
  lemma GreedyAppendGroup(groups: seq<seq<string>>, str: string, tokens: string -> nat, chunkSize: int)
    requires groups != [] && GreedyGroups(groups, tokens, chunkSize)
    requires SumTokens(groups[|groups| - 1], tokens) + tokens(str) >= chunkSize
    ensures GreedyGroups(groups + [[str]], tokens, chunkSize)
  {
    var n := |groups|;
    var g' := groups + [[str]];
    forall i | 0 < i < n + 1
      ensures FlushForced(g', i, tokens, chunkSize)
    {
      if i < n {
        assert FlushForced(groups, i, tokens, chunkSize);
      }
    }
  }

  /** The converse of `GreedyAppendLine`. */
  lemma GreedyDropLine(groups: seq<seq<string>>, tokens: string -> nat, chunkSize: int)
    requires groups != [] && GreedyGroups(groups, tokens, chunkSize)
    requires |groups[|groups| - 1]| >= 2
    ensures var last := groups[|groups| - 1];
            var last' := last[..|last| - 1];
            GreedyGroups(groups[|groups| - 1 := last'], tokens, chunkSize)
            && SumTokens(last', tokens) + tokens(last[|last| - 1]) < chunkSize
  {
    var n := |groups|;
    var last := groups[n - 1];
    var last' := last[..|last| - 1];
    var g' := groups[n - 1 := last'];
    assert SumTokens(last, tokens) == SumTokens(last', tokens) + tokens(last[|last| - 1]);
    assert SumTokens(last, tokens) < chunkSize;
    forall i | 0 < i < n
      ensures FlushForced(g', i, tokens, chunkSize)
    {
      assert FlushForced(groups, i, tokens, chunkSize);
      assert g'[i - 1] == groups[i - 1];
      assert g'[i][0] == groups[i][0];
    }
  }

  /** The converse of `GreedyAppendGroup`. */
  lemma GreedyDropGroup(groups: seq<seq<string>>, tokens: string -> nat, chunkSize: int)
    requires |groups| >= 2 && GreedyGroups(groups, tokens, chunkSize)
    requires |groups[|groups| - 1]| == 1
    ensures GreedyGroups(groups[..|groups| - 1], tokens, chunkSize)
    ensures SumTokens(groups[|groups| - 2], tokens) + tokens(groups[|groups| - 1][0]) >= chunkSize
  {
    var n := |groups|;
    var g' := groups[..n - 1];
    assert FlushForced(groups, n - 1, tokens, chunkSize);
    forall i | 0 < i < n - 1
      ensures FlushForced(g', i, tokens, chunkSize)
    {
      assert FlushForced(groups, i, tokens, chunkSize);
    }
  }

  lemma GreedyFirstGroup(groups: seq<seq<string>>, tokens: string -> nat, chunkSize: int)
    requires groups != [] && groups[0] != [] && GreedyGroups(groups, tokens, chunkSize)
    ensures SumTokens(groups[0], tokens) < chunkSize
  {
  }

  /** A non-empty sequence is its front followed by its last element. */
  lemma InitLast<T>(s: seq<T>)
    requires s != []
    ensures s == s[..|s| - 1] + [s[|s| - 1]]
  {
  }

  /** One step keeps the lines in order: the flushed groups followed by the
      open one gain the line at the end. */
  lemma FlattenStep(p: Packing, str: string, tokens: string -> nat, chunkSize: int)
    ensures var q := Step(p, str, tokens, chunkSize);
            Flatten(q.flushed) + q.open == Flatten(p.flushed) + p.open + [str]
  {
    if SumTokens(p.open, tokens) + tokens(str) >= chunkSize {
      FlattenSnoc(p.flushed, p.open);
    }
  }

  /** No line is dropped, duplicated or reordered by the packing. */
  lemma {:induction false} PackPartitions(strs: seq<string>, tokens: string -> nat, chunkSize: int)
    ensures var p := Pack(strs, tokens, chunkSize); Flatten(p.flushed) + p.open == strs
    decreases |strs|
  {
    if strs != [] {
      var init := strs[..|strs| - 1];
      PackPartitions(init, tokens, chunkSize);
      FlattenStep(Pack(init, tokens, chunkSize), strs[|strs| - 1], tokens, chunkSize);
      InitLast(strs);
    }
  }

  /** The packing is greedy in the sense of `Greedy`. */
  lemma {:induction false} PackIsGreedy(strs: seq<string>, tokens: string -> nat, chunkSize: int)
    ensures Greedy(Pack(strs, tokens, chunkSize), tokens, chunkSize)
    decreases |strs|
  {
    if strs != [] {
      var init := strs[..|strs| - 1];
      PackIsGreedy(init, tokens, chunkSize);
      var p := Pack(init, tokens, chunkSize);
      var str := strs[|strs| - 1];
      var groups := Groups(p);
      if SumTokens(p.open, tokens) + tokens(str) < chunkSize {
        GreedyAppendLine(groups, str, tokens, chunkSize);
        assert Groups(Pack(strs, tokens, chunkSize)) == groups[|groups| - 1 := p.open + [str]];
      } else {
        GreedyAppendGroup(groups, str, tokens, chunkSize);
        assert Groups(Pack(strs, tokens, chunkSize)) == groups + [[str]];
      }
    }
  }

  lemma FlattenSnoc(groups: seq<seq<string>>, g: seq<string>)
    ensures Flatten(groups + [g]) == Flatten(groups) + g
  {
    assert (groups + [g])[..|groups|] == groups;
  }

  /** Once something was flushed, the accumulator holds at least the line
      that caused the flush. */
  lemma GreedyOpenNonEmpty(p: Packing, tokens: string -> nat, chunkSize: int)
    requires Greedy(p, tokens, chunkSize)
    ensures p.flushed != [] ==> p.open != []
  {
    if p.flushed != [] {
      assert FlushForced(Groups(p), |p.flushed|, tokens, chunkSize);
    }
  }

  /** Undoing the last step of a greedy grouping of a non-empty list gives a
      greedy grouping of the list without its last line. */
  lemma Unstep(strs: seq<string>, p: Packing, tokens: string -> nat, chunkSize: int) returns (q: Packing)
    requires strs != [] && Flatten(p.flushed) + p.open == strs
    requires Greedy(p, tokens, chunkSize)
    ensures Flatten(q.flushed) + q.open == strs[..|strs| - 1]
    ensures Greedy(q, tokens, chunkSize)
    ensures Step(q, strs[|strs| - 1], tokens, chunkSize) == p
  {
    GreedyOpenNonEmpty(p, tokens, chunkSize);
    InitLast(strs);
    InitLast(p.open);
    if |p.open| >= 2 {
      q := UnstepLine(p, tokens, chunkSize);
    } else if p.flushed == [] {
      q := Packing([], []);
      GreedyFirstGroup(Groups(p), tokens, chunkSize);
      SumTokensSingle(p.open[0], tokens);
    } else {
      q := UnstepGroup(p, tokens, chunkSize);
    }
  }

  /** `Unstep` when the last line joined the open group. */
  lemma UnstepLine(p: Packing, tokens: string -> nat, chunkSize: int) returns (q: Packing)
    requires Greedy(p, tokens, chunkSize) && |p.open| >= 2
    ensures q == Packing(p.flushed, p.open[..|p.open| - 1])
    ensures Greedy(q, tokens, chunkSize)
    ensures Step(q, p.open[|p.open| - 1], tokens, chunkSize) == p
  {
    var groups := Groups(p);
    var open' := p.open[..|p.open| - 1];
    q := Packing(p.flushed, open');
    GreedyDropLine(groups, tokens, chunkSize);
    assert Groups(q) == groups[|p.flushed| := open'];
    InitLast(p.open);
  }

  /** `Unstep` when the last line started the open group. */
  lemma UnstepGroup(p: Packing, tokens: string -> nat, chunkSize: int) returns (q: Packing)
    requires Greedy(p, tokens, chunkSize) && |p.open| == 1 && p.flushed != []
    ensures q == Packing(p.flushed[..|p.flushed| - 1], p.flushed[|p.flushed| - 1])
    ensures Flatten(q.flushed) + q.open == Flatten(p.flushed)
    ensures Greedy(q, tokens, chunkSize)
    ensures Step(q, p.open[0], tokens, chunkSize) == p
  {
    var groups := Groups(p);
    var m := |p.flushed|;
    q := Packing(p.flushed[..m - 1], p.flushed[m - 1]);
    GreedyDropGroup(groups, tokens, chunkSize);
    assert Groups(q) == groups[..m];
    InitLast(p.flushed);
    FlattenSnoc(q.flushed, q.open);
    assert p.open == [p.open[0]];
  }

  /** `Greedy` and the partition property pin the packing down: any grouping
      of the lines with both is the one `Pack` computes. */
  lemma {:induction false} GreedyPackingIsPack(strs: seq<string>, p: Packing, tokens: string -> nat, chunkSize: int)
    requires Flatten(p.flushed) + p.open == strs
    requires Greedy(p, tokens, chunkSize)
    ensures Pack(strs, tokens, chunkSize) == p
    decreases |strs|
  {
    if strs == [] {
      GreedyOpenNonEmpty(p, tokens, chunkSize);
    } else {
      var q := Unstep(strs, p, tokens, chunkSize);
      GreedyPackingIsPack(strs[..|strs| - 1], q, tokens, chunkSize);
    }
  }

  /** A chunk flushed at some point of the file is flushed, at the same
      position, in the packing of the whole file. */
  lemma {:induction false} PackFlushedPrefix(strs: seq<string>, n: nat, tokens: string -> nat, chunkSize: int)
    requires n <= |strs|
    ensures Pack(strs[..n], tokens, chunkSize).flushed <= Pack(strs, tokens, chunkSize).flushed
    decreases |strs|
  {
    if n < |strs| {
      var init := strs[..|strs| - 1];
      assert init[..n] == strs[..n];
      PackFlushedPrefix(init, n, tokens, chunkSize);
    } else {
      assert strs[..n] == strs;
    }
  }

  /** What becomes of one chunk flushed inside the loop: written, or the run
      ends because its embedding came back empty or because the store gave
      back no usable id. */
  datatype Status = Sent | EmptyVector | NoId

  /** The services as the ingest loop observes them: what a chunk flushed
      inside the loop comes to, and whether the chunk left over at the end
      gets written (there only the write is checked). */
  datatype Backend = Backend(flush: string -> Status, last: string -> bool)

  /** A chunk flushed inside the loop (main.py:178-187): embed it, stop on an
      empty embedding, write it, stop when no id comes back. */
  function ChunkStatus(db: Option<Connection>, embed: Embedder, chunk: string): Status
  {
    var v := GetEmbedding(embed, chunk);
    if |v| == 0 then EmptyVector
    else if Stored(CreateEmbedding(db, chunk, "", v)) then Sent
    else NoId
  }

  /** The chunk left over at the end (main.py:191-199): embedded and written
      whatever the embedding is; only the id is checked. */
  predicate TailStored(db: Option<Connection>, embed: Embedder, tail: string)
  {
    Stored(CreateEmbedding(db, tail, "", GetEmbedding(embed, tail)))
  }

  /** The services given by a connection and an embedding service. */
  function Live(db: Option<Connection>, embed: Embedder): Backend
  {
    Backend(c => ChunkStatus(db, embed, c), c => TailStored(db, embed, c))
  }

  /** Every chunk of `chunks` was embedded and written. */
  ghost predicate AllSent(b: Backend, chunks: seq<string>)
  {
    forall j :: 0 <= j < |chunks| ==> b.flush(chunks[j]) == Sent
  }

  lemma AllSentSnoc(b: Backend, chunks: seq<string>, chunk: string)
    requires AllSent(b, chunks) && b.flush(chunk) == Sent
    ensures AllSent(b, chunks + [chunk])
  {
  }

  /** The index of the first chunk that ends the run, or `|chunks|`. */
  function FirstFailure(b: Backend, chunks: seq<string>): (k: nat)
    ensures k <= |chunks|
    ensures forall j :: 0 <= j < k ==> b.flush(chunks[j]) == Sent
    ensures k < |chunks| ==> b.flush(chunks[k]) != Sent
  {
    if chunks == [] then 0
    else if b.flush(chunks[0]) != Sent then 0
    else 1 + FirstFailure(b, chunks[1..])
  }

  /** The end of a run at a flushed `chunk` that failed, after the chunks in
      `sent` went through: an empty embedding stops the run before the write,
      a missing id after it. */
  function Abort(b: Backend, sent: seq<string>, chunk: string): Trace
  {
    if b.flush(chunk) == EmptyVector then Trace(EmptyEmbedding(|sent|), sent + [chunk], sent)
    else Trace(InsertFailed(|sent|), sent + [chunk], sent + [chunk])
  }

  /** What a run of `gen_vector_from_file` does, stated on the packing of the
      whole file: the flushed chunks are processed in order up to the first
      one that fails; when none does, the accumulator left over is sent only
      if its token count is positive, and then only the write is checked,
      not the embedding. */
  function Ingest(b: Backend, strs: seq<string>, chunkSize: int, tokens: string -> nat): Trace
  {
    var p := Pack(strs, tokens, chunkSize);
    Process(b, Chunks(p.flushed), Concat(p.open), SumTokens(p.open, tokens), SumTokens(strs, tokens))
  }

  /** The service calls for the flushed `chunks` and the leftover `tail`
      (whose token count is `tailTokens`), and the totals reported. */
  function Process(b: Backend, chunks: seq<string>, tail: string, tailTokens: nat, totalTokens: nat): Trace
  {
    var k := FirstFailure(b, chunks);
    if k < |chunks| then Abort(b, chunks[..k], chunks[k])
    else Finish(b, chunks, tail, tailTokens, totalTokens)
  }

  /** The end of a run all of whose flushed chunks went through. */
  function Finish(b: Backend, chunks: seq<string>, tail: string, tailTokens: nat, totalTokens: nat): Trace
  {
    if tailTokens == 0 then
      Trace(Completed(totalTokens, |chunks|), chunks, chunks)
    else
      var sent := chunks + [tail];
      if b.last(tail) then Trace(Completed(totalTokens, |chunks| + 1), sent, sent)
      else Trace(InsertFailed(|chunks|), sent, sent)
  }

  lemma ChunksSnoc(groups: seq<seq<string>>, g: seq<string>)
    ensures Chunks(groups + [g]) == Chunks(groups) + [Concat(g)]
  {
    assert (groups + [g])[..|groups|] == groups;
  }

  lemma {:induction false} ChunksPrefix(a: seq<seq<string>>, b: seq<seq<string>>)
    requires a <= b
    ensures Chunks(a) <= Chunks(b)
    decreases |b|
  {
    if |a| < |b| {
      assert a <= b[..|b| - 1];
      ChunksPrefix(a, b[..|b| - 1]);
    } else {
      assert a == b;
    }
  }

  lemma PackPrefixStep(strs: seq<string>, i: nat, tokens: string -> nat, chunkSize: int)
    requires i < |strs|
    ensures Pack(strs[..i + 1], tokens, chunkSize) == Step(Pack(strs[..i], tokens, chunkSize), strs[i], tokens, chunkSize)
    ensures SumTokens(strs[..i + 1], tokens) == SumTokens(strs[..i], tokens) + tokens(strs[i])
  {
    assert strs[..i + 1][..i] == strs[..i];
  }

  /** Appending a line to the accumulator extends its text and its count. */
  lemma AccumulateStep(open: seq<string>, str: string, tokens: string -> nat)
    ensures Concat(open + [str]) == Concat(open) + str
    ensures SumTokens(open + [str], tokens) == SumTokens(open, tokens) + tokens(str)
  {
    assert (open + [str])[..|open|] == open;
  }

  /** A run whose flushed chunks in `done` went through and whose next
      flushed chunk `chunk` failed ends at that chunk. */
  lemma ProcessAborted(b: Backend, chunks: seq<string>, tail: string, tailTokens: nat, totalTokens: nat,
                       done: seq<string>, chunk: string)
    requires done + [chunk] <= chunks && AllSent(b, done) && b.flush(chunk) != Sent
    ensures Process(b, chunks, tail, tailTokens, totalTokens) == Abort(b, done, chunk)
  {
    var k := |done|;
    var f := FirstFailure(b, chunks);
    assert chunks[k] == chunk;
    assert done == chunks[..k];
    assert f <= k;
    assert f == k;
  }

  /** A run none of whose flushed chunks failed goes on to its end. */
  lemma ProcessAllFlushed(b: Backend, chunks: seq<string>, tail: string, tailTokens: nat, totalTokens: nat)
    requires AllSent(b, chunks)
    ensures Process(b, chunks, tail, tailTokens, totalTokens) == Finish(b, chunks, tail, tailTokens, totalTokens)
  {
  }

  /** The variables of the ingest loop between two lines: the accumulator's
      text and token count, the running token total, and the chunks sent so
      far. */
  datatype Acc = Acc(content: string, size: nat, total: nat, sent: seq<string>)

  /** The loop variables after the first `i` lines, as the packing of those
      lines determines them. */
  ghost function Expected(strs: seq<string>, chunkSize: int, tokens: string -> nat, i: nat): Acc
    requires i <= |strs|
  {
    var p := Pack(strs[..i], tokens, chunkSize);
    Acc(Concat(p.open), SumTokens(p.open, tokens), SumTokens(strs[..i], tokens), Chunks(p.flushed))
  }

  /** The loop invariant on the packing side: the variables are the ones the
      packing of the first `i` lines determines, and every chunk flushed so
      far went through. */
  ghost predicate Scanned(b: Backend, strs: seq<string>, chunkSize: int, tokens: string -> nat, i: nat, a: Acc)
  {
    i <= |strs| && a == Expected(strs, chunkSize, tokens, i) && AllSent(b, a.sent)
  }

  lemma ScanStart(b: Backend, strs: seq<string>, chunkSize: int, tokens: string -> nat)
    ensures Scanned(b, strs, chunkSize, tokens, 0, Acc("", 0, 0, []))
  {
    assert strs[..0] == [];
  }

  /** A line that fits joins the accumulator. */
  lemma ScanAppend(b: Backend, strs: seq<string>, chunkSize: int, tokens: string -> nat, i: nat, a: Acc)
    requires Scanned(b, strs, chunkSize, tokens, i, a)
    requires i < |strs| && a.size + tokens(strs[i]) < chunkSize
    ensures Scanned(b, strs, chunkSize, tokens, i + 1,
                    Acc(a.content + strs[i], a.size + tokens(strs[i]), a.total + tokens(strs[i]), a.sent))
  {
    var p := Pack(strs[..i], tokens, chunkSize);
    PackPrefixStep(strs, i, tokens, chunkSize);
    AccumulateStep(p.open, strs[i], tokens);
  }

  /** A line that does not fit flushes the accumulator, which went through,
      and starts a new one. */
  lemma ScanFlush(b: Backend, strs: seq<string>, chunkSize: int, tokens: string -> nat, i: nat, a: Acc)
    requires Scanned(b, strs, chunkSize, tokens, i, a)
    requires i < |strs| && a.size + tokens(strs[i]) >= chunkSize && b.flush(a.content) == Sent
    ensures Scanned(b, strs, chunkSize, tokens, i + 1,
                    Acc(strs[i], tokens(strs[i]), a.total + tokens(strs[i]), a.sent + [a.content]))
  {
    var p := Pack(strs[..i], tokens, chunkSize);
    PackPrefixStep(strs, i, tokens, chunkSize);
    ChunksSnoc(p.flushed, p.open);
    AllSentSnoc(b, a.sent, a.content);
    ConcatSingle(strs[i]);
    SumTokensSingle(strs[i], tokens);
  }

  /** A line that does not fit flushes the accumulator, which failed: the run
      ends there. */
  lemma ScanAbort(b: Backend, strs: seq<string>, chunkSize: int, tokens: string -> nat, i: nat, a: Acc)
    requires Scanned(b, strs, chunkSize, tokens, i, a)
    requires i < |strs| && a.size + tokens(strs[i]) >= chunkSize && b.flush(a.content) != Sent
    ensures Ingest(b, strs, chunkSize, tokens) == Abort(b, a.sent, a.content)
  {
    var p := Pack(strs[..i], tokens, chunkSize);
    var whole := Pack(strs, tokens, chunkSize);
    PackPrefixStep(strs, i, tokens, chunkSize);
    PackFlushedPrefix(strs, i + 1, tokens, chunkSize);
    ChunksSnoc(p.flushed, p.open);
    ChunksPrefix(p.flushed + [p.open], whole.flushed);
    ProcessAborted(b, Chunks(whole.flushed), Concat(whole.open), SumTokens(whole.open, tokens),
                   SumTokens(strs, tokens), a.sent, a.content);
  }

  /** After the last line, what is left is the end of the run. */
  lemma ScanDone(b: Backend, strs: seq<string>, chunkSize: int, tokens: string -> nat, a: Acc)
    requires Scanned(b, strs, chunkSize, tokens, |strs|, a)
    ensures Ingest(b, strs, chunkSize, tokens) == Finish(b, a.sent, a.content, a.size, a.total)
  {
    assert strs[..|strs|] == strs;
    ProcessAllFlushed(b, a.sent, a.content, a.size, a.total);
  }

  /** What the ingest loop still does from line `i` on, given its variables
      there. */
  ghost function Run(b: Backend, strs: seq<string>, chunkSize: int, tokens: string -> nat, i: nat, a: Acc): Trace
    requires i <= |strs|
    decreases |strs| - i
  {
    if i == |strs| then Finish(b, a.sent, a.content, a.size, a.total)
    else
      var str := strs[i];
      var size := tokens(str);
      if a.size + size < chunkSize then
        Run(b, strs, chunkSize, tokens, i + 1, Acc(a.content + str, a.size + size, a.total + size, a.sent))
      else if b.flush(a.content) == Sent then
        Run(b, strs, chunkSize, tokens, i + 1, Acc(str, size, a.total + size, a.sent + [a.content]))
      else
        Abort(b, a.sent, a.content)
  }

  /** One step of `Run` on a line that fits the accumulator. */
  lemma RunAppend(b: Backend, strs: seq<string>, chunkSize: int, tokens: string -> nat, i: nat, a: Acc)
    requires i < |strs| && a.size + tokens(strs[i]) < chunkSize
    ensures Run(b, strs, chunkSize, tokens, i, a)
            == Run(b, strs, chunkSize, tokens, i + 1,
                   Acc(a.content + strs[i], a.size + tokens(strs[i]), a.total + tokens(strs[i]), a.sent))
  {
  }

  /** One step of `Run` on a line that does not fit, when the flushed chunk
      goes through: the next accumulator is that line alone, with its own
      count, whatever that count is. */
  lemma RunFlush(b: Backend, strs: seq<string>, chunkSize: int, tokens: string -> nat, i: nat, a: Acc)
    requires i < |strs| && a.size + tokens(strs[i]) >= chunkSize && b.flush(a.content) == Sent
    ensures Run(b, strs, chunkSize, tokens, i, a)
            == Run(b, strs, chunkSize, tokens, i + 1,
                   Acc(strs[i], tokens(strs[i]), a.total + tokens(strs[i]), a.sent + [a.content]))
  {
  }

  /** `Run` on a line that does not fit, when the flushed chunk fails. */
  lemma RunAbort(b: Backend, strs: seq<string>, chunkSize: int, tokens: string -> nat, i: nat, a: Acc)
    requires i < |strs| && a.size + tokens(strs[i]) >= chunkSize && b.flush(a.content) != Sent
    ensures Run(b, strs, chunkSize, tokens, i, a) == Abort(b, a.sent, a.content)
  {
  }

  /** From any state the loop can reach, what it still does completes the
      run `Ingest` describes. */
  lemma {:induction false} RunIsIngest(b: Backend, strs: seq<string>, chunkSize: int, tokens: string -> nat,
                                       i: nat, a: Acc)
    requires Scanned(b, strs, chunkSize, tokens, i, a)
    ensures Run(b, strs, chunkSize, tokens, i, a) == Ingest(b, strs, chunkSize, tokens)
    decreases |strs| - i, 1
  {
    if i == |strs| {
      ScanDone(b, strs, chunkSize, tokens, a);
    } else if a.size + tokens(strs[i]) < chunkSize {
      AppendIsIngest(b, strs, chunkSize, tokens, i, a);
    } else if b.flush(a.content) == Sent {
      FlushIsIngest(b, strs, chunkSize, tokens, i, a);
    } else {
      ScanAbort(b, strs, chunkSize, tokens, i, a);
      RunAbort(b, strs, chunkSize, tokens, i, a);
    }
  }

  /** `RunIsIngest` at a line that joins the accumulator. */
  lemma {:induction false} AppendIsIngest(b: Backend, strs: seq<string>, chunkSize: int, tokens: string -> nat,
                                          i: nat, a: Acc)
    requires Scanned(b, strs, chunkSize, tokens, i, a)
    requires i < |strs| && a.size + tokens(strs[i]) < chunkSize
    ensures Run(b, strs, chunkSize, tokens, i, a) == Ingest(b, strs, chunkSize, tokens)
    decreases |strs| - i, 0
  {
    var size := tokens(strs[i]);
    var next := Acc(a.content + strs[i], a.size + size, a.total + size, a.sent);
    ScanAppend(b, strs, chunkSize, tokens, i, a);
    RunAppend(b, strs, chunkSize, tokens, i, a);
    RunIsIngest(b, strs, chunkSize, tokens, i + 1, next);
  }

  /** `RunIsIngest` at a line that flushes the accumulator, which went
      through. */
  lemma {:induction false} FlushIsIngest(b: Backend, strs: seq<string>, chunkSize: int, tokens: string -> nat,
                                         i: nat, a: Acc)
    requires Scanned(b, strs, chunkSize, tokens, i, a)
    requires i < |strs| && a.size + tokens(strs[i]) >= chunkSize && b.flush(a.content) == Sent
    ensures Run(b, strs, chunkSize, tokens, i, a) == Ingest(b, strs, chunkSize, tokens)
    decreases |strs| - i, 0
  {
    var size := tokens(strs[i]);
    var next := Acc(strs[i], size, a.total + size, a.sent + [a.content]);
    ScanFlush(b, strs, chunkSize, tokens, i, a);
    RunFlush(b, strs, chunkSize, tokens, i, a);
    RunIsIngest(b, strs, chunkSize, tokens, i + 1, next);
  }

  /** The run the ingest loop performs from its initial state is the one
      `Ingest` describes on the packing of the whole file. */
  lemma RunFromStartIsIngest(b: Backend, strs: seq<string>, chunkSize: int, tokens: string -> nat)
    ensures Run(b, strs, chunkSize, tokens, 0, Acc("", 0, 0, [])) == Ingest(b, strs, chunkSize, tokens)
  {
    ScanStart(b, strs, chunkSize, tokens);
    RunIsIngest(b, strs, chunkSize, tokens, 0, Acc("", 0, 0, []));
  }

  /** The text of the groups, chunk by chunk, is the text of their lines. */
  lemma {:induction false} ConcatChunks(groups: seq<seq<string>>)
    ensures Concat(Chunks(groups)) == Concat(Flatten(groups))
    decreases |groups|
  {
    if groups != [] {
      var init, g := groups[..|groups| - 1], groups[|groups| - 1];
      ConcatChunks(init);
      ConcatAppend(Chunks(init), [Concat(g)]);
      ConcatSingle(Concat(g));
      ConcatAppend(Flatten(init), g);
    }
  }

  /** The flushed chunks followed by the accumulator left at the end spell
      out the normalised lines, in order and with nothing between them. */
  lemma ChunksCover(strs: seq<string>, tokens: string -> nat, chunkSize: int)
    ensures var p := Pack(strs, tokens, chunkSize);
            Concat(Chunks(p.flushed)) + Concat(p.open) == Concat(strs)
  {
    var p := Pack(strs, tokens, chunkSize);
    PackPartitions(strs, tokens, chunkSize);
    ConcatChunks(p.flushed);
    ConcatAppend(Flatten(p.flushed), p.open);
  }

  /** The token total of all lines is that of the flushed groups plus that
      of the accumulator left at the end. */
  lemma TotalSplits(strs: seq<string>, tokens: string -> nat, chunkSize: int)
    ensures var p := Pack(strs, tokens, chunkSize);
            SumTokens(strs, tokens) == SumTokens(Flatten(p.flushed), tokens) + SumTokens(p.open, tokens)
  {
    var p := Pack(strs, tokens, chunkSize);
    PackPartitions(strs, tokens, chunkSize);
    SumTokensAppend(Flatten(p.flushed), p.open, tokens);
  }

  /** A run completes exactly when every flushed chunk went through and the
      accumulator left at the end either has no tokens or was written. It
      then reports the token total of all lines and one call per chunk sent,
      and it sent and wrote every flushed chunk, followed by the leftover
      when that has tokens. */
  lemma IngestCompleted(b: Backend, strs: seq<string>, chunkSize: int, tokens: string -> nat)
    ensures var p := Pack(strs, tokens, chunkSize);
            var t := Ingest(b, strs, chunkSize, tokens);
            t.outcome.Completed?
            <==> AllSent(b, Chunks(p.flushed)) && (SumTokens(p.open, tokens) == 0 || b.last(Concat(p.open)))
    ensures var p := Pack(strs, tokens, chunkSize);
            var t := Ingest(b, strs, chunkSize, tokens);
            t.outcome.Completed? ==>
              t.outcome.totalTokens == SumTokens(strs, tokens)
              && t.outcome.apiCalls == |t.embedded|
              && t.inserted == t.embedded
              && t.embedded == Chunks(p.flushed) + (if SumTokens(p.open, tokens) > 0 then [Concat(p.open)] else [])
  {
    var p := Pack(strs, tokens, chunkSize);
    var chunks := Chunks(p.flushed);
    var k := FirstFailure(b, chunks);
    if k < |chunks| {
      assert !AllSent(b, chunks) by {
        assert b.flush(chunks[k]) != Sent;
      }
    }
  }

  /** A run that does not complete stops at the first chunk that failed,
      counting the leftover accumulator as the last chunk: every chunk before
      it went through, it was the last chunk sent to the embedding service,
      it was written unless its embedding came back empty, and nothing after
      it was sent or written. Only a flushed chunk can stop the run with an
      empty embedding, and the leftover stops it only when it has tokens. */
  lemma IngestStopsAtFailure(b: Backend, strs: seq<string>, chunkSize: int, tokens: string -> nat)
    ensures var p := Pack(strs, tokens, chunkSize);
            var chunks := Chunks(p.flushed);
            var all := chunks + [Concat(p.open)];
            var t := Ingest(b, strs, chunkSize, tokens);
            !t.outcome.Completed? ==>
              var k := t.outcome.chunk;
              k < |all| && AllSent(b, all[..k]) && t.embedded == all[..k + 1]
              && (t.outcome.EmptyEmbedding? ==>
                    k < |chunks| && b.flush(all[k]) == EmptyVector && t.inserted == all[..k])
              && (t.outcome.InsertFailed? ==>
                    t.inserted == all[..k + 1]
                    && (k < |chunks| ==> b.flush(all[k]) == NoId)
                    && (k == |chunks| ==> SumTokens(p.open, tokens) > 0 && !b.last(all[k])))
  {
    var p := Pack(strs, tokens, chunkSize);
    ProcessStops(b, Chunks(p.flushed), Concat(p.open), SumTokens(p.open, tokens), SumTokens(strs, tokens));
  }

  /** `IngestStopsAtFailure` for any chunks and leftover. */
  lemma ProcessStops(b: Backend, chunks: seq<string>, tail: string, tailTokens: nat, totalTokens: nat)
    ensures var all := chunks + [tail];
            var t := Process(b, chunks, tail, tailTokens, totalTokens);
            !t.outcome.Completed? ==>
              var k := t.outcome.chunk;
              k < |all| && AllSent(b, all[..k]) && t.embedded == all[..k + 1]
              && (t.outcome.EmptyEmbedding? ==>
                    k < |chunks| && b.flush(all[k]) == EmptyVector && t.inserted == all[..k])
              && (t.outcome.InsertFailed? ==>
                    t.inserted == all[..k + 1]
                    && (k < |chunks| ==> b.flush(all[k]) == NoId)
                    && (k == |chunks| ==> tailTokens > 0 && !b.last(all[k])))
  {
    var all := chunks + [tail];
    var k := FirstFailure(b, chunks);
    if k < |chunks| {
      PrefixOfSnoc(chunks, tail, k);
    } else {
      assert all[..k] == chunks;
      assert all[..k + 1] == all;
    }
  }

  /** Cutting `chunks + [tail]` inside `chunks`. */
  lemma PrefixOfSnoc(chunks: seq<string>, tail: string, k: nat)
    requires k < |chunks|
    ensures (chunks + [tail])[..k] == chunks[..k]
    ensures (chunks + [tail])[..k + 1] == chunks[..k] + [chunks[k]]
    ensures (chunks + [tail])[k] == chunks[k]
  {
  }

  /** What a run sends is a prefix of the flushed chunks followed by the
      leftover accumulator, what it writes is a prefix of what it sends, and
      a leftover without tokens is never sent. */
  lemma IngestSendsPrefix(b: Backend, strs: seq<string>, chunkSize: int, tokens: string -> nat)
    ensures var p := Pack(strs, tokens, chunkSize);
            var t := Ingest(b, strs, chunkSize, tokens);
            t.inserted <= t.embedded <= Chunks(p.flushed) + [Concat(p.open)]
            && (SumTokens(p.open, tokens) == 0 ==> t.embedded <= Chunks(p.flushed))
  {
    var p := Pack(strs, tokens, chunkSize);
    ProcessSendsPrefix(b, Chunks(p.flushed), Concat(p.open), SumTokens(p.open, tokens), SumTokens(strs, tokens));
  }

  /** `IngestSendsPrefix` for any chunks and leftover. */
  lemma ProcessSendsPrefix(b: Backend, chunks: seq<string>, tail: string, tailTokens: nat, totalTokens: nat)
    ensures var t := Process(b, chunks, tail, tailTokens, totalTokens);
            t.inserted <= t.embedded <= chunks + [tail]
            && (tailTokens == 0 ==> t.embedded <= chunks)
  {
    var k := FirstFailure(b, chunks);
    if k < |chunks| {
      PrefixOfSnoc(chunks, tail, k);
      assert chunks[..k] + [chunks[k]] == chunks[..k + 1];
    }
  }

  /** Without a connection no chunk goes through. */
  lemma NoDbNeverStores(embed: Embedder, chunk: string)
    ensures Live(None, embed).flush(chunk) != Sent
    ensures !Live(None, embed).last(chunk)
  {
    CreateEmbeddingNoDb(chunk, "", GetEmbedding(embed, chunk));
  }

  /** Without a connection a run sends at most one chunk, writes nothing that
      yields an id, and completes only when there was nothing to send. */
  lemma IngestWithoutDb(embed: Embedder, strs: seq<string>, chunkSize: int, tokens: string -> nat)
    ensures var p := Pack(strs, tokens, chunkSize);
            var t := Ingest(Live(None, embed), strs, chunkSize, tokens);
            |t.embedded| <= 1
            && (t.outcome.Completed? <==> p.flushed == [] && SumTokens(p.open, tokens) == 0)
  {
    var p := Pack(strs, tokens, chunkSize);
    var chunks := Chunks(p.flushed);
    if chunks != [] {
      NoDbNeverStores(embed, chunks[0]);
      assert FirstFailure(Live(None, embed), chunks) == 0;
    } else {
      NoDbNeverStores(embed, Concat(p.open));
    }
  }

  /** The flush inside the ingest loop (main.py:178-187). */
  method SendChunk(db: Option<Connection>, embed: Embedder, chunk: string) returns (status: Status)
    ensures status == ChunkStatus(db, embed, chunk)
  {
    var embedding := GetEmbedding(embed, chunk);
    if |embedding| == 0 {
      return EmptyVector;
    }
    var id := CreateEmbedding(db, chunk, "", embedding);
    if !Stored(id) {
      return NoId;
    }
    return Sent;
  }

  /** `gen_vector_from_file` (main.py:162-200) over the file's lines. */
  method GenVectorFromFile(db: Option<Connection>, lines: seq<string>, chunkSize: int,
                           tokens: string -> nat, embed: Embedder)
    returns (outcome: Outcome, ghost embedded: seq<string>, ghost inserted: seq<string>)
    ensures Trace(outcome, embedded, inserted)
            == Run(Live(db, embed), NormalizeAll(lines), chunkSize, tokens, 0, Acc("", 0, 0, []))
    ensures Trace(outcome, embedded, inserted) == Ingest(Live(db, embed), NormalizeAll(lines), chunkSize, tokens)
    // The outcome, the method's only non-ghost result, stated on its own.
    ensures outcome == Ingest(Live(db, embed), NormalizeAll(lines), chunkSize, tokens).outcome
  {
    ghost var b := Live(db, embed);
    ghost var strs := NormalizeAll(lines);
    ghost var target := Run(b, strs, chunkSize, tokens, 0, Acc("", 0, 0, []));
    var chunkContent := "";
    var contentSize: nat := 0;
    var totalSize: nat := 0;
    var callApiCnt := 0;
    embedded, inserted := [], [];
    var i := 0;
    while i < |lines|
      invariant i <= |lines|
      invariant Run(b, strs, chunkSize, tokens, i, Acc(chunkContent, contentSize, totalSize, embedded)) == target
      invariant inserted == embedded && callApiCnt == |embedded|
    {
      ghost var a := Acc(chunkContent, contentSize, totalSize, embedded);
      var str := Normalize(lines[i]);
      var size := tokens(str);
      assert str == strs[i];
      totalSize := totalSize + size;
      if contentSize + size < chunkSize {
        RunAppend(b, strs, chunkSize, tokens, i, a);
        contentSize := contentSize + size;
        chunkContent := chunkContent + str;
      } else {
        callApiCnt := callApiCnt + 1;
        var status := SendChunk(db, embed, chunkContent);
        if status != Sent {
          RunAbort(b, strs, chunkSize, tokens, i, a);
        }
        if status == EmptyVector {
          outcome := EmptyEmbedding(callApiCnt - 1);
          embedded := embedded + [chunkContent];
          RunFromStartIsIngest(b, strs, chunkSize, tokens);
          return;
        }
        if status == NoId {
          outcome := InsertFailed(callApiCnt - 1);
          embedded := embedded + [chunkContent];
          inserted := inserted + [chunkContent];
          RunFromStartIsIngest(b, strs, chunkSize, tokens);
          return;
        }
        RunFlush(b, strs, chunkSize, tokens, i, a);
        embedded := embedded + [chunkContent];
        inserted := inserted + [chunkContent];
        contentSize := size;
        chunkContent := str;
      }
      i := i + 1;
    }
    outcome, embedded, inserted := SendRemainder(db, embed, chunkContent, contentSize, totalSize, callApiCnt, embedded);
    RunFromStartIsIngest(b, strs, chunkSize, tokens);
  }

  /** The end of `gen_vector_from_file` (main.py:191-200): the accumulator
      left over is embedded and written when its token count is positive;
      only the write is checked. */
  method SendRemainder(db: Option<Connection>, embed: Embedder, chunkContent: string, contentSize: nat,
                       totalSize: nat, callApiCnt: nat, ghost sent: seq<string>)
    returns (outcome: Outcome, ghost embedded: seq<string>, ghost inserted: seq<string>)
    requires callApiCnt == |sent|
    ensures Trace(outcome, embedded, inserted) == Finish(Live(db, embed), sent, chunkContent, contentSize, totalSize)
    ensures outcome == Finish(Live(db, embed), sent, chunkContent, contentSize, totalSize).outcome
  {
    embedded, inserted := sent, sent;
    if contentSize > 0 {
      var embedding := GetEmbedding(embed, chunkContent);
      embedded := embedded + [chunkContent];
      var id := CreateEmbedding(db, chunkContent, "", embedding);
      inserted := inserted + [chunkContent];
      if !Stored(id) {
        return InsertFailed(callApiCnt), embedded, inserted;
      }
      return Completed(totalSize, callApiCnt + 1), embedded, inserted;
    }
    outcome := Completed(totalSize, callApiCnt);
  }

  /** `gen_vector_from_file` called without `chunk_size` (main.py:162). */
  method GenVectorFromFileDefault(db: Option<Connection>, lines: seq<string>, tokens: string -> nat, embed: Embedder)
    returns (outcome: Outcome)
    ensures outcome == Ingest(Live(db, embed), NormalizeAll(lines), DefaultChunkSize, tokens).outcome
  {
    ghost var embedded, inserted;
    outcome, embedded, inserted := GenVectorFromFile(db, lines, DefaultChunkSize, tokens, embed);
  }
}
