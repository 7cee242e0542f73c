/** Composing a prompt's cache from cached chunks: precompute_chunks, attach_tail and the queue, flush and
    attach loop of run_variant in tools/chunk_spike.cpp. */
module ChunkCompose {
  import opened Tokens

  /** A cache cell: its token, and whether it was computed for this very prompt. */
  datatype Cell = Cell(token: Token, anew: bool)

  type Strip = seq<Cell>

  /** The cells of a sequence by position. */
  type Cells = map<int, Cell>

  /** A strip of cells laid out from position `at` on. */
  function Laid(s: Strip, at: int): Cells {
    if s == [] then map[] else Laid(s[..|s| - 1], at)[at + |s| - 1 := s[|s| - 1]]
  }

  lemma {:induction false} LaidIs(s: Strip, at: int)
    ensures forall p :: p in Laid(s, at) <==> at <= p < at + |s|
    ensures forall p | p in Laid(s, at) :: Laid(s, at)[p] == s[p - at]
  {
    if s != [] { LaidIs(s[..|s| - 1], at); }
  }

  lemma LaidNothing(at: int)
    ensures Laid([], at) == map[]
  {
  }

  lemma LaidSnoc(u: Strip, c: Cell, at: int)
    ensures Laid(u + [c], at) == Laid(u, at)[at + |u| := c]
  {
    assert (u + [c])[..|u|] == u;
  }

  lemma {:induction false} LaidConcat(s: Strip, x: Strip)
    ensures Laid(s, 0) + Laid(x, |s|) == Laid(s + x, 0)
    decreases |x|
  {
    if x == [] {
      assert s + x == s;
    } else {
      var init, c := x[..|x| - 1], x[|x| - 1];
      assert x == init + [c] && s + x == s + init + [c];
      hide Laid;
      LaidConcat(s, init);
      LaidSnoc(init, c, |s|);
      LaidSnoc(s + init, c, 0);
    }
  }

  lemma LaidApart(s: Strip, x: Strip, at: int)
    requires |s| <= at
    ensures Laid(s, 0).Keys !! Laid(x, at).Keys
  {
    LaidIs(s, 0);
    LaidIs(x, at);
  }

  /** Cells computed for this prompt, and cells taken over. */
  function Fresh(w: Word): (s: Strip)
    ensures |s| == |w|
  {
    if w == [] then [] else Fresh(w[..|w| - 1]) + [Cell(w[|w| - 1], true)]
  }

  function Kept(w: Word): (s: Strip)
    ensures |s| == |w|
  {
    if w == [] then [] else Kept(w[..|w| - 1]) + [Cell(w[|w| - 1], false)]
  }

  lemma {:induction false} FreshAppend(a: Word, b: Word)
    ensures Fresh(a + b) == Fresh(a) + Fresh(b)
    decreases |b|
  {
    if b == [] {
      assert a + b == a;
    } else {
      var init, t := b[..|b| - 1], b[|b| - 1];
      FreshAppend(a, init);
      assert (a + b)[..|a + b| - 1] == a + init;
      assert Fresh(a) + Fresh(init) + [Cell(t, true)] == Fresh(a) + (Fresh(init) + [Cell(t, true)]);
    }
  }

  lemma {:induction false} KeptAppend(a: Word, b: Word)
    ensures Kept(a + b) == Kept(a) + Kept(b)
    decreases |b|
  {
    if b == [] {
      assert a + b == a;
    } else {
      var init, t := b[..|b| - 1], b[|b| - 1];
      KeptAppend(a, init);
      assert (a + b)[..|a + b| - 1] == a + init;
      assert Kept(a) + Kept(init) + [Cell(t, false)] == Kept(a) + (Kept(init) + [Cell(t, false)]);
    }
  }

  lemma OneMore(s: Strip, w: Word, i: nat)
    requires i < |w|
    ensures Laid(s + Fresh(w[..i + 1]), 0) == Laid(s + Fresh(w[..i]), 0)[|s| + i := Cell(w[i], true)]
  {
    hide Laid, Fresh;
    assert w[..i + 1] == w[..i] + [w[i]];
    FreshAppend(w[..i], [w[i]]);
    FreshOne(w[i]);
    assert s + Fresh(w[..i + 1]) == s + Fresh(w[..i]) + [Cell(w[i], true)];
    LaidSnoc(s + Fresh(w[..i]), Cell(w[i], true), 0);
  }

  lemma FreshOne(t: Token)
    ensures Fresh([t]) == [Cell(t, true)]
  {
    assert [t][..0] == [];
  }

  /** The cells of `w` once they are exported. */
  function Exported(s: Strip): (r: Strip)
    ensures |r| == |s|
  {
    if s == [] then [] else Exported(s[..|s| - 1]) + [s[|s| - 1].(anew := false)]
  }

  lemma {:induction false} ExportedFresh(p: Word, w: Word)
    ensures Exported(Kept(p) + Fresh(w)) == Kept(p + w)
    decreases |w|, |p|
  {
    var s := Kept(p) + Fresh(w);
    if w != [] {
      var init := w[..|w| - 1];
      ExportedFresh(p, init);
      assert s[..|s| - 1] == Kept(p) + Fresh(init) && (p + w)[..|p + w| - 1] == p + init;
    } else if p != [] {
      var init := p[..|p| - 1];
      ExportedFresh(init, []);
      assert s[..|s| - 1] == Kept(init) + Fresh([]) && (p + w)[..|p + w| - 1] == init + [];
    }
  }

  /** llama_memory_seq_rm for positions p0 <= p < p1. */
  function Removed(c: Cells, p0: int, p1: int): Cells { map p | p in c && !(p0 <= p < p1) :: c[p] }

  /** llama_memory_seq_add for positions p0 <= p. */
  function Shifted(c: Cells, p0: int, delta: int): Cells {
    var moved := set p | p in c && p0 <= p :: p + delta;
    (map p | p in c && p < p0 :: c[p]) + (map q | q in moved :: c[q - delta])
  }

  type SeqName = int

  const PREFIX: SeqName := 0
  const TARGET: SeqName := 1
  const SCRATCH: SeqName := 2
  const TEMPORARY: SeqName := 3

  /** A sequence's exported state; importing it computes nothing. */
  datatype Blob = Blob(cells: Cells, tokenCount: nat)

  class Memory {
    var seqs: map<SeqName, Cells>

    ghost function At(q: SeqName): Cells
      reads this
    {
      if q in seqs then seqs[q] else map[]
    }

    constructor ()
      ensures seqs == map[]
    {
      seqs := map[];
    }

    method Remove(q: SeqName)
      modifies this
      ensures seqs == old(seqs)[q := map[]]
    {
      seqs := seqs[q := map[]];
    }

    method SeqRm(q: SeqName, p0: int, p1: int)
      modifies this
      ensures seqs == old(seqs)[q := Removed(old(At(q)), p0, p1)]
    {
      var c: Cells := if q in seqs then seqs[q] else map[];
      seqs := seqs[q := Removed(c, p0, p1)];
    }

    method SeqAdd(q: SeqName, p0: int, delta: int)
      modifies this
      ensures seqs == old(seqs)[q := Shifted(old(At(q)), p0, delta)]
    {
      var c: Cells := if q in seqs then seqs[q] else map[];
      seqs := seqs[q := Shifted(c, p0, delta)];
    }

    /** Copy all cells; none may go to a position that is taken. */
    method SeqCp(src: SeqName, dst: SeqName)
      requires At(src).Keys !! At(dst).Keys
      modifies this
      ensures seqs == old(seqs)[dst := old(At(dst)) + old(At(src))]
    {
      var from: Cells := if src in seqs then seqs[src] else map[];
      var to: Cells := if dst in seqs then seqs[dst] else map[];
      seqs := seqs[dst := to + from];
    }

    /** Decode tokens into a sequence; the first one must continue it exactly where it ends. */
    method Decode(tokens: Word, q: SeqName, position: int, ghost s: Strip)
      requires At(q) == Laid(s, 0) && (tokens != [] ==> position == |s|)
      modifies this
      ensures At(q) == Laid(s + Fresh(tokens), 0) && forall r | r != q :: At(r) == old(At(r))
    {
      if tokens == [] {
        assert s + Fresh(tokens) == s;
        return;
      }
      hide Laid, Fresh;
      NoCells();
      var i := 0;
      assert tokens[..0] == [] && s + [] == s;
      while i < |tokens|
        invariant 0 <= i <= |tokens| && At(q) == Laid(s + Fresh(tokens[..i]), 0)
        invariant forall r | r != q :: At(r) == old(At(r))
      {
        var c: Cells := if q in seqs then seqs[q] else map[];
        OneMore(s, tokens, i);
        seqs := seqs[q := c[position + i := Cell(tokens[i], true)]];
        i := i + 1;
      }
      assert tokens[..i] == tokens;
    }

    method Snapshot(q: SeqName, tokenCount: nat) returns (blob: Blob)
      ensures blob.tokenCount == tokenCount && blob.cells == map p | p in At(q) :: At(q)[p].(anew := false)
    {
      var c: Cells := if q in seqs then seqs[q] else map[];
      blob := Blob(map p | p in c :: c[p].(anew := false), tokenCount);
    }

    method Restore(blob: Blob, q: SeqName)
      modifies this
      ensures seqs == old(seqs)[q := blob.cells]
    {
      Remove(q);
      seqs := seqs[q := blob.cells];
    }
  }

  // ---------------------------------------------------------------- cached chunks

  /** The blob of a chunk computed alone, or behind the prefix. */
  ghost predicate BlobOk(blob: Blob, prefixed: bool, prefix: Word, chunk: Word) {
    blob.tokenCount == |chunk| && blob.cells == Laid(Kept(if prefixed then prefix + chunk else chunk), 0)
  }

  lemma {:induction false} SnapshotOk(s: Strip, c: Cells)
    requires c == Laid(s, 0)
    ensures (map p | p in c :: c[p].(anew := false)) == Laid(Exported(s), 0)
    decreases |s|
  {
    if s != [] {
      var init, x := s[..|s| - 1], s[|s| - 1];
      assert s == init + [x];
      LaidIs(init, 0);
      SnapshotOk(init, Laid(init, 0));
      LaidSnoc(Exported(init), x.(anew := false), 0);
    }
  }

  method PrecomputeChunks(m: Memory, prefix: Word, chunks: seq<Word>) returns (naive: seq<Blob>, prefixed: seq<Blob>)
    requires m.At(PREFIX) == Laid(Kept(prefix), 0) && m.At(SCRATCH) == map[]
    modifies m
    ensures m.At(PREFIX) == Laid(Kept(prefix), 0) && m.At(SCRATCH) == map[] && m.At(TARGET) == old(m.At(TARGET))
    ensures |naive| == |prefixed| == |chunks|
    ensures forall i | 0 <= i < |chunks| ::
              BlobOk(naive[i], false, prefix, chunks[i]) && BlobOk(prefixed[i], true, prefix, chunks[i])
  {
    naive, prefixed := [], [];
    var i := 0;
    while i < |chunks|
      invariant 0 <= i <= |chunks| && |naive| == |prefixed| == i
      invariant m.At(PREFIX) == Laid(Kept(prefix), 0) && m.At(SCRATCH) == map[] && m.At(TARGET) == old(m.At(TARGET))
      invariant forall j | 0 <= j < i ::
                BlobOk(naive[j], false, prefix, chunks[j]) && BlobOk(prefixed[j], true, prefix, chunks[j])
    {
      var a, b := PrecomputeChunk(m, prefix, chunks[i]);
      naive, prefixed := naive + [a], prefixed + [b];
      i := i + 1;
    }
  }

  method PrecomputeChunk(m: Memory, prefix: Word, chunk: Word) returns (naive: Blob, prefixed: Blob)
    requires m.At(PREFIX) == Laid(Kept(prefix), 0) && m.At(SCRATCH) == map[]
    modifies m
    ensures m.At(PREFIX) == Laid(Kept(prefix), 0) && m.At(SCRATCH) == map[] && m.At(TARGET) == old(m.At(TARGET))
    ensures BlobOk(naive, false, prefix, chunk) && BlobOk(prefixed, true, prefix, chunk)
  {
    hide Laid, Fresh, Kept, Exported;
    LaidNothing(0);
    m.Decode(chunk, SCRATCH, 0, []);
    assert m.At(PREFIX) == Laid(Kept(prefix), 0) && m.At(TARGET) == old(m.At(TARGET));
    NoCells();
    assert [] + Fresh(chunk) == Fresh(chunk) && Kept([]) + Fresh(chunk) == Fresh(chunk) && [] + chunk == chunk;
    SnapshotOk(Fresh(chunk), m.At(SCRATCH));
    ExportedFresh([], chunk);
    naive := m.Snapshot(SCRATCH, |chunk|);
    m.Remove(SCRATCH);
    m.SeqCp(PREFIX, SCRATCH);
    assert map[] + Laid(Kept(prefix), 0) == Laid(Kept(prefix), 0);
    m.Decode(chunk, SCRATCH, |prefix|, Kept(prefix));
    assert m.At(PREFIX) == Laid(Kept(prefix), 0) && m.At(TARGET) == old(m.At(TARGET));
    SnapshotOk(Kept(prefix) + Fresh(chunk), m.At(SCRATCH));
    ExportedFresh(prefix, chunk);
    prefixed := m.Snapshot(SCRATCH, |chunk|);
    m.Remove(SCRATCH);
  }

  lemma NoCells()
    ensures Kept([]) == [] && Fresh([]) == []
  {
  }

  lemma BlobCount(blob: Blob, prefixed: bool, prefix: Word, chunk: Word)
    requires BlobOk(blob, prefixed, prefix, chunk)
    ensures blob.tokenCount == |chunk|
  {
  }

  /** Import a blob and remove from it the recomputed head and the prefix. */
  method ImportTail(m: Memory, blob: Blob, blobHasPrefix: bool, prefixTokens: nat, recomputed: nat, ghost prefix: Word,
                    ghost chunk: Word)
    requires BlobOk(blob, blobHasPrefix, prefix, chunk) && prefixTokens == |prefix| && recomputed <= |chunk|
    modifies m
    ensures m.At(TEMPORARY) == Laid(Kept(chunk[recomputed..]), (if blobHasPrefix then prefixTokens else 0) + recomputed)
    ensures forall r | r != TEMPORARY :: m.At(r) == old(m.At(r))
  {
    hide Laid, Removed, Kept;
    m.Restore(blob, TEMPORARY);
    var blobStart := if blobHasPrefix then prefixTokens else 0;
    NothingRemoved(blob.cells, blobStart);
    if recomputed > 0 {
      m.SeqRm(TEMPORARY, blobStart, blobStart + recomputed);
    }
    ghost var headless := Removed(blob.cells, blobStart, blobStart + recomputed);
    assert m.At(TEMPORARY) == headless;
    NothingRemoved(headless, 0);
    if blobHasPrefix {
      m.SeqRm(TEMPORARY, 0, prefixTokens);
    }
    BlobTail(blob, blobHasPrefix, prefix, chunk, recomputed);
  }

  /** Put what a cached chunk has beyond its recomputed head into the target, moved to where it belongs. */
  method AttachTail(m: Memory, blob: Blob, blobHasPrefix: bool, prefixTokens: nat, recomputed: nat, finalPosition: int,
                    ghost prefix: Word, ghost chunk: Word, ghost s: Strip)
    requires BlobOk(blob, blobHasPrefix, prefix, chunk) && prefixTokens == |prefix| && recomputed <= |chunk|
    requires m.At(TARGET) == Laid(s, 0) && |s| <= finalPosition + recomputed
    modifies m
    ensures m.At(TARGET) == Laid(s, 0) + Laid(Kept(chunk[recomputed..]), finalPosition + recomputed)
    ensures m.At(TEMPORARY) == map[]
    ensures |s| == finalPosition + recomputed ==> m.At(TARGET) == Laid(s + Kept(chunk[recomputed..]), 0)
    ensures forall r | r != TARGET && r != TEMPORARY :: m.At(r) == old(m.At(r))
  {
    hide Laid, Shifted, Kept, BlobOk;
    ghost var target := m.At(TARGET);
    ImportTail(m, blob, blobHasPrefix, prefixTokens, recomputed, prefix, chunk);
    assert m.At(TARGET) == target;
    var blobStart := if blobHasPrefix then prefixTokens else 0;
    var tailStart := blobStart + recomputed;
    ghost var tail := Kept(chunk[recomputed..]);
    BlobCount(blob, blobHasPrefix, prefix, chunk);
    if tailStart < blobStart + blob.tokenCount {
      m.SeqAdd(TEMPORARY, tailStart, finalPosition + recomputed - tailStart);
      ShiftLaid(tail, tailStart, finalPosition + recomputed - tailStart);
      LaidApart(s, tail, finalPosition + recomputed);
      m.SeqCp(TEMPORARY, TARGET);
    } else {
      LaidNothing(finalPosition + recomputed);
      assert Laid(s, 0) + map[] == Laid(s, 0);
    }
    m.Remove(TEMPORARY);
    LaidConcat(s, tail);
  }

  lemma ShiftLaid(x: Strip, at: int, delta: int)
    ensures Shifted(Laid(x, at), at, delta) == Laid(x, at + delta)
  {
    hide Laid;
    LaidIs(x, at);
    LaidIs(x, at + delta);
    var c := Laid(x, at);
    var moved := set p | p in c && at <= p :: p + delta;
    forall q ensures q in moved <==> at + delta <= q < at + delta + |x| {
      if at + delta <= q < at + delta + |x| {
        assert q - delta in c && q == (q - delta) + delta;
      }
    }
  }

  /** What is left of a chunk's blob without the prefix and the recomputed head. */
  lemma TailLeft(a: Strip, b: Strip, r: nat)
    requires r <= |b|
    ensures Removed(Removed(Laid(a + b, 0), |a|, |a| + r), 0, |a|) == Laid(b[r..], |a| + r)
  {
    hide Laid;
    LaidIs(a + b, 0);
    LaidIs(b[r..], |a| + r);
  }

  lemma KeptTail(w: Word, r: nat)
    requires r <= |w|
    ensures Kept(w[r..]) == Kept(w)[r..]
  {
    assert w == w[..r] + w[r..];
    KeptAppend(w[..r], w[r..]);
  }

  lemma BlobTail(blob: Blob, prefixed: bool, prefix: Word, chunk: Word, r: nat)
    requires BlobOk(blob, prefixed, prefix, chunk) && r <= |chunk|
    ensures var start := if prefixed then |prefix| else 0;
            Removed(Removed(blob.cells, start, start + r), 0, start) == Laid(Kept(chunk[r..]), start + r)
  {
    hide Laid, Removed, Kept;
    var pre := if prefixed then Kept(prefix) else [];
    KeptAppend(prefix, chunk);
    assert [] + Kept(chunk) == Kept(chunk);
    TailLeft(pre, Kept(chunk), r);
    KeptTail(chunk, r);
  }

  lemma NothingRemoved(c: Cells, p: int)
    ensures Removed(c, p, p) == c
  {
  }

  // ---------------------------------------------------------------- composing a prompt

  datatype VariantSpec = VariantSpec(full: bool, prefixed: bool, head: nat, all: bool)

  /** How many tokens at the head of chunk `i` are computed anew. */
  function Recomputed(spec: VariantSpec, selected: seq<bool>, chunks: seq<Word>, i: nat): (r: nat)
    requires i < |chunks| == |selected|
    ensures r <= |chunks[i]|
  {
    if spec.full || spec.all || selected[i] then |chunks[i]|
    else if i != 0 then if spec.head <= |chunks[i]| then spec.head else |chunks[i]|
    else 0
  }

  /** A chunk is computed whole where all is, or where it is selected; of any other but the first the head is, as
      far as it goes, and of the first nothing. */
  lemma HeadOf(spec: VariantSpec, selected: seq<bool>, chunks: seq<Word>, i: nat)
    requires i < |chunks| == |selected|
    ensures var r, whole := Recomputed(spec, selected, chunks, i), spec.full || spec.all || selected[i];
            && (whole ==> r == |chunks[i]|)
            && (!whole && i == 0 ==> r == 0)
            && (!whole && i > 0 ==> r <= spec.head && r <= |chunks[i]| && (r == spec.head || r == |chunks[i]|))
  {
  }

  method HeadLength(spec: VariantSpec, selected: seq<bool>, chunks: seq<Word>, index: nat) returns (recomputed: nat)
    requires index < |chunks| == |selected|
    ensures recomputed == Recomputed(spec, selected, chunks, index)
  {
    var size := |chunks[index]|;
    recomputed := 0;
    if spec.full || spec.all || selected[index] {
      recomputed := size;
    } else if index != 0 {
      recomputed := if spec.head <= size then spec.head else size;
    }
  }

  /** The cells of the first `n` chunks: computed heads and cached tails. */
  function Chunks(spec: VariantSpec, selected: seq<bool>, chunks: seq<Word>, n: nat): Strip
    requires n <= |chunks| == |selected|
  {
    if n == 0 then []
    else
      var r := Recomputed(spec, selected, chunks, n - 1);
      Chunks(spec, selected, chunks, n - 1) + (Fresh(chunks[n - 1][..r]) + Kept(chunks[n - 1][r..]))
  }

  function FreshCells(s: Strip): nat {
    if s == [] then 0 else FreshCells(s[..|s| - 1]) + if s[|s| - 1].anew then 1 else 0
  }

  function TokensOf(s: Strip): Word { seq(|s|, i requires 0 <= i < |s| => s[i].token) }

  function Flat(chunks: seq<Word>, n: nat): Word
    requires n <= |chunks|
  {
    if n == 0 then [] else Flat(chunks, n - 1) + chunks[n - 1]
  }

  lemma {:induction false} FreshConcat(a: Strip, b: Strip)
    ensures FreshCells(a + b) == FreshCells(a) + FreshCells(b)
    decreases |b|
  {
    if b == [] {
      assert a + b == a;
    } else {
      FreshConcat(a, b[..|b| - 1]);
      assert (a + b)[..|a + b| - 1] == a + b[..|b| - 1];
    }
  }

  lemma {:induction false} AllFresh(w: Word)
    ensures FreshCells(Fresh(w)) == |w| && FreshCells(Kept(w)) == 0 && TokensOf(Fresh(w)) == w && TokensOf(Kept(w)) == w
    decreases |w|
  {
    if w != [] {
      var init, t := w[..|w| - 1], w[|w| - 1];
      AllFresh(init);
      assert w == init + [t] && Fresh(w) == Fresh(init) + [Cell(t, true)] && Kept(w) == Kept(init) + [Cell(t, false)];
      hide Fresh, Kept, FreshCells, TokensOf;
      OneCell(Fresh(init), Cell(t, true));
      OneCell(Kept(init), Cell(t, false));
    }
  }

  lemma OneCell(s: Strip, c: Cell)
    ensures FreshCells(s + [c]) == FreshCells(s) + if c.anew then 1 else 0
    ensures TokensOf(s + [c]) == TokensOf(s) + [c.token]
  {
    assert (s + [c])[..|s|] == s;
  }

  lemma TokensConcat(a: Strip, b: Strip)
    ensures TokensOf(a + b) == TokensOf(a) + TokensOf(b)
  {
  }

  /** What is composed says the prompt, token by token. */
  lemma {:induction false} ChunksSay(spec: VariantSpec, selected: seq<bool>, chunks: seq<Word>, n: nat)
    requires n <= |chunks| == |selected|
    ensures TokensOf(Chunks(spec, selected, chunks, n)) == Flat(chunks, n)
  {
    if n > 0 {
      hide TokensOf, Fresh, Kept, Recomputed;
      ChunksSay(spec, selected, chunks, n - 1);
      var r := Recomputed(spec, selected, chunks, n - 1);
      ChunkSays(chunks[n - 1], r);
      TokensConcat(Chunks(spec, selected, chunks, n - 1), Fresh(chunks[n - 1][..r]) + Kept(chunks[n - 1][r..]));
    }
  }

  lemma ChunkSays(chunk: Word, r: nat)
    requires r <= |chunk|
    ensures TokensOf(Fresh(chunk[..r]) + Kept(chunk[r..])) == chunk
  {
    AllFresh(chunk[..r]);
    AllFresh(chunk[r..]);
    hide TokensOf, Fresh, Kept;
    TokensConcat(Fresh(chunk[..r]), Kept(chunk[r..]));
    assert chunk[..r] + chunk[r..] == chunk;
  }

  /** Build the target for one variant.  It is filled from left to right, every position once: the copied
      prefix, for each chunk its computed head and its cached tail, and the suffix; `computed` is the
      number of tokens that were decoded into it. */
  method RunVariant(m: Memory, prefix: Word, chunks: seq<Word>, suffix: Word, blobs: seq<Blob>, spec: VariantSpec,
                    selected: seq<bool>)
    returns (computed: nat, ghost s: Strip)
    requires m.At(PREFIX) == Laid(Kept(prefix), 0)
    requires |blobs| == |chunks| == |selected|
    requires forall i | 0 <= i < |chunks| :: BlobOk(blobs[i], spec.prefixed, prefix, chunks[i])
    modifies m
    ensures m.At(PREFIX) == Laid(Kept(prefix), 0) && m.At(TARGET) == Laid(s, 0)
    ensures s == Kept(prefix) + Chunks(spec, selected, chunks, |chunks|) + Fresh(suffix)
    ensures TokensOf(s) == prefix + Flat(chunks, |chunks|) + suffix
    ensures computed == FreshCells(s) && m.At(SCRATCH) == old(m.At(SCRATCH))
  {
    hide Laid, Fresh, Kept, FreshCells, Recomputed;
    m.Remove(TARGET);
    LaidNothing(0);
    m.SeqCp(PREFIX, TARGET);
    assert map[] + Laid(Kept(prefix), 0) == Laid(Kept(prefix), 0);
    s := Kept(prefix);
    var position := |prefix|;
    computed := |suffix|;
    var pending: Word := [];
    var pendingPosition: int := position;
    var index := 0;
    NoCells();
    CountNothing();
    while index < |chunks|
      invariant 0 <= index <= |chunks|
      invariant m.At(PREFIX) == Laid(Kept(prefix), 0) && m.At(TARGET) == Laid(s, 0)
      invariant m.At(SCRATCH) == old(m.At(SCRATCH))
      invariant s + Fresh(pending) == Kept(prefix) + Chunks(spec, selected, chunks, index)
      invariant position == |s| + |pending| && (pending != [] ==> pendingPosition == |s|)
      invariant computed == |suffix| + FreshCells(Chunks(spec, selected, chunks, index))
    {
      var recomputed := HeadLength(spec, selected, chunks, index);
      CountChunk(spec, selected, chunks, index);
      pending, pendingPosition, s :=
        PlaceChunk(m, prefix, chunks[index], recomputed, blobs[index], spec.prefixed, position, pending,
                   pendingPosition, s);
      computed := computed + recomputed;
      position := position + |chunks[index]|;
      index := index + 1;
      assert s + Fresh(pending) == Kept(prefix) + Chunks(spec, selected, chunks, index);
    }
    if pending == [] { pendingPosition := position; }
    FreshAppend(pending, suffix);
    pending := pending + suffix;
    m.Decode(pending, TARGET, pendingPosition, s);
    assert m.At(PREFIX) == Laid(Kept(prefix), 0);
    s := s + Fresh(pending);
    CountAll(spec, selected, prefix, chunks, suffix);
  }

  /** One item: its chunks are cached, and then a variant is composed from the blobs that calls for. */
  method ComposeItem(m: Memory, prefix: Word, chunks: seq<Word>, suffix: Word, spec: VariantSpec, selected: seq<bool>)
    returns (computed: nat, ghost s: Strip)
    requires m.At(PREFIX) == Laid(Kept(prefix), 0) && m.At(SCRATCH) == map[] && |selected| == |chunks|
    modifies m
    ensures m.At(PREFIX) == Laid(Kept(prefix), 0) && m.At(TARGET) == Laid(s, 0)
    ensures s == Kept(prefix) + Chunks(spec, selected, chunks, |chunks|) + Fresh(suffix)
    ensures TokensOf(s) == prefix + Flat(chunks, |chunks|) + suffix && computed == FreshCells(s)
  {
    hide Laid, Fresh, Kept, BlobOk, Chunks, TokensOf, FreshCells, Flat;
    var naive, prefixed := PrecomputeChunks(m, prefix, chunks);
    computed, s := RunVariant(m, prefix, chunks, suffix, if spec.prefixed then prefixed else naive, spec, selected);
  }

  /** Import a prefixed blob and decode one token behind it; `seen` is what the logits are computed from. */
  method ProbeBlob(m: Memory, blob: Blob, nextPosition: int, probe: Token, ghost prefix: Word, ghost chunk: Word)
    returns (seen: Cells)
    requires BlobOk(blob, true, prefix, chunk) && nextPosition == |prefix| + |chunk|
    modifies m
    ensures seen == Laid(Kept(prefix + chunk) + Fresh([probe]), 0) && m.At(TEMPORARY) == map[]
    ensures m.At(PREFIX) == old(m.At(PREFIX)) && m.At(SCRATCH) == old(m.At(SCRATCH))
    ensures m.At(TARGET) == old(m.At(TARGET))
  {
    hide Laid, Fresh, Kept;
    m.Restore(blob, TEMPORARY);
    m.Decode([probe], TEMPORARY, nextPosition, Kept(prefix + chunk));
    assert m.At(PREFIX) == old(m.At(PREFIX)) && m.At(SCRATCH) == old(m.At(SCRATCH)) &&
           m.At(TARGET) == old(m.At(TARGET));
    seen := if TEMPORARY in m.seqs then m.seqs[TEMPORARY] else map[];
    m.Remove(TEMPORARY);
  }

  /** Attaching an import of a blob elsewhere, with a gap before it, does not change what the blob gives next time. */
  method Independent(m: Memory, prefix: Word, chunk: Word, blob: Blob, probe: Token)
    returns (before: Cells, after: Cells)
    requires BlobOk(blob, true, prefix, chunk) && m.At(PREFIX) == Laid(Kept(prefix), 0) && m.At(TARGET) == map[]
    modifies m
    ensures before == after == Laid(Kept(prefix + chunk) + Fresh([probe]), 0)
    ensures m.At(PREFIX) == old(m.At(PREFIX)) && m.At(SCRATCH) == old(m.At(SCRATCH)) && m.At(TARGET) == map[]
    ensures m.At(TEMPORARY) == map[]
  {
    hide Laid, Fresh, Kept, BlobOk;
    before := ProbeBlob(m, blob, |prefix| + |chunk|, probe, prefix, chunk);
    assert m.At(PREFIX) == Laid(Kept(prefix), 0) && m.At(TARGET) == map[] && m.At(SCRATCH) == old(m.At(SCRATCH));
    m.SeqCp(PREFIX, TARGET);
    assert map[] + Laid(Kept(prefix), 0) == Laid(Kept(prefix), 0);
    AttachTail(m, blob, true, |prefix|, 0, |prefix| + 7, prefix, chunk, Kept(prefix));
    assert m.At(PREFIX) == Laid(Kept(prefix), 0) && m.At(SCRATCH) == old(m.At(SCRATCH));
    m.Remove(TARGET);
    after := ProbeBlob(m, blob, |prefix| + |chunk|, probe, prefix, chunk);
  }

  /** A whole item: its chunks are cached once, the blobs are probed, and then every variant is composed from them in
      a target that is empty again afterwards.  `computed[v]` is the number of tokens decoded for variant `v`, with the
      prefix added for the full one. */
  method RunItem(m: Memory, prefix: Word, chunks: seq<Word>, suffix: Word, specs: seq<VariantSpec>,
                 selected: seq<seq<bool>>)
    returns (computed: seq<nat>, before: Cells, after: Cells)
    requires m.At(PREFIX) == Laid(Kept(prefix), 0) && m.At(SCRATCH) == map[] && m.At(TARGET) == map[]
    requires chunks != [] && suffix != [] && |specs| == |selected|
    requires forall v | 0 <= v < |selected| :: |selected[v]| == |chunks|
    modifies m
    ensures m.At(PREFIX) == Laid(Kept(prefix), 0) && m.At(SCRATCH) == map[] && m.At(TARGET) == map[]
    ensures before == after == Laid(Kept(prefix + chunks[0]) + Fresh([suffix[0]]), 0)
    ensures |computed| == |specs| && forall v | 0 <= v < |specs| ::
              computed[v] == FreshCells(Chunks(specs[v], selected[v], chunks, |chunks|)) + |suffix| +
              if specs[v].full then |prefix| else 0
  {
    hide Laid, Fresh, Kept, BlobOk, Chunks, TokensOf, FreshCells, Flat;
    var naive, prefixed := PrecomputeChunks(m, prefix, chunks);
    before, after := Independent(m, prefix, chunks[0], prefixed[0], suffix[0]);
    assert m.At(PREFIX) == Laid(Kept(prefix), 0) && m.At(SCRATCH) == map[] && m.At(TARGET) == map[];
    computed := [];
    var v := 0;
    while v < |specs|
      invariant 0 <= v <= |specs| && |computed| == v
      invariant m.At(PREFIX) == Laid(Kept(prefix), 0) && m.At(SCRATCH) == map[] && m.At(TARGET) == map[]
      invariant forall u | 0 <= u < v ::
                  computed[u] == FreshCells(Chunks(specs[u], selected[u], chunks, |chunks|)) + |suffix| +
                  if specs[u].full then |prefix| else 0
    {
      var blobs := if specs[v].prefixed then prefixed else naive;
      var n, s := RunVariant(m, prefix, chunks, suffix, blobs, specs[v], selected[v]);
      CountAll(specs[v], selected[v], prefix, chunks, suffix);
      m.Remove(TARGET);
      computed := computed + [n + if specs[v].full then |prefix| else 0];
      v := v + 1;
    }
  }

  lemma CountNothing()
    ensures FreshCells([]) == 0
  {
  }

  /** Queue the recomputed head of a chunk; if it has a cached tail, flush the queue and attach that. */
  method PlaceChunk(m: Memory, prefix: Word, chunk: Word, recomputed: nat, blob: Blob, prefixed: bool, position: nat,
                    pending0: Word, pendingPosition0: int, ghost s0: Strip)
    returns (pending: Word, pendingPosition: int, ghost s: Strip)
    requires m.At(PREFIX) == Laid(Kept(prefix), 0) && m.At(TARGET) == Laid(s0, 0)
    requires BlobOk(blob, prefixed, prefix, chunk) && recomputed <= |chunk|
    requires position == |s0| + |pending0| && (pending0 != [] ==> pendingPosition0 == |s0|)
    modifies m
    ensures m.At(PREFIX) == Laid(Kept(prefix), 0) && m.At(TARGET) == Laid(s, 0) && m.At(SCRATCH) == old(m.At(SCRATCH))
    ensures s + Fresh(pending) == s0 + Fresh(pending0) + (Fresh(chunk[..recomputed]) + Kept(chunk[recomputed..]))
    ensures position + |chunk| == |s| + |pending| && (pending != [] ==> pendingPosition == |s|)
  {
    hide Laid, Fresh, Kept, BlobOk;
    pending, pendingPosition, s := pending0, pendingPosition0, s0;
    NoCells();
    if recomputed > 0 {
      if pending == [] { pendingPosition := position; }
      FreshAppend(pending, chunk[..recomputed]);
      pending := pending + chunk[..recomputed];
    } else {
      assert chunk[..recomputed] == [] && Fresh(pending0) + [] == Fresh(pending0);
    }
    assert Fresh(pending) == Fresh(pending0) + Fresh(chunk[..recomputed]);
    if recomputed < |chunk| {
      m.Decode(pending, TARGET, pendingPosition, s);
      assert m.At(PREFIX) == Laid(Kept(prefix), 0);
      s := s + Fresh(pending);
      pending := [];
      AttachTail(m, blob, prefixed, |prefix|, recomputed, position, prefix, chunk, s);
      assert m.At(PREFIX) == Laid(Kept(prefix), 0) && m.At(SCRATCH) == old(m.At(SCRATCH));
      s := s + Kept(chunk[recomputed..]);
    } else {
      assert chunk[recomputed..] == [];
    }
  }

  lemma CountChunk(spec: VariantSpec, selected: seq<bool>, chunks: seq<Word>, i: nat)
    requires i < |chunks| == |selected|
    ensures FreshCells(Chunks(spec, selected, chunks, i + 1)) ==
            FreshCells(Chunks(spec, selected, chunks, i)) + Recomputed(spec, selected, chunks, i)
  {
    var r := Recomputed(spec, selected, chunks, i);
    var head, tail := Fresh(chunks[i][..r]), Kept(chunks[i][r..]);
    FreshConcat(Chunks(spec, selected, chunks, i), head + tail);
    FreshConcat(head, tail);
    AllFresh(chunks[i][..r]);
    AllFresh(chunks[i][r..]);
  }

  lemma CountAll(spec: VariantSpec, selected: seq<bool>, prefix: Word, chunks: seq<Word>, suffix: Word)
    requires |chunks| == |selected|
    ensures var s := Kept(prefix) + Chunks(spec, selected, chunks, |chunks|) + Fresh(suffix);
            && FreshCells(s) == |suffix| + FreshCells(Chunks(spec, selected, chunks, |chunks|))
            && TokensOf(s) == prefix + Flat(chunks, |chunks|) + suffix
  {
    var mid := Chunks(spec, selected, chunks, |chunks|);
    FreshConcat(Kept(prefix) + mid, Fresh(suffix));
    FreshConcat(Kept(prefix), mid);
    AllFresh(prefix);
    AllFresh(suffix);
    ChunksSay(spec, selected, chunks, |chunks|);
    TokensConcat(Kept(prefix) + mid, Fresh(suffix));
    TokensConcat(Kept(prefix), mid);
  }
}
