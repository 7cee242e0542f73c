/** KVMapper of src/kv_mapper.cpp: allocates physical sequence ids, chooses what to copy for a new
    prompt, and retains, trims, frees and evicts cached sequences. */
module Kv {
  import opened Collections
  import opened Tokens
  import opened RadixShape
  import opened Radix
  import opened KvState

  /** All tracked cells together. */
  ghost function Total(cells: map<SeqId, nat>): nat
    decreases |cells|
  {
    if cells == map[] then 0
    else
      var s := SomeOf(cells.Keys);
      cells[s] + Total(cells - {s})
  }

  lemma {:induction false} TotalWithout(cells: map<SeqId, nat>, s: SeqId)
    requires s in cells
    ensures Total(cells) == cells[s] + Total(cells - {s})
    decreases |cells|
  {
    var t := SomeOf(cells.Keys);
    if t != s {
      TotalWithout(cells - {t}, s);
      TotalWithout(cells - {s}, t);
      assert cells - {t} - {s} == cells - {s} - {t};
    }
  }

  /** llama_memory_seq_cp(src, dst, 0, p1) into an empty `dst`: the view it gets. */
  function SeqCp(kv: Views, src: SeqId, p1: nat): (view: Word)
    requires src in kv && p1 <= |kv[src]|
  {
    kv[src][..p1]
  }

  /** llama_memory_seq_rm(s, p0, -1): the view that is left. */
  function SeqRm(kv: Views, s: SeqId, p0: nat): (view: Word)
    requires s in kv
  {
    if p0 <= |kv[s]| then kv[s][..p0] else kv[s]
  }

  /** The mapper as its user sees it: live requests, their prompts, the views, the ready ids. */
  datatype Cache = Cache(leaf: Homes, prompt: Views, kv: Views, ready: set<SeqId>)

  /** What a prompt matched, and the copy source it found, on node `at`. */
  datatype Hit = Hit(m: PrefixMatch, source: Covering, at: Ptr)

  /** How room was made: the node evicted last, and what the tree spelled once the cells fitted. */
  datatype Clearing = Clearing(last: Ptr, left: Paths)

  datatype PrepareResult =
    | Prepared(seqId: SeqId, cachedPos: nat, delta: Word, leafNode: Ptr)
    | CapacityExhausted

  /** `a` is the longest match of `w` and the best ready and pending coverage of it. */
  ghost predicate Sees(links: Links, path: Paths, own: Owners, w: Word, a: PrefixAvailability) {
    && links.Keys == path.Keys == own.Keys && LongestSpelled(path, w, a.matchedTokens)
    && Assessed(path, own, w, TouchedNodes(links, path, w), a.readyTokens, a.pendingTokens)
  }

  /** If `w` touches `p`, then no more than `most` tokens of it are covered there. */
  ghost predicate CoversAtMost(links: Links, path: Paths, own: Owners, w: Word, p: Ptr, most: nat) {
    links.Keys == path.Keys == own.Keys && (Touched(links, path, w, p) ==> Coverage(path, own, w, p) <= most)
  }

  /** Of `k` cached tokens of a prompt of `n` all are taken, but never a whole non-empty prompt. */
  function Short(k: nat, n: nat): nat { if k == n && k > 0 then k - 1 else k }

  /** How many tokens are copied: what both match and source cover, but never a whole non-empty prompt. */
  function CachedPos(enabled: bool, matched: nat, c: Covering, n: nat): nat {
    if !enabled || matched == 0 || c.NoSource? then 0 else Short(Min(matched, c.len), n)
  }

  /** Of a prompt of `n` tokens `pos` are copied: all that both match and source have, which is the match where the
      source goes as far and all of the source where it does not, but of a prompt that is there whole all but the
      last. */
  predicate AllCovered(enabled: bool, matched: nat, c: Covering, n: nat, pos: nat) {
    && (!enabled || matched == 0 || c.NoSource? ==> pos == 0)
    && (enabled && matched > 0 && c.Source? ==>
          && (c.len < matched ==> pos == c.len)
          && (matched <= c.len && matched < n ==> pos == matched)
          && (matched <= c.len && matched == n ==> pos == n - 1))
  }

  /** `pos` tokens of a prompt of `n` are what inspection promised: the ready ones; or when none are, either none or,
      from a ready sequence that goes on beyond the match, all that match. */
  predicate AsSeen(enabled: bool, a: PrefixAvailability, n: nat, pos: nat) {
    if !enabled then pos == 0
    else if a.readyTokens > 0 then if a.readyTokens < n then pos == a.readyTokens else pos + 1 == n
    else pos == 0 || (if a.matchedTokens < n then pos == a.matchedTokens else pos + 1 == n)
  }

  /** Whatever inspecting the tree for `w` reports, `pos` is what it promises. */
  ghost predicate Foretold(links: Links, path: Paths, own: Owners, w: Word, enabled: bool, pos: nat) {
    forall a | Sees(links, path, own, w, a) :: AsSeen(enabled, a, |w|, pos)
  }

  /** The second tree is the first with a reference taken on the node made to spell `w`. */
  ghost predicate Booked(links: Links, path: Paths, own: Owners, w: Word, m: PrefixMatch,
                         links': Links, path': Paths, own': Owners) {
    && Shape(links, path) && Canonical(path, own) && ROOT in own && own[ROOT].readyIds == {} && own'.Keys == path'.Keys
    && Grown(links, path, w, links', path', m.cacheNode, m.node, m.matchedTokens)
    && exists now: nat :: Acquired(own, own', m.node, now)
  }

  /** `c`, on node `a`, is what the tree reports as the copy source for `cache`. */
  ghost predicate Reported(path: Paths, own: Owners, cache: Ptr, c: Covering, a: Ptr)
    requires path.Keys == own.Keys && cache in path
  {
    (c.NoSource? ==> HasNoSource(path, own, cache)) && (c.Source? ==> IsSource(path, own, cache, c, a))
  }

  /** Compared with what `path0` spells, only `node` can be new, and then it is a leaf that one reference holds. */
  ghost predicate OnlyNewLeaf(path0: Paths, links: Links, path: Paths, own: Owners, cache: Ptr, node: Ptr) {
    && node in links && node in own
    && (forall p | p in path && (p != node || node == cache) :: Spells(path0, path[p]))
    && (node != cache ==>
          node != ROOT && links[node].children == map[] && own[node].seqIds == {} && own[node].refCount == 1)
  }

  class KVMapper {
    const tree: RadixTree
    const maxSequences: int
    const prefixCacheEnabled: bool
    const highWatermark: nat

    var freeSeqIds: seq<SeqId>
    var cellCounts: map<SeqId, nat>
    var retained: set<SeqId>

    var kv: Views              // llama.cpp's cache: what each sequence holds, by position

    ghost var home: Homes
    ghost var leaf: Homes
    ghost var prompt: Views

    /** The invariant with the pool `free`, excusing the request with id `x` from being settled. */
    ghost predicate ValidWith(free: seq<SeqId>, x: SeqId)
      reads this, tree
    {
      && tree.Valid()
      && TreeOk(tree.path, tree.own, home, leaf, prompt, kv)
      && Linked(home, leaf, x)
      && PoolOk(free, home, kv, maxSequences)
      && KeptOk(tree.own, home, leaf, kv, cellCounts, retained, x)
    }

    ghost predicate Valid(x: SeqId)
      reads this, tree
    {
      ValidWith(freeSeqIds, x)
    }

    /** Between operations every request is settled. */
    ghost predicate Quiet()
      reads this, tree
    {
      Valid(0) && 0 !in leaf
    }

    /** Ids are conserved: free and tracked ids are 1 .. maxSequences - 1, none is both or free twice, and the
        tracked ones are those on the nodes, each on one node. */
    lemma IdsConserved()
      requires Quiet()
      ensures NoDuplicates(freeSeqIds)
      ensures forall s :: 1 <= s < maxSequences <==> s in freeSeqIds || s in cellCounts
      ensures forall s :: !(s in freeSeqIds && s in cellCounts)
      ensures forall s :: s in cellCounts <==> exists p :: p in tree.own && s in tree.own[p].seqIds
      ensures forall p, q, s | p in tree.own && q in tree.own && s in tree.own[p].seqIds && s in tree.own[q].seqIds ::
                p == q
    {
      forall s ensures s in cellCounts <==> exists p :: p in tree.own && s in tree.own[p].seqIds {
        if s in cellCounts {
          var p := home[s];
          assert p in tree.own && s in tree.own[p].seqIds;
        }
      }
    }

    /** A retained sequence belongs to no request, is ready, alone of its kind on its node, and its tracked count
        is the number of positions it holds. */
    lemma RetainedIsExact(s: SeqId)
      requires Quiet() && s in retained
      ensures s !in leaf && s in AllReady(tree.own) && s in kv && s in cellCounts && cellCounts[s] == |kv[s]|
      ensures forall t | t in retained && t in home && s in home && home[t] == home[s] :: t == s
    {
      assert s != 0;
      var p := home[s];
      assert s in tree.own[p].readyIds;
    }

    /** Pending coverage beyond the ready one is that of a live request whose id is not ready. */
    lemma PendingOwner(w: Word, found: PrefixAvailability) returns (s: SeqId)
      requires Quiet() && Sees(tree.links, tree.path, tree.own, w, found) && found.pendingTokens > found.readyTokens
      ensures s in leaf && s !in AllReady(tree.own)
    {
      hide TreeOk, PoolOk, KeptOk, Linked, AllReady, Assessed, LongestSpelled, Shape;
      s := PendingIsLive(tree.path, tree.own, home, leaf, prompt, kv, cellCounts, retained, w,
                         TouchedNodes(tree.links, tree.path, w), found.readyTokens, found.pendingTokens);
    }

    /** Whatever of `w` a live request's node covers before its id is ready is reported as pending. */
    lemma PendingSeen(w: Word, found: PrefixAvailability, s: SeqId)
      requires Quiet() && Sees(tree.links, tree.path, tree.own, w, found) && s in leaf && s !in AllReady(tree.own)
      ensures CoversAtMost(tree.links, tree.path, tree.own, w, leaf[s], found.pendingTokens)
    {
      hide PoolOk, KeptOk, Assessed, LongestSpelled, Shape, Canonical, RefsOk, Faithful, PromptsOk;
      AssessedIds(tree.links, tree.path, tree.own, w, found.readyTokens, found.pendingTokens);
      assert home[s] == leaf[s];
    }

    /** With one usable id and no request live: the one sequence is kept on the node at which, or inside whose edge,
        `w` ends, and nothing presses for its eviction. */
    ghost predicate Starves(w: Word)
      reads this, tree
    {
      && maxSequences == 2 && leaf == map[] && Total(cellCounts) <= highWatermark
      && 1 in home && EndsInEdge(tree.links, tree.path, home[1], w)
    }

    /** An id is free and nothing presses for eviction. */
    ghost predicate Roomy()
      reads this
    {
      freeSeqIds != [] && Total(cellCounts) <= highWatermark
    }

    lemma StarvesAlone(w: Word)
      requires Starves(w)
      ensures maxSequences == 2 && leaf == map[] && w != []
    {
    }

    ghost function Snapshot(): Cache
      reads this, tree
    {
      Cache(leaf, prompt, kv, AllReady(tree.own))
    }

    /** What every reachable state guarantees: a ready sequence holds, from position 0 on, the tokens on the
        path to its node, and sits on that node alone. */
    lemma AlwaysFaithful(p: Ptr, s: SeqId)
      requires Quiet() && p in tree.own && s in tree.own[p].readyIds
      ensures p in tree.path && s in kv && tree.path[p] <= kv[s]
      ensures s in home && home[s] == p && s in cellCounts && s !in freeSeqIds
    {
    }

    constructor (maxSequences: int, prefixCacheEnabled: bool, highWatermark: nat)
      ensures Quiet() && fresh(tree)
      ensures leaf == map[] && home == map[]
      ensures this.maxSequences == maxSequences && this.prefixCacheEnabled == prefixCacheEnabled
      ensures this.highWatermark == highWatermark
      ensures |freeSeqIds| == (if maxSequences < 1 then 0 else maxSequences - 1)
      ensures forall i | 0 <= i < |freeSeqIds| :: freeSeqIds[i] == i + 1
      ensures cellCounts == map[] && retained == {}
    {
      var t := new RadixTree();
      tree := t;
      this.maxSequences := maxSequences;
      this.prefixCacheEnabled := prefixCacheEnabled;
      this.highWatermark := highWatermark;
      var n := if maxSequences < 1 then 0 else maxSequences - 1;
      var pool: seq<SeqId> := seq(n, i => i + 1);
      freeSeqIds := pool;
      cellCounts, retained := map[], {};
      kv := map s | s in pool :: [];
      home, leaf, prompt := map[], map[], map[];
      new;
      StartPool(freeSeqIds, kv, maxSequences);
      StartTree(tree.path, tree.own, kv);
      hide PoolOk, TreeOk;
    }

    method KvCellsUsed() returns (total: nat)
      ensures total == Total(cellCounts)
    {
      total := 0;
      var rest := cellCounts.Keys;
      assert cellCounts - (cellCounts.Keys - rest) == cellCounts;
      while rest != {}
        invariant rest <= cellCounts.Keys
        invariant total + Total(cellCounts - (cellCounts.Keys - rest)) == Total(cellCounts)
        decreases rest
      {
        var s := Pick(rest);
        TotalWithout(cellCounts - (cellCounts.Keys - rest), s);
        assert cellCounts - (cellCounts.Keys - rest) - {s} == cellCounts - (cellCounts.Keys - (rest - {s}));
        total := total + cellCounts[s];
        rest := rest - {s};
      }
      assert cellCounts - (cellCounts.Keys - rest) == map[];
    }

    /** Free the ids of the least recently used idle node; false when there is no idle node. */
    method EvictOne(ghost x: SeqId) returns (evicted: bool, ghost victim: Ptr, ghost ids: set<SeqId>)
      requires Valid(x) && x !in home
      modifies this`freeSeqIds, this`cellCounts, this`retained, this`kv, this`home, tree
      ensures Valid(x)
      ensures !evicted ==> (forall p :: !IdleOwner(tree.own, p))
      ensures !evicted ==>
                && home == old(home) && kv == old(kv) && freeSeqIds == old(freeSeqIds) && cellCounts == old(cellCounts)
                && ids == {}
                && tree.path == old(tree.path) && tree.own == old(tree.own) && tree.links == old(tree.links)
      ensures evicted ==> IdleOwner(old(tree.own), victim) && ids == old(tree.own)[victim].seqIds && ids != {}
      ensures evicted ==> forall p | IdleOwner(old(tree.own), p) :: NoLater(old(tree.own), victim, p)
      ensures ids <= old(home).Keys && ids !! leaf.Keys
      ensures Gone(ids, old(home), old(kv), old(cellCounts), AllReady(old(tree.own)), home, kv, cellCounts,
                   AllReady(tree.own))
      ensures evicted ==> freeSeqIds != [] && forall s | s in ids :: old(home)[s] == victim
      ensures old(freeSeqIds) <= freeSeqIds
      ensures forall p | IdleOwner(tree.own, p) :: IdleOwner(old(tree.own), p) && tree.own[p] == old(tree.own)[p]
      ensures Survivors(old(tree.own), ids, tree.own) && tree.tick == old(tree.tick)
      ensures tree.links.Keys == tree.path.Keys
      ensures forall p | p in tree.links :: p in old(tree.links) && tree.path[p] == old(tree.path)[p] &&
                                            tree.links[p].parent == old(tree.links)[p].parent
    {
      hide HomesOk, RefsOk, Canonical, Faithful, PromptsOk, PoolOk, KeptOk, Shape, Linked, Cleared, AllReady, Gone,
           PrunedTree, Survivors, PayloadsOk;
      ids, victim := {}, ROOT;
      var candidates := tree.FindEvictionCandidates(1);
      if candidates == [] {
        AllSurvive(tree.own);
        NothingGone(home, kv, cellCounts, AllReady(tree.own));
        return false, victim, ids;
      }
      var node := candidates[0];
      ghost var links0, path0, own0, kv0 := tree.links, tree.path, tree.own, kv;
      VictimIsNobodys(own0, home, leaf, x, node);
      ClearKeeps(path0, own0, home, leaf, prompt, kv, node);
      LinkedAfter(home, leaf, x, own0[node].seqIds);
      var found, stop := tree.Evict(node);
      victim, ids := node, found;
      PruneKeeps(links0, path0, own0[node := own0[node].(seqIds := {}, readyIds := {}, canonicalLen := 0)], node,
                 tree.links, tree.path, tree.own, stop, home - found, leaf, prompt, Cleared(kv, found));
      EvictKept(own0, home, leaf, kv, cellCounts, retained, x, node, links0, path0, tree.links, tree.path, tree.own,
                stop);
      PrunedFacts(links0, path0, own0, node, own0[node].(seqIds := {}, readyIds := {}, canonicalLen := 0),
                  tree.links, tree.path, tree.own, stop);
      AllGone(found, home, kv, cellCounts, AllReady(own0));
      EvictReady(own0, home, node, links0, path0, tree.links, tree.path, tree.own, stop);
      EvictSurvivors(own0, home, node, links0, path0, tree.links, tree.path, tree.own, stop, tree.tick);
      FreeAll(found);
      return true, victim, ids;
    }

    /** Evict idle owners, least recently used first, until the tracked cells fit or none is left, and no more than it
        takes: without the last eviction, that of `last`, they would not fit. */
    method EvictKvPressure() returns (ghost gone: set<SeqId>, ghost last: Ptr)
      requires Quiet()
      modifies this`freeSeqIds, this`cellCounts, this`retained, this`kv, this`home, tree
      ensures Quiet()
      ensures Total(cellCounts) <= highWatermark || forall p :: !IdleOwner(tree.own, p)
      ensures Total(old(cellCounts)) <= highWatermark ==>
                && gone == {} && freeSeqIds == old(freeSeqIds)
                && tree.path == old(tree.path) && tree.own == old(tree.own) && tree.links == old(tree.links)
      ensures gone !! leaf.Keys
      ensures Gone(gone, old(home), old(kv), old(cellCounts), AllReady(old(tree.own)), home, kv, cellCounts,
                   AllReady(tree.own))
      ensures OldestWent(old(tree.own), old(home), gone, tree.own)
      ensures Needed(old(tree.own), old(home), old(cellCounts), gone, last, highWatermark)
      ensures Survivors(old(tree.own), gone, tree.own) && tree.tick == old(tree.tick)
      ensures old(freeSeqIds) <= freeSeqIds && (gone != {} ==> freeSeqIds != [])
      ensures forall p | p in tree.path :: p in old(tree.path) && tree.path[p] == old(tree.path)[p]
    {
      hide AllReady, Gone, TreeOk, PoolOk, KeptOk, Linked, Cleared, Total, IdleOwner, OldestWent, NoLater, Survivors,
           Needed;
      NothingWent(tree.own, home);
      AllSurvive(tree.own);
      gone, last := {}, ROOT;
      NoneNeeded(tree.own, home, cellCounts, last, highWatermark);
      NothingGone(home, kv, cellCounts, AllReady(tree.own));
      var used := KvCellsUsed();
      while used > highWatermark
        invariant Quiet() && used == Total(cellCounts)
        invariant Total(old(cellCounts)) <= highWatermark ==>
                    gone == {} && used <= highWatermark && freeSeqIds == old(freeSeqIds) &&
                    tree.path == old(tree.path) && tree.own == old(tree.own) && tree.links == old(tree.links)
        invariant gone !! leaf.Keys
        invariant Gone(gone, old(home), old(kv), old(cellCounts), AllReady(old(tree.own)), home, kv, cellCounts,
                       AllReady(tree.own))
        invariant forall p | p in tree.path :: p in old(tree.path) && tree.path[p] == old(tree.path)[p]
        invariant OldestWent(old(tree.own), old(home), gone, tree.own)
        invariant Needed(old(tree.own), old(home), old(cellCounts), gone, last, highWatermark)
        invariant Survivors(old(tree.own), gone, tree.own) && tree.tick == old(tree.tick)
        invariant old(freeSeqIds) <= freeSeqIds && (gone != {} ==> freeSeqIds != [])
        decreases |home|
      {
        ZeroIsNoHome();
        ghost var home0, kv0, cells0, own0 := home, kv, cellCounts, tree.own;
        GoneAll(gone, old(home), old(kv), old(cellCounts), AllReady(old(tree.own)), home, kv, cellCounts,
                AllReady(tree.own));
        var more, victim, ids := EvictOne(0);
        if !more { return; }
        NeededMore(old(tree.own), old(home), old(cellCounts), gone, own0, victim, ids, highWatermark);
        SurviveBoth(old(tree.own), gone, own0, ids, tree.own);
        assert home == home0 - ids by {
          GoneHome(ids, home0, kv0, cells0, AllReady(own0), home, kv, cellCounts, AllReady(tree.own));
        }
        FewerKeys(home0, ids);
        GoneTwice(gone, ids, old(home), old(kv), old(cellCounts), AllReady(old(tree.own)),
                  home0, kv0, cells0, AllReady(own0), home, kv, cellCounts, AllReady(tree.own));
        OldestWentMore(old(tree.own), old(home), gone, own0, victim, ids, tree.own);
        gone, last := gone + ids, victim;
        used := KvCellsUsed();
      }
    }

    /** The front of the free queue; when the queue is empty after one eviction, that of the least recently used idle
        node. */
    method AllocateSeqId() returns (ok: bool, id: SeqId, ghost gone: set<SeqId>, ghost victim: Ptr)
      requires Valid(0)
      modifies this`freeSeqIds, this`cellCounts, this`retained, this`kv, this`home, tree
      ensures !ok ==> Valid(0) && freeSeqIds == [] && (forall p :: !IdleOwner(tree.own, p))
      ensures !ok ==>
                && old(freeSeqIds) == [] && gone == {} && tree.path == old(tree.path) && tree.own == old(tree.own)
                && tree.links == old(tree.links)
      ensures ok ==> ValidWith([id] + freeSeqIds, 0)
      ensures ok && old(freeSeqIds) != [] ==> id == old(freeSeqIds)[0] && gone == {}
      ensures old(freeSeqIds) != [] ==>
                tree.path == old(tree.path) && tree.own == old(tree.own) && tree.links == old(tree.links)
      ensures ok && old(freeSeqIds) == [] ==>
                id in gone && gone <= old(home).Keys && old(home)[id] == victim && IsOldest(old(tree.own), gone, victim)
      ensures Survivors(old(tree.own), gone, tree.own) && tree.tick == old(tree.tick)
      ensures ok && old(freeSeqIds) != [] ==> freeSeqIds == old(freeSeqIds)[1..]
      ensures gone !! leaf.Keys
      ensures Gone(gone, old(home), old(kv), old(cellCounts), AllReady(old(tree.own)), home, kv, cellCounts,
                   AllReady(tree.own))
      ensures forall p | p in tree.links :: p in old(tree.links) && tree.path[p] == old(tree.path)[p] &&
                                            tree.links[p].parent == old(tree.links)[p].parent
    {
      hide AllReady, TreeOk, PoolOk, KeptOk, Linked, Cleared, IdleOwner, NoLater, Survivors;
      gone, victim := {}, ROOT;
      NothingGone(home, kv, cellCounts, AllReady(tree.own));
      AllSurvive(tree.own);
      ZeroIsNoHome();
      ok, id := false, 0;
      ghost var free0, home0 := freeSeqIds, home;
      if freeSeqIds == [] {
        var more, node, ids := EvictOne(0);
        gone, victim := ids, node;
      }
      if freeSeqIds == [] { return; }
      ok, id := true, freeSeqIds[0];
      assert freeSeqIds == [id] + freeSeqIds[1..];
      if free0 == [] { OnlyFreed(freeSeqIds, home0, home, gone, old(kv), kv, maxSequences); }
      freeSeqIds := freeSeqIds[1..];
    }

    /** Insert the prompt; its reference is booked under 0 until it has an id. */
    method Book(tokens: Word) returns (m: PrefixMatch)
      requires Quiet()
      modifies this`leaf, this`prompt, tree
      ensures Valid(0) && leaf == old(leaf)[0 := m.node] && prompt == old(prompt)[0 := tokens]
      ensures m.node in tree.links && m.cacheNode in tree.links && m.matchedTokens <= |tokens|
      ensures tree.path[m.node] == tokens && tree.path[m.cacheNode] == tokens[..m.matchedTokens]
      ensures m.node == m.cacheNode || (m.node != ROOT && tree.links[m.node].parent == m.cacheNode)
      ensures AllReady(tree.own) == AllReady(old(tree.own))
      ensures tree.own[m.node].refCount > 0
      ensures forall p | p in old(tree.path) && p != ROOT ::
                m.node == p <==> EndsInEdge(old(tree.links), old(tree.path), p, tokens)
      ensures OnlyNewLeaf(old(tree.path), tree.links, tree.path, tree.own, m.cacheNode, m.node)
      ensures LongestSpelled(old(tree.path), tokens, m.matchedTokens)
      ensures Booked(old(tree.links), old(tree.path), old(tree.own), tokens, m, tree.links, tree.path, tree.own)
      ensures tree.tick == old(tree.tick) + 1
      ensures Latest(tree.own, m.node, old(tree.tick), tree.tick)
      ensures OthersIdle(old(tree.own), tree.own, m.node)
    {
      hide HomesOk, RefsOk, Canonical, Faithful, PromptsOk, PoolOk, KeptOk, Shape, AllReady, Acquired, Grown, Spells,
           Narrowed, LongestSpelled, EndsInEdge, OnlyNewLeaf, Booked, Latest, OthersIdle, Stamps, PayloadsOk;
      ZeroIsNoHome();
      ghost var links0, path0, own0 := tree.links, tree.path, tree.own;
      m := tree.Insert(tokens);
      AcquiredNarrows(links0, path0, own0, tokens, tree.links, tree.path, tree.own, m.cacheNode, m.node,
                      m.matchedTokens, tree.tick);
      InsertKeeps(links0, path0, own0, home, leaf, prompt, kv, tokens, tree.links, tree.path, tree.own,
                  m.cacheNode, m.node, m.matchedTokens, tree.tick, 0);
      NarrowKept(path0, own0, tree.path, tree.own, home, leaf, kv, cellCounts, retained, m.node);
      NarrowReady(path0, own0, tree.path, tree.own);
      GrownFacts(links0, path0, own0, tokens, tree.links, tree.path, tree.own, m, tree.tick);
      BookedUse(own0, tree.own, m.node, old(tree.tick), tree.tick);
      IsBooked(links0, path0, own0, home, leaf, prompt, kv, tokens, m, tree.links, tree.path, tree.own, tree.tick);
      leaf := leaf[0 := m.node];
      prompt := prompt[0 := tokens];
      assert Linked(home, leaf, 0);
    }

    /** Undo the booking: the reference goes back and useless nodes are pruned. */
    method Unbook(node: Ptr) returns (ghost stop: Ptr)
      requires Valid(0) && 0 in leaf && leaf[0] == node
      modifies this`leaf, this`prompt, tree
      ensures Quiet() && leaf == old(leaf) - {0} && prompt == old(prompt) - {0}
      ensures AllReady(tree.own) == AllReady(old(tree.own))
      ensures node in old(tree.own) && old(tree.own)[node].refCount > 0 &&
              PrunedTree(old(tree.links), old(tree.path),
                         old(tree.own)[node := old(tree.own)[node].(refCount := old(tree.own)[node].refCount - 1)],
                         node, tree.links, tree.path, tree.own, stop)
    {
      hide HomesOk, RefsOk, Canonical, Faithful, PromptsOk, Linked, PoolOk, KeptOk, Shape, AllReady, PrunedTree;
      ZeroIsNoHome();
      ghost var links0, path0, own0 := tree.links, tree.path, tree.own;
      DropRefKeeps(path0, own0, home, leaf, prompt, kv, 0);
      stop := tree.Release(node);
      ghost var own1 := own0[node := own0[node].(refCount := own0[node].refCount - 1)];
      ReleaseKeeps(links0, path0, own0, own1, node, tree.links, tree.path, tree.own, stop, home, leaf, leaf - {0},
                   prompt, kv, cellCounts, retained, 0);
      BookingGone(tree.path, home, leaf, prompt);
      leaf := leaf - {0};
      prompt := prompt - {0};
    }

    /** The booked request gets the id `id`, whose view is what has been copied for it. */
    method Settle(id: SeqId, node: Ptr, tokens: Word, cachedPos: nat, view: Word)
      requires ValidWith([id] + freeSeqIds, 0) && 0 in leaf && leaf[0] == node && prompt[0] == tokens
      requires node in tree.path && tree.path[node] == tokens && |view| == cachedPos
      modifies this`leaf, this`prompt, this`home, this`kv, this`cellCounts, this`retained, tree`own
      ensures Quiet() && id in old(kv) && old(kv)[id] == [] && id !in old(leaf) && id !in old(home)
      ensures 1 <= id < maxSequences
      ensures leaf == (old(leaf) - {0})[id := node] && prompt == old(prompt)[id := tokens] - {0}
      ensures home == old(home)[id := node] && kv == old(kv)[id := view]
      ensures cellCounts == old(cellCounts)[id := cachedPos]
      ensures AllReady(tree.own) == AllReady(old(tree.own)) && id !in AllReady(tree.own)
      ensures node in old(tree.own) && tree.own == Registered(old(tree.own), node, id, |tokens|)
    {
      hide TreeOk, Linked, PoolOk, KeptOk, Shape, AllReady, Registered, PayloadsOk;
      ghost var path0, own0 := tree.path, tree.own;
      SettleAll(path0, own0, home, leaf, prompt, kv, cellCounts, retained, freeSeqIds, maxSequences, node, id, tokens,
                view);
      tree.RegisterSeqId(node, id, |tokens|);
      home, leaf, prompt := home[id := node], (leaf - {0})[id := node], prompt[id := tokens] - {0};
      kv, cellCounts, retained := kv[id := view], cellCounts[id := cachedPos], retained - {id};
    }

    /** Choose a ready source for the matched prefix and copy its leading cells, all but the last token
        of the prompt at most; `view` is what `seq_cp` makes the new sequence hold. */
    method CopyFromSource(promptTokens: Word, m: PrefixMatch)
      returns (cachedPos: nat, view: Word, ghost c: Covering, ghost a: Ptr)
      requires tree.Valid() && TreeOk(tree.path, tree.own, home, leaf, prompt, kv)
      requires m.cacheNode in tree.links && m.matchedTokens <= |promptTokens|
      requires tree.path[m.cacheNode] == promptTokens[..m.matchedTokens]
      ensures cachedPos <= m.matchedTokens && (promptTokens != [] ==> cachedPos < |promptTokens|)
      ensures view == promptTokens[..cachedPos]
      ensures cachedPos == CachedPos(prefixCacheEnabled, m.matchedTokens, c, |promptTokens|)
      ensures AllCovered(prefixCacheEnabled, m.matchedTokens, c, |promptTokens|, cachedPos)
      ensures prefixCacheEnabled && m.matchedTokens > 0 ==> Reported(tree.path, tree.own, m.cacheNode, c, a)
      ensures cachedPos > 0 ==> c.Source? && c.seqId in AllReady(tree.own) && c.seqId in kv && view <= kv[c.seqId]
    {
      hide Shape, HasNoSource;
      cachedPos, view, c, a := 0, [], NoSource, ROOT;
      if prefixCacheEnabled && m.matchedTokens > 0 {
        ghost var bound := Longest(tree.path);
        var source: Covering;
        source, a := tree.FindCoveringSeqId(m.cacheNode, bound);
        c := source;
        if source.Source? {
          cachedPos := Min(m.matchedTokens, source.len);
          if cachedPos == |promptTokens| {
            cachedPos := cachedPos - 1;
          }
          if cachedPos > 0 {
            CopiesOwnTokens(tree.path, tree.own, kv, m.cacheNode, c, a, promptTokens, m.matchedTokens, cachedPos);
            view := SeqCp(kv, source.seqId, cachedPos);
            assert source.seqId in AllReady(tree.own) && view <= kv[source.seqId];
          }
        }
      }
    }

    /** Make room, insert the prompt and take an id for it; nothing but idle sequences is evicted. */
    method Reserve(promptTokens: Word)
      returns (ok: bool, id: SeqId, m: PrefixMatch, ghost gone: set<SeqId>, ghost clear: Clearing)
      requires Quiet()
      modifies this, tree
      ensures Called(old(tree.own), old(home), old(cellCounts), old(freeSeqIds), gone, clear.last, highWatermark,
                     m.node)
      ensures LeftOver(old(tree.path), old(tree.own), gone, clear.left)
      ensures LongestSpelled(clear.left, promptTokens, m.matchedTokens)
      ensures Total(old(cellCounts)) <= highWatermark ==> clear.left == old(tree.path)
      ensures tree.tick == old(tree.tick) + 1 && Latest(tree.own, m.node, old(tree.tick), tree.tick)
      ensures old(freeSeqIds) != [] ==> ok && id == old(freeSeqIds)[0] && old(freeSeqIds)[1..] <= freeSeqIds
      ensures !ok ==> Valid(0) && freeSeqIds == [] && (forall p :: !IdleOwner(tree.own, p))
      ensures ok ==> ValidWith([id] + freeSeqIds, 0)
      ensures leaf == old(leaf)[0 := m.node] && prompt == old(prompt)[0 := promptTokens] && gone !! old(leaf).Keys
      ensures Gone(gone, old(home), old(kv), old(cellCounts), AllReady(old(tree.own)), home, kv, cellCounts,
                   AllReady(tree.own))
      ensures m.node in tree.links && m.cacheNode in tree.links && m.matchedTokens <= |promptTokens|
      ensures m.node in tree.path && m.cacheNode in tree.path
      ensures tree.path[m.node] == promptTokens && tree.path[m.cacheNode] == promptTokens[..m.matchedTokens]
      ensures Total(old(cellCounts)) <= highWatermark ==> LongestSpelled(old(tree.path), promptTokens, m.matchedTokens)
      ensures Total(old(cellCounts)) <= highWatermark && old(freeSeqIds) != [] ==> ok
      ensures Total(old(cellCounts)) <= highWatermark && !ok ==> gone == {}
      ensures Total(old(cellCounts)) <= highWatermark && old(freeSeqIds) != [] ==>
                Booked(old(tree.links), old(tree.path), old(tree.own), promptTokens, m, tree.links, tree.path, tree.own)
      ensures !ok ==> OnlyNewLeaf(old(tree.path), tree.links, tree.path, tree.own, m.cacheNode, m.node)
      ensures maxSequences == 2 && old(leaf) == map[] ==>
                (!ok <==> old(Starves(promptTokens))) && (!ok ==> m.node == old(home)[1])
      ensures ok && Total(old(cellCounts)) <= highWatermark ==>
                && (old(freeSeqIds) != [] ==> id == old(freeSeqIds)[0] && gone == {})
                && (old(freeSeqIds) == [] ==> id in old(home) && old(home)[id] != m.node)
                && (forall p | p in old(tree.path) && p != ROOT ::
                      m.node == p <==> EndsInEdge(old(tree.links), old(tree.path), p, promptTokens))
    {
      hide AllReady, Gone, TreeOk, PoolOk, KeptOk, Linked, Cleared, Total, Shape, OldestWent, LongestSpelled,
           EndsInEdge, OnlyNewLeaf, Booked, Survivors, Needed, Latest, OldestBut, Called, LeftOver, PayloadsOk;
      if maxSequences == 2 && leaf == map[] {
        OneId(freeSeqIds, tree.path, tree.own, home, prompt, kv, cellCounts, retained);
      }
      ghost var last: Ptr;
      gone, last := EvictKvPressure();
      ghost var home1, kv1, cells1, own1 := home, kv, cellCounts, tree.own;
      GoneHome(gone, old(home), old(kv), old(cellCounts), AllReady(old(tree.own)), home1, kv1, cells1, AllReady(own1));
      ghost var path1, free1 := tree.path, freeSeqIds;
      ghost var pressed := gone;
      assert gone == {} ==> cells1 == old(cellCounts) by {
        GoneAll(gone, old(home), old(kv), old(cellCounts), AllReady(old(tree.own)), home, kv, cellCounts,
                AllReady(tree.own));
      }
      if maxSequences == 2 && leaf == map[] {
        OneId(freeSeqIds, tree.path, tree.own, home, prompt, kv, cellCounts, retained);
        GoneAll(gone, old(home), old(kv), old(cellCounts), AllReady(old(tree.own)), home, kv, cellCounts,
                AllReady(tree.own));
        if 1 in home { OneStays(old(cellCounts), gone, cellCounts); }
      }
      ghost var more: set<SeqId>;
      ghost var victim: Ptr;
      ok, id, m, more, victim := BookAndTake(promptTokens);
      GoneTwice(gone, more, old(home), old(kv), old(cellCounts), AllReady(old(tree.own)), home1, kv1, cells1,
                AllReady(own1), home, kv, cellCounts, AllReady(tree.own));
      if !ok {
        OnlyLeafWider(old(tree.path), path1, tree.links, tree.path, tree.own, m.cacheNode, m.node);
      }
      gone := gone + more;
      clear := Clearing(if more == {} then last else victim, path1);
      WasCalled(old(tree.own), old(home), old(cellCounts), old(freeSeqIds), pressed, last, highWatermark, own1, free1,
                m.node, more, victim);
      IsLeftOver(old(tree.path), old(tree.own), pressed, own1, path1, more);
    }

    /** Insert the prompt and take an id for it, evicting one idle node at most. */
    method BookAndTake(promptTokens: Word)
      returns (ok: bool, id: SeqId, m: PrefixMatch, ghost more: set<SeqId>, ghost victim: Ptr)
      requires Quiet()
      modifies this, tree
      ensures tree.tick == old(tree.tick) + 1 && Latest(tree.own, m.node, old(tree.tick), tree.tick)
      ensures OldestBut(old(tree.own), more, victim, m.node)
      ensures old(freeSeqIds) != [] ==>
                ok && id == old(freeSeqIds)[0] && freeSeqIds == old(freeSeqIds)[1..] && more == {}
      ensures !ok ==> Valid(0) && freeSeqIds == [] && more == {} && (forall p :: !IdleOwner(tree.own, p))
      ensures ok ==> ValidWith([id] + freeSeqIds, 0)
      ensures ok && old(freeSeqIds) == [] ==> id in more && id in old(home) && old(home)[id] != m.node
      ensures leaf == old(leaf)[0 := m.node] && prompt == old(prompt)[0 := promptTokens] && more !! old(leaf).Keys
      ensures Gone(more, old(home), old(kv), old(cellCounts), AllReady(old(tree.own)), home, kv, cellCounts,
                   AllReady(tree.own))
      ensures m.node in tree.links && m.cacheNode in tree.links && m.matchedTokens <= |promptTokens|
      ensures m.node in tree.path && m.cacheNode in tree.path
      ensures tree.path[m.node] == promptTokens && tree.path[m.cacheNode] == promptTokens[..m.matchedTokens]
      ensures LongestSpelled(old(tree.path), promptTokens, m.matchedTokens)
      ensures old(freeSeqIds) != [] ==>
                Booked(old(tree.links), old(tree.path), old(tree.own), promptTokens, m, tree.links, tree.path, tree.own)
      ensures !ok ==> OnlyNewLeaf(old(tree.path), tree.links, tree.path, tree.own, m.cacheNode, m.node)
      ensures maxSequences == 2 && old(leaf) == map[] && !ok && 1 in old(home) ==> m.node == old(home)[1]
      ensures forall p | p in old(tree.path) && p != ROOT ::
                m.node == p <==> EndsInEdge(old(tree.links), old(tree.path), p, promptTokens)
    {
      hide AllReady, Gone, TreeOk, PoolOk, KeptOk, Linked, Cleared, Shape, LongestSpelled, EndsInEdge, OnlyNewLeaf,
           Booked, Survivors, Latest, OthersIdle, PayloadsOk, IsOldest, OldestBut;
      m := Book(promptTokens);
      ghost var own2 := tree.own;
      ok, id, more, victim := AllocateSeqId();
      GoneHome(more, old(home), old(kv), old(cellCounts), AllReady(own2), home, kv, cellCounts, AllReady(tree.own));
      if !ok && maxSequences == 2 && old(leaf) == map[] {
        assert leaf == map[0 := m.node];
        OneIdHeld(tree.path, tree.own, home, prompt, kv, cellCounts, retained, m.node);
      }
      CacheNodeSurvives(tree.links, tree.path, tree.own, home, leaf, prompt, kv, m);
      NotBooked(old(tree.own), own2, m.node, more, victim);
      StaysLatest(own2, more, tree.own, m.node, old(tree.tick), tree.tick);
    }

    /** No id could be had: the booking is undone.  Nothing is spelled that was not spelled before, with two usable ids
        some other request is live, and a sole kept sequence is on the node that now spells the prompt. */
    method GiveUp(m: PrefixMatch, promptTokens: Word, ghost path0: Paths)
      requires Valid(0) && freeSeqIds == [] && (forall p :: !IdleOwner(tree.own, p))
      requires 0 in leaf && leaf[0] == m.node && m.node in tree.path && tree.path[m.node] == promptTokens
      requires OnlyNewLeaf(path0, tree.links, tree.path, tree.own, m.cacheNode, m.node)
      modifies this`leaf, this`prompt, tree
      ensures Quiet() && leaf == old(leaf) - {0} && prompt == old(prompt) - {0}
      ensures AllReady(tree.own) == AllReady(old(tree.own))
      ensures forall v | Spells(tree.path, v) :: Spells(path0, v)
      ensures maxSequences >= 3 ==> leaf != map[]
      ensures leaf == map[] && 1 in home ==>
                home[1] == m.node && EndsInEdge(tree.links, tree.path, home[1], promptTokens)
    {
      hide TreeOk, PoolOk, KeptOk, Linked, AllReady, Shape, EndsInEdge, OnlyNewLeaf, PrunedTree, Spells, IdleOwner;
      ghost var links1, path1, own1 := tree.links, tree.path, tree.own;
      if maxSequences >= 3 {
        ExhaustedHasPeer(tree.path, tree.own, home, leaf, prompt, kv, cellCounts, retained, maxSequences);
        ghost var s :| s in leaf && s != 0;
        assert s in leaf - {0};
      }
      ghost var sole := leaf - {0} == map[] && 1 in home;
      if sole {
        assert leaf == map[0 := m.node];
        OneIdHeld(tree.path, tree.own, home, prompt, kv, cellCounts, retained, m.node);
      }
      var stop := Unbook(m.node);
      NoNews(path0, links1, path1, own1, m.cacheNode, m.node, tree.links, tree.path, tree.own, stop);
      if sole {
        StarvesAgain(links1, path1, own1, m.node, tree.links, tree.path, tree.own, stop, promptTokens);
      }
    }

    /** The id taken for a booked prompt is filled with what a source covers of it. */
    method Fill(id: SeqId, m: PrefixMatch, tokens: Word) returns (cachedPos: nat, ghost hit: Hit)
      requires ValidWith([id] + freeSeqIds, 0) && 0 in leaf && leaf[0] == m.node && prompt[0] == tokens
      requires m.node in tree.path && tree.path[m.node] == tokens && m.matchedTokens <= |tokens|
      requires m.cacheNode in tree.path && tree.path[m.cacheNode] == tokens[..m.matchedTokens]
      modifies this`leaf, this`prompt, this`home, this`kv, this`cellCounts, this`retained, tree`own
      ensures Quiet() && id in old(kv) && old(kv)[id] == [] && id !in old(leaf) && id !in old(home)
      ensures 1 <= id < maxSequences
      ensures leaf == (old(leaf) - {0})[id := m.node] && prompt == old(prompt)[id := tokens] - {0}
      ensures cachedPos <= |tokens| && (tokens != [] ==> cachedPos < |tokens|)
      ensures (!prefixCacheEnabled ==> cachedPos == 0)
      ensures home == old(home)[id := m.node] && kv == old(kv)[id := tokens[..cachedPos]]
      ensures cellCounts == old(cellCounts)[id := cachedPos]
      ensures AllReady(tree.own) == AllReady(old(tree.own)) && id !in AllReady(tree.own)
      ensures hit.m == m && cachedPos == CachedPos(prefixCacheEnabled, m.matchedTokens, hit.source, |tokens|)
      ensures AllCovered(prefixCacheEnabled, m.matchedTokens, hit.source, |tokens|, cachedPos)
      ensures tree.path.Keys == tree.own.Keys && tree.path.Keys == old(tree.own).Keys
      ensures forall before, now | Latest(old(tree.own), m.node, before, now) :: Latest(tree.own, m.node, before, now)
      ensures prefixCacheEnabled && m.matchedTokens > 0 ==>
                && Reported(tree.path, old(tree.own), m.cacheNode, hit.source, hit.at)
                && Reported(tree.path, tree.own, m.cacheNode, hit.source, hit.at)
    {
      hide TreeOk, PoolOk, KeptOk, Linked, AllReady, Shape, Reported, Registered, CachedPos, Latest, AllCovered;
      var view: Word;
      ghost var c: Covering, a: Ptr;
      cachedPos, view, c, a := CopyFromSource(tokens, m);
      CopyBounds(prefixCacheEnabled, m.matchedTokens, c, |tokens|);
      hit := Hit(m, c, a);
      if prefixCacheEnabled && m.matchedTokens > 0 {
        SourceKept(tree.links, tree.path, tree.own, home, leaf, prompt, kv, m.node, id, |tokens|, m.cacheNode, c, a);
      }
      ghost var own0 := tree.own;
      Settle(id, m.node, tokens, cachedPos, view);
      forall before, now | Latest(own0, m.node, before, now) ensures Latest(tree.own, m.node, before, now) {
        StillLatest(own0, m.node, id, |tokens|, before, now);
      }
    }

    /** Prepare a prompt: afterwards its sequence holds a prefix of its own tokens and the rest, never
        nothing for a non-empty prompt, is left to decode.  The sequences of `gone` were evicted. */
    method PrepareSequence(promptTokens: Word)
      returns (r: PrepareResult, ghost gone: set<SeqId>, ghost hit: Hit, ghost clear: Clearing)
      requires Quiet()
      modifies this, tree
      ensures Quiet() && gone !! old(leaf).Keys
      ensures Called(old(tree.own), old(home), old(cellCounts), old(freeSeqIds), gone, clear.last, highWatermark,
                     hit.m.node)
      ensures LeftOver(old(tree.path), old(tree.own), gone, clear.left)
      ensures LongestSpelled(clear.left, promptTokens, hit.m.matchedTokens)
      ensures Total(old(cellCounts)) <= highWatermark ==> clear.left == old(tree.path)
      ensures r.Prepared? ==>
                && hit.m.node == r.leafNode && tree.tick == old(tree.tick) + 1
                && Latest(tree.own, r.leafNode, old(tree.tick), tree.tick)
      ensures old(freeSeqIds) != [] ==>
                r.Prepared? && r.seqId == old(freeSeqIds)[0] && old(freeSeqIds)[1..] <= freeSeqIds
      ensures r.Prepared? ==>
                && 1 <= r.seqId < maxSequences && r.seqId !in old(leaf)
                && leaf == old(leaf)[r.seqId := r.leafNode] && prompt == old(prompt)[r.seqId := promptTokens] - {0}
                && r.cachedPos <= |promptTokens| && r.delta == promptTokens[r.cachedPos..]
                && (promptTokens != [] ==> r.delta != [])
                && (!prefixCacheEnabled ==> r.cachedPos == 0)
                && home == (old(home) - gone)[r.seqId := r.leafNode]
                && kv == Cleared(old(kv), gone)[r.seqId := promptTokens[..r.cachedPos]]
                && cellCounts == (old(cellCounts) - gone)[r.seqId := r.cachedPos]
                && AllReady(tree.own) == AllReady(old(tree.own)) - gone && r.seqId !in AllReady(tree.own)
      ensures r.CapacityExhausted? ==>
                && leaf == old(leaf) && prompt == old(prompt) - {0} && freeSeqIds == []
                && Gone(gone, old(home), old(kv), old(cellCounts), AllReady(old(tree.own)), home, kv, cellCounts,
                        AllReady(tree.own))
      ensures r.CapacityExhausted? ==> forall v | Spells(tree.path, v) :: Spells(old(tree.path), v)
      ensures r.CapacityExhausted? && maxSequences >= 3 ==> leaf != map[]
      ensures maxSequences == 2 && old(leaf) == map[] ==> (r.CapacityExhausted? <==> old(Starves(promptTokens)))
      ensures maxSequences == 2 && old(leaf) == map[] && r.CapacityExhausted? ==> Starves(promptTokens)
      ensures maxSequences <= 1 ==> r.CapacityExhausted?
      ensures r.Prepared? ==>
                && hit.m.cacheNode in tree.path && hit.m.matchedTokens <= |promptTokens|
                && tree.path.Keys == tree.own.Keys
                && tree.path[hit.m.cacheNode] == promptTokens[..hit.m.matchedTokens]
                && (Total(old(cellCounts)) <= highWatermark ==>
                      LongestSpelled(old(tree.path), promptTokens, hit.m.matchedTokens))
                && r.cachedPos == CachedPos(prefixCacheEnabled, hit.m.matchedTokens, hit.source, |promptTokens|)
                && AllCovered(prefixCacheEnabled, hit.m.matchedTokens, hit.source, |promptTokens|, r.cachedPos)
                && (prefixCacheEnabled && hit.m.matchedTokens > 0 ==>
                      Reported(tree.path, tree.own, hit.m.cacheNode, hit.source, hit.at))
      ensures Total(old(cellCounts)) <= highWatermark && old(freeSeqIds) != [] ==>
                && r.Prepared?
                && Foretold(old(tree.links), old(tree.path), old(tree.own), promptTokens, prefixCacheEnabled,
                            r.cachedPos)
      ensures r.Prepared? && Total(old(cellCounts)) <= highWatermark ==>
                && (old(freeSeqIds) != [] ==> r.seqId == old(freeSeqIds)[0] && gone == {})
                && (old(freeSeqIds) == [] ==> r.seqId in old(home) && old(home)[r.seqId] != r.leafNode)
                && (forall p | p in old(tree.path) && p != ROOT ::
                      r.leafNode == p <==> EndsInEdge(old(tree.links), old(tree.path), p, promptTokens))
    {
      hide TreeOk, PoolOk, KeptOk, Linked, Cleared, AllReady, Total, Shape, Gone, LongestSpelled, Reported, Registered,
           CachedPos, EndsInEdge, OnlyNewLeaf, Spells, Booked, Foretold, Called, LeftOver, Latest, ValidWith, Short,
           AllCovered;
      var ok, id, m, went, c := Reserve(promptTokens);
      clear := c;
      gone, hit := went, Hit(m, NoSource, ROOT);
      assert leaf - {0} == old(leaf) && prompt - {0} == old(prompt) - {0};
      if !ok {
        GiveUp(m, promptTokens, old(tree.path));
        if maxSequences == 2 && old(leaf) == map[] {
          GoneAll(gone, old(home), old(kv), old(cellCounts), AllReady(old(tree.own)), home, kv, cellCounts,
                  AllReady(tree.own));
          assert home == old(home) && cellCounts == old(cellCounts);
        }
        return CapacityExhausted, gone, hit, clear;
      }
      GoneAll(gone, old(home), old(kv), old(cellCounts), AllReady(old(tree.own)), home, kv, cellCounts,
              AllReady(tree.own));
      ghost var links1, path1, own1 := tree.links, tree.path, tree.own;
      var cachedPos: nat;
      cachedPos, hit := Fill(id, m, promptTokens);
      if Total(old(cellCounts)) <= highWatermark && old(freeSeqIds) != [] {
        assert Booked(old(tree.links), old(tree.path), old(tree.own), promptTokens, m, links1, path1, own1);
        ForetoldByInspection(old(tree.links), old(tree.path), old(tree.own), promptTokens, m, links1, path1, own1,
                             prefixCacheEnabled, hit.source, hit.at);
      }
      return Prepared(id, cachedPos, promptTokens[cachedPos..], m.node), gone, hit, clear;
    }

    /** The prompt of `s` has been decoded: its sequence may be copied from now on. */
    method MarkSequenceReady(s: SeqId, node: Ptr)
      requires Quiet() && s in leaf && leaf[s] == node && s in prompt && prompt[s] != [] && s in kv
      requires prompt[s] <= kv[s]
      modifies this`cellCounts, tree`own
      ensures Quiet() && AllReady(tree.own) == AllReady(old(tree.own)) + {s}
      ensures node in old(tree.own) && cellCounts == old(cellCounts)[s := old(tree.own)[node].canonicalLen]
      ensures cellCounts[s] == |kv[s]| <==> old(tree.own)[node].canonicalLen == |kv[s]|
      ensures tree.own == old(tree.own)[node := old(tree.own)[node].(readyIds := old(tree.own)[node].readyIds + {s})]
    {
      hide HomesOk, RefsOk, Canonical, Faithful, PromptsOk, PoolOk, KeptOk, Shape, AllReady, Linked;
      ghost var own0 := tree.own;
      PromptSpelled(tree.path, tree.own, home, leaf, prompt, kv, s);
      ReadyKeeps(tree.path, own0, home, leaf, prompt, kv, s, node);
      UpdateReady(own0, home, node, own0[node].(readyIds := own0[node].readyIds + {s}), {}, {s});
      MarkKept(own0, home, leaf, kv, cellCounts, retained, s, node, own0[node].canonicalLen);
      tree.MarkSeqIdReady(node, s);
      cellCounts := cellCounts[s := tree.own[node].canonicalLen];
    }

    method SetSequenceCellCount(s: SeqId, cellCount: int)
      requires Quiet()
      modifies this`cellCounts
      ensures cellCounts == if s in old(cellCounts) then old(cellCounts)[s := if cellCount < 0 then 0 else cellCount]
                            else old(cellCounts)
      ensures Quiet() <==> s !in cellCounts || s in leaf || (s in kv && cellCounts[s] == |kv[s]|)
    {
      hide HomesOk, RefsOk, Canonical, Faithful, PromptsOk, Shape, PoolOk;
      if s in cellCounts {
        CountSet(tree.own, home, leaf, kv, cellCounts, retained, s, if cellCount < 0 then 0 else cellCount);
      }
      hide KeptOk;
      if s in cellCounts {
        cellCounts := cellCounts[s := if cellCount < 0 then 0 else cellCount];
      }
    }

    /** Put the ready sequence of a finishing request on the node for everything its view holds.  The
        request's reference stays where it was, so until it is given back `s` is excused. */
    method ExtendSequence(s: SeqId, node: Ptr, tokens: Word) returns (target: Ptr)
      requires Quiet() && s in leaf && leaf[s] == node && s in AllReady(tree.own) && s in kv && kv[s] == tokens
      modifies this`cellCounts, this`home, tree
      ensures Valid(s) && s in home && home[s] == target && target in tree.links
      ensures prefixCacheEnabled ==> target in tree.path && tree.path[target] == tokens
      ensures !prefixCacheEnabled ==> target == node
      ensures home == old(home)[s := target] && AllReady(tree.own) == AllReady(old(tree.own))
      ensures cellCounts == if prefixCacheEnabled then old(cellCounts)[s := |tokens|] else old(cellCounts)
      ensures target == node ==> tree.tick == old(tree.tick)
      ensures target != node ==> old(tree.tick) < tree.tick && Latest(tree.own, target, old(tree.tick), tree.tick)
      ensures prefixCacheEnabled ==> target in tree.own && tree.own[target].canonicalLen == |tokens|
      ensures !prefixCacheEnabled ==> tree.path == old(tree.path)
    {
      hide HomesOk, RefsOk, Canonical, Faithful, PromptsOk, PoolOk, KeptOk, Shape, AllReady, Grown, Padded, PayloadsOk;
      ExcuseLive(tree.own, home, leaf, kv, cellCounts, retained, maxSequences, freeSeqIds, s);
      if !prefixCacheEnabled {
        LiveNode(tree.links, tree.path, tree.own, home, leaf, prompt, kv, s);
        return node;
      }
      LiveNode(tree.links, tree.path, tree.own, home, leaf, prompt, kv, s);
      ghost var links0, path0, own0 := tree.links, tree.path, tree.own;
      var t, cache, matched, grown := tree.ExtendSeqId(node, s, tokens, |tokens|);
      target := t;
      ExtendTree(links0, path0, own0, home, leaf, prompt, kv, s, node, tree.links, tree.path, grown, cache, target,
                 matched, tree.tick, tree.own);
      ExtendKept(own0, home, leaf, kv, cellCounts, retained, s, node, grown, target, tree.own, tree.tick, |tokens|,
                 maxSequences, freeSeqIds);
      home := home[s := target];
      if s in cellCounts {
        cellCounts := cellCounts[s := |tokens|];
      }
    }

    /** What a prompt would find, without allocating or changing anything. */
    method InspectPrefix(promptTokens: Word) returns (a: PrefixAvailability)
      requires Quiet()
      ensures Sees(tree.links, tree.path, tree.own, promptTokens, a)
    {
      hide TreeOk, PoolOk, KeptOk, Linked, Shape, Assessed, LongestSpelled;
      a := tree.InspectPrefix(promptTokens);
    }

    /** Free the sequence, or keep it, cut down to what its node spells, when it is ready and alone
        there.  A second release of the same sequence changes nothing. */
    method ReleaseSequence(s: SeqId, node: Ptr) returns (ghost kept: bool)
      requires Valid(s) && node in tree.links && (s in home ==> home[s] == node)
      modifies this`freeSeqIds, this`cellCounts, this`retained, this`kv, this`home, tree`own
      ensures Valid(s)
      ensures s !in old(home) ==>
                !kept && home == old(home) && kv == old(kv) && freeSeqIds == old(freeSeqIds) &&
                cellCounts == old(cellCounts)
                && retained == old(retained) && tree.own == old(tree.own)
      ensures s in old(home) ==>
                node in old(tree.own) &&
                (kept <==> prefixCacheEnabled && s in AllReady(old(tree.own)) && old(tree.own)[node].seqIds == {s})
      ensures kept ==>
                && home == old(home) && freeSeqIds == old(freeSeqIds) && tree.own == old(tree.own)
                && s in old(kv) && tree.path[node] <= old(kv)[s] && kv == old(kv)[s := tree.path[node]]
                && cellCounts == old(cellCounts)[s := |tree.path[node]|] && retained == old(retained) + {s}
      ensures s in old(home) && !kept ==>
                && home == old(home) - {s} && freeSeqIds == old(freeSeqIds) + [s] && kv == old(kv)[s := []]
                && cellCounts == old(cellCounts) - {s} && retained == old(retained) - {s}
                && tree.own == old(tree.own)[node := Without(old(tree.own)[node], s)]
      ensures AllReady(tree.own) == if kept || s !in old(home) then AllReady(old(tree.own))
                                    else AllReady(old(tree.own)) - {s}
      ensures s in old(home) && prefixCacheEnabled && s in AllReady(old(tree.own)) ==> tree.own[node].seqIds != {}
    {
      hide HomesOk, RefsOk, Canonical, Faithful, PromptsOk, PoolOk, KeptOk, Shape, AllReady, Linked, IsSource,
           HasNoSource, Without;
      ghost var own0 := tree.own;
      kept := false;
      ReleaseFacts(tree.path, own0, home, leaf, prompt, kv, s, node);
      var freed := tree.ReleaseSeqId(node, s, prefixCacheEnabled);
      if freed {
        FreeKeeps(tree.path, own0, home, leaf, prompt, kv, s, node);
        FreedReady(tree.path, own0, home, s, node);
        FreedKept(own0, home, leaf, kv, cellCounts, retained, s, node);
        if prefixCacheEnabled && s in AllReady(own0) { SomeoneStays(own0[node], s, tree.own[node]); }
        GiveBack(s);
      } else {
        ghost var bound := Longest(tree.path);
        var c, a := tree.FindCoveringSeqId(node, bound);
        CoversItself(tree.links, tree.path, own0, home, s, node, c, a);
        if c.Source? && c.seqId == s {
          kept := true;
          assert kv[s][..c.len] == tree.path[node];
          TrimKeeps(tree.path, own0, home, leaf, prompt, kv, s, c.len);
          TrimKept(own0, home, leaf, kv, cellCounts, retained, s, c.len, maxSequences, freeSeqIds);
          kv := kv[s := SeqRm(kv, s, c.len)];
          cellCounts := cellCounts[s := c.len];
          retained := retained + {s};
        }
      }
    }

    /** A successful decode stores `tokens` in the next cells of a request's sequence. */
    method Decoded(s: SeqId, tokens: Word)
      requires Quiet() && s in leaf
      modifies this`kv
      ensures Quiet() && s in old(kv) && kv == old(kv)[s := old(kv)[s] + tokens]
    {
      hide HomesOk, RefsOk, Canonical, PromptsOk, Shape;
      DecodeKeeps(tree.path, tree.own, kv, s, tokens);
      hide Faithful;
      kv := kv[s := kv[s] + tokens];
    }

    /** A request leaves: its sequence on `seqNode` is released and then its reference given back. */
    method Finish(s: SeqId, seqNode: Ptr, leafNode: Ptr)
      requires Valid(s) && 0 !in leaf && s in leaf && leaf[s] == leafNode && s in home && home[s] == seqNode
      modifies this`freeSeqIds, this`cellCounts, this`retained, this`kv, this`home, this`leaf, tree
      ensures Quiet() && leaf == old(leaf) - {s}
      ensures home - {s} == old(home) - {s} && kv - {s} == old(kv) - {s} && cellCounts - {s} == old(cellCounts) - {s}
      ensures AllReady(tree.own) - {s} == AllReady(old(tree.own)) - {s}
      ensures SameStamps(old(tree.own), tree.own) && tree.tick == old(tree.tick) && NoNodes(old(tree.path), tree.path)
      ensures if s in home then freeSeqIds == old(freeSeqIds) && s in cellCounts && s in kv && cellCounts[s] == |kv[s]|
              else freeSeqIds == old(freeSeqIds) + [s] && s !in cellCounts && s in kv && kv[s] == []
      ensures seqNode in old(tree.own) &&
              (s in home <==>
                 prefixCacheEnabled && s in AllReady(old(tree.own)) && old(tree.own)[seqNode].seqIds == {s})
      ensures s in home ==>
                home[s] == seqNode && s in kv && kv[s] == old(tree.path)[seqNode] && s in old(kv) && kv[s] <= old(kv)[s]
      ensures prefixCacheEnabled && s in AllReady(old(tree.own)) ==>
                seqNode in tree.path && seqNode in old(tree.path) && tree.path[seqNode] == old(tree.path)[seqNode] &&
                seqNode in tree.own && tree.own[seqNode].seqIds != {}
    {
      hide HomesOk, RefsOk, Canonical, Faithful, PromptsOk, Linked, PoolOk, KeptOk, Shape, AllReady, Without,
           SameStamps, PayloadsOk, NoNodes;
      NodeOfHome(tree.path, tree.own, home, s);
      ghost var own0 := tree.own;
      ghost var home0, kv0, cells0, ready0 := home, kv, cellCounts, AllReady(tree.own);
      var kept := ReleaseSequence(s, seqNode);
      OnlyOneDiffers(home0, kv0, cells0, ready0, s, tree.path[seqNode], |tree.path[seqNode]|);
      LeftStamps(own0, seqNode, s);
      ghost var own1 := tree.own;
      GiveBackReference(s, leafNode);
      StampsTwice(own0, own1, tree.own);
    }

    /** The reference of a request whose sequence has been released goes back to the tree. */
    method GiveBackReference(s: SeqId, leafNode: Ptr)
      requires Valid(s) && 0 !in leaf && s in leaf && leaf[s] == leafNode
      requires s in home ==>
                s in retained && home[s] in tree.own && tree.own[home[s]].seqIds == {s} && s in AllReady(tree.own)
      requires s in home ==> s in kv && s in cellCounts && cellCounts[s] == |kv[s]|
      modifies this`leaf, tree
      ensures Quiet() && leaf == old(leaf) - {s} && AllReady(tree.own) == AllReady(old(tree.own))
      ensures SameStamps(old(tree.own), tree.own) && tree.tick == old(tree.tick) && NoNodes(old(tree.path), tree.path)
      ensures forall p | p in old(tree.own) && old(tree.own)[p].seqIds != {} ::
                p in old(tree.path) && p in tree.path && p in tree.own && tree.path[p] == old(tree.path)[p] &&
                tree.own[p].seqIds == old(tree.own)[p].seqIds
    {
      hide HomesOk, RefsOk, Canonical, Faithful, PromptsOk, Linked, PoolOk, KeptOk, Shape, AllReady, PrunedTree;
      ghost var links0, path0, own0 := tree.links, tree.path, tree.own;
      hide SameStamps, PayloadsOk, NoNodes;
      LeftAlone(path0, own0, home, leaf, prompt, kv, cellCounts, retained, s);
      DropRefKeeps(path0, own0, home, leaf, prompt, kv, s);
      var stop := tree.Release(leafNode);
      ghost var own1 := own0[leafNode := own0[leafNode].(refCount := own0[leafNode].refCount - 1)];
      ReleaseKeeps(links0, path0, own0, own1, leafNode, tree.links, tree.path, tree.own, stop, home, leaf - {s},
                   leaf - {s}, prompt, kv, cellCounts, retained, 0);
      PrunedStamps(links0, path0, own0, leafNode, own1[leafNode], tree.links, tree.path, tree.own, stop);
      forall p | p in own0 && own0[p].seqIds != {}
        ensures p in path0 && p in tree.path && p in tree.own && tree.path[p] == path0[p]
        ensures tree.own[p].seqIds == own0[p].seqIds
      {
        OwnedStays(links0, path0, own1, leafNode, tree.links, tree.path, tree.own, stop, p);
      }
      leaf := leaf - {s};
    }

    /** A settled request may be excused. */
    lemma Excused(s: SeqId)
      requires Quiet() && s in leaf
      ensures Valid(s) && s in home && home[s] == leaf[s]
    {
      hide TreeOk, KeptOk, PoolOk;
      ExcuseLive(tree.own, home, leaf, kv, cellCounts, retained, maxSequences, freeSeqIds, s);
    }

    /** Make room when a decode found no free cells. */
    method EvictIdleSequence() returns (evicted: bool, ghost ids: set<SeqId>)
      requires Quiet()
      modifies this`freeSeqIds, this`cellCounts, this`retained, this`kv, this`home, tree
      ensures Quiet() && ids !! leaf.Keys && (evicted <==> ids != {})
      ensures evicted <==> exists p :: IdleOwner(old(tree.own), p)
      ensures evicted ==> exists p :: IsOldest(old(tree.own), ids, p)
      ensures Survivors(old(tree.own), ids, tree.own) && tree.tick == old(tree.tick)
      ensures Gone(ids, old(home), old(kv), old(cellCounts), AllReady(old(tree.own)), home, kv, cellCounts,
                   AllReady(tree.own))
    {
      hide TreeOk, KeptOk, PoolOk, Linked, AllReady, Gone, IdleOwner, NoLater, Survivors;
      ZeroIsNoHome();
      ghost var victim: Ptr;
      evicted, victim, ids := EvictOne(0);
      assert evicted ==> IsOldest(old(tree.own), ids, victim);
    }

    lemma ZeroIsNoHome()
      requires Valid(0)
      ensures 0 !in home
    {
    }

    /** Empty the view of `sid` and put the id at the end of the free queue. */
    method GiveBack(sid: SeqId)
      requires PoolOk(freeSeqIds, home, kv, maxSequences) && sid in home
      modifies this`freeSeqIds, this`cellCounts, this`retained, this`kv, this`home
      ensures PoolOk(freeSeqIds, home, kv, maxSequences) && freeSeqIds == old(freeSeqIds) + [sid]
      ensures home == old(home) - {sid} && kv == old(kv)[sid := []]
      ensures cellCounts == old(cellCounts) - {sid} && retained == old(retained) - {sid}
    {
      hide PoolOk;
      ReturnToPool(freeSeqIds, home, kv, maxSequences, sid);
      kv := kv[sid := []];
      freeSeqIds := freeSeqIds + [sid];
      cellCounts := cellCounts - {sid};
      retained := retained - {sid};
      home := home - {sid};
    }

    /** Empty the views of `ids` and put them at the end of the free queue. */
    method FreeAll(ids: set<SeqId>)
      requires PoolOk(freeSeqIds, home, kv, maxSequences) && ids <= home.Keys
      modifies this`freeSeqIds, this`cellCounts, this`retained, this`kv, this`home
      ensures PoolOk(freeSeqIds, home, kv, maxSequences)
      ensures home == old(home) - ids && kv == Cleared(old(kv), ids)
      ensures cellCounts == old(cellCounts) - ids && retained == old(retained) - ids
      ensures ids != {} ==> freeSeqIds != []
      ensures old(freeSeqIds) <= freeSeqIds
    {
      hide PoolOk, Cleared;
      var rest := ids;
      ghost var done: set<SeqId> := {};
      ClearedNothing(home, kv, cellCounts);
      while rest != {}
        invariant rest !! done && rest + done == ids
        invariant home == old(home) - done && kv == Cleared(old(kv), done)
        invariant cellCounts == old(cellCounts) - done && retained == old(retained) - done
        invariant PoolOk(freeSeqIds, home, kv, maxSequences)
        invariant (done != {} ==> freeSeqIds != []) && old(freeSeqIds) <= freeSeqIds
        decreases rest
      {
        var sid := First(rest);
        ReturnToPool(freeSeqIds, home, kv, maxSequences, sid);
        ClearedMore(old(kv), done, sid);
        GiveBack(sid);
        rest, done := rest - {sid}, done + {sid};
      }
      assert done == ids;
    }
  }

  lemma StartPool(pool: seq<SeqId>, kv: Views, max: int)
    requires |pool| == (if max < 1 then 0 else max - 1) && forall i | 0 <= i < |pool| :: pool[i] == i + 1
    requires kv == map s | s in pool :: []
    ensures PoolOk(pool, map[], kv, max)
  {
    forall s | 1 <= s < max ensures s in pool {
      assert pool[s - 1] == s;
    }
  }

  lemma StartTree(path: Paths, own: Owners, kv: Views)
    requires path == map[ROOT := []] && own == map[ROOT := BARE.(refCount := 1)]
    ensures TreeOk(path, own, map[], map[], map[], kv)
  {
    assert Holders(map[], ROOT) == {};
  }

  /** The ids on an idle node belong to no live request. */
  lemma VictimIsNobodys(own: Owners, home: Homes, leaf: Homes, x: SeqId, victim: Ptr)
    requires HomesOk(own, home) && RefsOk(own, leaf) && Linked(home, leaf, x) && x !in home && IdleOwner(own, victim)
    ensures own[victim].seqIds <= home.Keys && own[victim].seqIds !! leaf.Keys
    ensures forall s | s in own[victim].seqIds :: home[s] == victim
  {
    forall s | s in own[victim].seqIds ensures s in home && s !in leaf {
      if s in leaf {
        HeldIsReferenced(own, leaf, s);
      }
    }
  }

  /** What is left when the sequences of `gone` are evicted: every node that is still referenced or owned, with its
      stamp and its references, less those sequences. */
  ghost predicate Survivors(own0: Owners, gone: set<SeqId>, own: Owners) {
    && own.Keys <= own0.Keys
    && (forall p | p in own ::
          && own[p].refCount == own0[p].refCount && own[p].lastAccess == own0[p].lastAccess
          && own[p].seqIds == own0[p].seqIds - gone && own[p].readyIds == own0[p].readyIds - gone)
    && (forall p | p in own0 && p !in own :: p != ROOT && own0[p].refCount == 0 && own0[p].seqIds <= gone)
  }

  lemma AllSurvive(own: Owners)
    ensures Survivors(own, {}, own)
  {
  }

  lemma SurviveBoth(own0: Owners, a: set<SeqId>, own1: Owners, b: set<SeqId>, own2: Owners)
    requires Survivors(own0, a, own1) && Survivors(own1, b, own2)
    ensures Survivors(own0, a + b, own2)
  {
  }

  lemma PrunedOwners(links: Links, path: Paths, own: Owners, node: Ptr, links': Links, path': Paths, own': Owners,
                     stop: Ptr)
    requires PrunedTree(links, path, own, node, links', path', own', stop)
    ensures own'.Keys <= own.Keys && forall p | p in own' :: own'[p] == own[p]
    ensures forall p | p in own && p !in own' :: p != ROOT && Unowned(own[p])
  {
    assert Pruned(links, path, node, links', path', stop);
  }

  lemma EvictSurvivors(own: Owners, home: Homes, node: Ptr, links: Links, path: Paths, links': Links, path': Paths,
                       own': Owners, stop: Ptr, now: nat)
    requires HomesOk(own, home) && node in own && own[node].refCount == 0 && PayloadsOk(own, now)
    requires PrunedTree(links, path, own[node := own[node].(seqIds := {}, readyIds := {}, canonicalLen := 0)], node,
                        links', path', own', stop)
    ensures Survivors(own, own[node].seqIds, own')
  {
    hide PrunedTree;
    var cleared := own[node := own[node].(seqIds := {}, readyIds := {}, canonicalLen := 0)];
    PrunedOwners(links, path, cleared, node, links', path', own', stop);
    forall p | p in own && p != node ensures own[p].seqIds !! own[node].seqIds && own[p].readyIds !! own[node].seqIds {
      forall s | s in own[p].seqIds ensures s !in own[node].seqIds { assert home[s] == p; }
    }
  }

  /** `node` has been used now, and all others before. */
  ghost predicate Latest(own: Owners, node: Ptr, before: nat, now: nat) {
    node in own && own[node].lastAccess == now && forall p | p in own && p != node :: own[p].lastAccess <= before
  }

  /** The idle owners are those there were, but for `node`. */
  ghost predicate OthersIdle(own0: Owners, own: Owners, node: Ptr) {
    && (forall p | IdleOwner(own, p) :: p != node && IdleOwner(own0, p) && own[p] == own0[p])
    && (forall p | IdleOwner(own0, p) && p != node :: IdleOwner(own, p))
  }

  lemma BookedUse(own: Owners, own': Owners, node: Ptr, before: nat, now: nat)
    requires Acquired(own, own', node, now) && own'[node].lastAccess == now
    requires forall p | p in own' && p != node :: own'[p].lastAccess <= before
    ensures Latest(own', node, before, now) && OthersIdle(own, own', node)
  {
  }

  lemma StaysLatest(own: Owners, gone: set<SeqId>, own': Owners, node: Ptr, before: nat, now: nat)
    requires Latest(own, node, before, now) && Survivors(own, gone, own') && node in own'
    ensures Latest(own', node, before, now)
  {
  }

  lemma StillLatest(own: Owners, node: Ptr, id: SeqId, len: nat, before: nat, now: nat)
    requires Latest(own, node, before, now)
    ensures Latest(Registered(own, node, id, len), node, before, now)
  {
  }

  /** Only what pressure or want of an id calls for has gone.  Over the watermark it took the going of `last`, too;
      otherwise no id was free and the least recently used idle node but `node` went. */
  ghost predicate Called(own0: Owners, home0: Homes, cells0: map<SeqId, nat>, free0: seq<SeqId>, gone: set<SeqId>,
                         last: Ptr, most: int, node: Ptr) {
    if Total(cells0) > most then Needed(own0, home0, cells0, gone, last, most)
    else (gone != {} ==> free0 == []) && OldestBut(own0, gone, last, node)
  }

  /** If anything went, it was the idle node `p`, the least recently used one but for `node`. */
  ghost predicate OldestBut(own: Owners, gone: set<SeqId>, p: Ptr, node: Ptr) {
    gone != {} ==>
      IdleOwner(own, p) && p != node && gone == own[p].seqIds && forall q | IdleOwner(own, q) && q != node ::
        NoLater(own, p, q)
  }

  lemma NotBooked(own: Owners, own': Owners, node: Ptr, gone: set<SeqId>, p: Ptr)
    requires OthersIdle(own, own', node) && (gone != {} ==> IsOldest(own', gone, p))
    ensures OldestBut(own, gone, p, node) && (gone != {} ==> IdleOwner(own', p) && p != node)
  {
  }

  lemma WasCalled(own0: Owners, home0: Homes, cells0: map<SeqId, nat>, free0: seq<SeqId>, a: set<SeqId>, last: Ptr,
                  most: int, own1: Owners, free1: seq<SeqId>, node: Ptr, b: set<SeqId>, victim: Ptr)
    requires Needed(own0, home0, cells0, a, last, most) && (a != {} ==> free1 != [])
    requires Total(cells0) <= most ==> a == {} && own1 == own0 && free1 == free0
    requires a == {} && Total(cells0) > most ==> forall p :: !IdleOwner(own1, p)
    requires OldestBut(own1, b, victim, node) && (b != {} ==> free1 == [])
    ensures Called(own0, home0, cells0, free0, a + b, if b == {} then last else victim, most, node)
  {
    if b != {} {
      assert a == {} && a + b == b;
    } else {
      assert a + b == a;
    }
  }

  /** What the tree spells once the sequences of `gone` have been evicted at most: no node is missing that is still
      referenced or owned. */
  ghost predicate LeftOver(path0: Paths, own0: Owners, gone: set<SeqId>, left: Paths) {
    && left.Keys <= path0.Keys && (forall p | p in left :: left[p] == path0[p])
    && (forall p | p in own0 && (p == ROOT || own0[p].refCount > 0 || !(own0[p].seqIds <= gone)) :: p in left)
  }

  lemma IsLeftOver(path0: Paths, own0: Owners, a: set<SeqId>, own1: Owners, path1: Paths, b: set<SeqId>)
    requires Survivors(own0, a, own1) && path1.Keys == own1.Keys && path0.Keys == own0.Keys
    requires forall p | p in path1 :: p in path0 && path1[p] == path0[p]
    ensures LeftOver(path0, own0, a + b, path1)
  {
  }

  /** `gone` are the ids of the idle node `p`, and no idle node was used before it. */
  ghost predicate IsOldest(own: Owners, gone: set<SeqId>, p: Ptr) {
    IdleOwner(own, p) && gone == own[p].seqIds && forall q | IdleOwner(own, q) :: NoLater(own, p, q)
  }

  /** If anything went, then `last` was the latest used of it, and without its going the cells would still be too
      many. */
  ghost predicate Needed(own0: Owners, home0: Homes, cells0: map<SeqId, nat>, gone: set<SeqId>, last: Ptr, most: int) {
    gone != {} ==>
      && IdleOwner(own0, last) && own0[last].seqIds <= gone <= home0.Keys
      && (forall s | s in gone :: NoLater(own0, home0[s], last))
      && Total(cells0 - (gone - own0[last].seqIds)) > most
  }

  lemma NoneNeeded(own: Owners, home: Homes, cells: map<SeqId, nat>, last: Ptr, most: int)
    ensures Needed(own, home, cells, {}, last, most)
  {
  }

  lemma NeededMore(own0: Owners, home0: Homes, cells0: map<SeqId, nat>, gone: set<SeqId>, own: Owners, victim: Ptr,
                   ids: set<SeqId>, most: int)
    requires OldestWent(own0, home0, gone, own) && IdleOwner(own, victim) && ids == own[victim].seqIds
    requires ids <= home0.Keys && ids !! gone && (forall s | s in ids :: home0[s] == victim)
    requires Total(cells0 - gone) > most
    ensures Needed(own0, home0, cells0, gone + ids, victim, most)
  {
    assert gone + ids - ids == gone;
  }

  /** Whatever idle owner is left was used no earlier than the node of any sequence that went. */
  ghost predicate OldestWent(own0: Owners, home0: Homes, gone: set<SeqId>, own: Owners) {
    && gone <= home0.Keys
    && (forall p | IdleOwner(own, p) :: p in own0 && own0[p] == own[p])
    && (forall s, p | s in gone && IdleOwner(own, p) :: NoLater(own0, home0[s], p))
  }

  lemma NothingWent(own: Owners, home: Homes)
    ensures OldestWent(own, home, {}, own)
  {
  }

  lemma OldestWentMore(own0: Owners, home0: Homes, gone: set<SeqId>, own: Owners, victim: Ptr, ids: set<SeqId>,
                       own': Owners)
    requires OldestWent(own0, home0, gone, own) && IdleOwner(own, victim) && ids <= home0.Keys
    requires forall s | s in ids :: home0[s] == victim
    requires forall p | IdleOwner(own, p) :: NoLater(own, victim, p)
    requires forall p | IdleOwner(own', p) :: IdleOwner(own, p) && own'[p] == own[p]
    ensures OldestWent(own0, home0, gone + ids, own')
  {
  }

  /** With an empty queue before, whatever is free now has just been freed. */
  lemma OnlyFreed(free: seq<SeqId>, home0: Homes, home: Homes, gone: set<SeqId>, kv0: Views, kv: Views, max: int)
    requires PoolOk([], home0, kv0, max) && PoolOk(free, home, kv, max) && home == home0 - gone && free != []
    ensures free[0] in gone
  {
    assert free[0] in free;
  }

  lemma KeptCarry(own: Owners, own': Owners, home: Homes, leaf: Homes, leaf': Homes, kv: Views, cells: map<SeqId, nat>,
                  retained: set<SeqId>, x: SeqId)
    requires KeptOk(own, home, leaf, kv, cells, retained, x)
    requires forall s | s in home :: s in leaf <==> s in leaf'
    requires forall s | s in home && s !in leaf && home[s] in own && s in own[home[s]].readyIds ::
               home[s] in own' && s in own'[home[s]].readyIds
    ensures KeptOk(own', home, leaf', kv, cells, retained, x)
  {
  }

  lemma IsBooked(links: Links, path: Paths, own: Owners, home: Homes, leaf: Homes, prompt: Views, kv: Views, w: Word,
                 m: PrefixMatch, links': Links, path': Paths, own': Owners, now: nat)
    requires Shape(links, path) && TreeOk(path, own, home, leaf, prompt, kv) && own'.Keys == path'.Keys
    requires Grown(links, path, w, links', path', m.cacheNode, m.node, m.matchedTokens)
    requires Acquired(own, own', m.node, now)
    ensures Booked(links, path, own, w, m, links', path', own')
  {
  }

  /** What inspection reports before a prompt is booked is what is then copied for it. */
  lemma ForetoldByInspection(links: Links, path: Paths, own: Owners, w: Word, m: PrefixMatch,
                             links': Links, path': Paths, own': Owners, enabled: bool, c: Covering, at: Ptr)
    requires Booked(links, path, own, w, m, links', path', own')
    requires enabled && m.matchedTokens > 0 ==> m.cacheNode in path' && Reported(path', own', m.cacheNode, c, at)
    ensures Foretold(links, path, own, w, enabled, CachedPos(enabled, m.matchedTokens, c, |w|))
  {
    hide Shape, Grown, Acquired, Canonical, LongestSpelled, Assessed, IsSource, HasNoSource;
    var now: nat :| Acquired(own, own', m.node, now);
    forall a | Sees(links, path, own, w, a)
      ensures AsSeen(enabled, a, |w|, CachedPos(enabled, m.matchedTokens, c, |w|))
    {
      MatchForeseen(links, path, w, a.matchedTokens, links', path', m);
      ReadyWithin(links, path, own, w, a);
      if enabled && m.matchedTokens > 0 {
        InspectPredicts(links, path, own, w, a, links', path', own', m, now, c, at);
      }
    }
  }

  lemma MatchForeseen(links: Links, path: Paths, w: Word, n: nat, links': Links, path': Paths, m: PrefixMatch)
    requires LongestSpelled(path, w, n) && Grown(links, path, w, links', path', m.cacheNode, m.node, m.matchedTokens)
    ensures n == m.matchedTokens && n <= |w|
  {
    hide LongestSpelled;
    LongestIsUnique(path, w, n, m.matchedTokens);
  }

  /** What is covered is matched. */
  lemma ReadyWithin(links: Links, path: Paths, own: Owners, w: Word, a: PrefixAvailability)
    requires Sees(links, path, own, w, a)
    ensures a.readyTokens <= a.matchedTokens
  {
    if a.readyTokens > 0 {
      var p :| p in WithReady(own, TouchedNodes(links, path, w)) && Coverage(path, own, w, p) == a.readyTokens;
      CommonSpelled(path, w, a.matchedTokens, p);
    }
  }

  lemma CommonSpelled(path: Paths, w: Word, n: nat, p: Ptr)
    requires LongestSpelled(path, w, n) && p in path
    ensures Lcp(path[p], w) <= n
  {
    hide Lcp, LongestSpelled;
    var k := Lcp(path[p], w);
    assert w[..k] <= path[p] && Spells(path, w[..k]);
    NoLongerSpelled(path, w, n, k);
  }

  lemma GrownFacts(links: Links, path: Paths, own: Owners, w: Word, links': Links, path': Paths, own': Owners,
                   m: PrefixMatch, now: nat)
    requires Grown(links, path, w, links', path', m.cacheNode, m.node, m.matchedTokens)
    requires Acquired(own, own', m.node, now)
    requires own.Keys == links.Keys && forall v :: Spells(path', v) <==> Spells(path, v) || v <= w
    ensures m.cacheNode in links' && m.matchedTokens <= |w| && path'[m.cacheNode] == w[..m.matchedTokens]
    ensures m.node == m.cacheNode || (m.node != ROOT && links'[m.node].parent == m.cacheNode)
    ensures m.node in own' && own'[m.node].refCount > 0 && LongestSpelled(path, w, m.matchedTokens)
    ensures forall p | p in path && p != ROOT :: m.node == p <==> EndsInEdge(links, path, p, w)
    ensures OnlyNewLeaf(path, links', path', own', m.cacheNode, m.node)
  {
    hide LongestSpelled, EndsInEdge, Spells;
    forall p | p in path && p != ROOT ensures m.node == p <==> EndsInEdge(links, path, p, w) {
      EndsOnOld(links, path, w, links', path', m.cacheNode, m.node, m.matchedTokens, p);
    }
    forall p | p in path' && (p != m.node || m.node == m.cacheNode) ensures Spells(path, path'[p]) {
      GrownSpells(links, path, w, links', path', m.cacheNode, m.node, m.matchedTokens, p);
    }
    if m.node != m.cacheNode {
      NewLeafIsBare(links, path, w, links', path', m.cacheNode, m.node, m.matchedTokens);
    }
  }

  lemma OnlyLeafWider(path0: Paths, path1: Paths, links: Links, path: Paths, own: Owners, cache: Ptr, node: Ptr)
    requires OnlyNewLeaf(path1, links, path, own, cache, node)
    requires forall p | p in path1 :: p in path0 && path0[p] == path1[p]
    ensures OnlyNewLeaf(path0, links, path, own, cache, node)
  {
    forall v | Spells(path1, v) ensures Spells(path0, v) {
      var p :| p in path1 && v <= path1[p];
      assert p in path0 && v <= path0[p];
    }
  }

  /** With one usable id and no request live: the id is free, or kept on an idle node. */
  lemma OneId(free: seq<SeqId>, path: Paths, own: Owners, home: Homes, prompt: Views, kv: Views, cells: map<SeqId, nat>,
              retained: set<SeqId>)
    requires TreeOk(path, own, home, map[], prompt, kv) && KeptOk(own, home, map[], kv, cells, retained, 0)
    requires PoolOk(free, home, kv, 2)
    ensures home.Keys <= {1} && cells.Keys == home.Keys && (free != [] <==> 1 !in home)
    ensures 1 in home ==> home[1] in path && IdleOwner(own, home[1])
  {
    hide PromptsOk;
    assert 1 in free || 1 in home;
    forall s | s in home ensures s == 1 {
      assert 1 <= s < 2;
    }
    if free != [] {
      assert free[0] in free && 1 <= free[0] < 2;
      assert 1 !in home;
    }
    if 1 in home {
      var p := home[1];
      assert p in own && 1 in own[p].readyIds;
      assert Holders(map[], p) == {};
    }
  }

  /** A sole sequence that has not gone is counted as before. */
  lemma OneStays(cells0: map<SeqId, nat>, gone: set<SeqId>, cells: map<SeqId, nat>)
    requires cells0.Keys <= {1} && cells == cells0 - gone && 1 in cells
    ensures cells == cells0
  {
  }

  /** The one id sits on the one node that is held, if no owner is idle. */
  lemma OneIdHeld(path: Paths, own: Owners, home: Homes, prompt: Views, kv: Views, cells: map<SeqId, nat>,
                  retained: set<SeqId>, node: Ptr)
    requires TreeOk(path, own, home, map[0 := node], prompt, kv)
    requires KeptOk(own, home, map[0 := node], kv, cells, retained, 0)
    requires forall p :: !IdleOwner(own, p)
    ensures 1 in home ==> home[1] == node && node in own && own[node].seqIds != {} && node != ROOT
  {
    hide PromptsOk;
    if 1 in home {
      var p, leaf := home[1], map[0 := node];
      assert p in own && 1 in own[p].readyIds && p != ROOT && !IdleOwner(own, p);
      var t := SomeOf(Holders(leaf, p));
      assert t in leaf && leaf[t] == p;
    }
  }

  /** Giving back a reference, then pruning. */
  lemma ReleaseKeeps(links: Links, path: Paths, own: Owners, own1: Owners, node: Ptr,
                     links': Links, path': Paths, own': Owners, stop: Ptr,
                     home: Homes, leaf: Homes, leaf': Homes, prompt: Views, kv: Views,
                     cells: map<SeqId, nat>, retained: set<SeqId>, x: SeqId)
    requires node in own && own[node].refCount > 0
    requires own1 == own[node := own[node].(refCount := own[node].refCount - 1)]
    requires PrunedTree(links, path, own1, node, links', path', own', stop)
    requires TreeOk(path, own1, home, leaf', prompt, kv) && KeptOk(own, home, leaf, kv, cells, retained, x)
    requires forall s | s in home :: s in leaf <==> s in leaf'
    ensures TreeOk(path', own', home, leaf', prompt, kv) && KeptOk(own', home, leaf', kv, cells, retained, x)
    ensures AllReady(own') == AllReady(own)
  {
    hide PrunedTree, Pruned, Faithful, RefsOk, PromptsOk, Thinned, HomesOk, AllReady;
    PruneKeeps(links, path, own1, node, links', path', own', stop, home, leaf', prompt, kv);
    KeptCarry(own, own1, home, leaf, leaf', kv, cells, retained, x);
    ThinKept(path, own1, path', own', home, leaf', leaf', kv, cells, retained, x);
    UpdateReady(own1, home, node, own[node], {}, {});
    assert own1[node := own[node]] == own;
    ThinReady(path, own1, path', own');
  }

  lemma BookingGone(path: Paths, home: Homes, leaf: Homes, prompt: Views)
    requires PromptsOk(path, leaf - {0}, prompt) && Linked(home, leaf, 0)
    ensures PromptsOk(path, leaf - {0}, prompt - {0}) && Linked(home, leaf - {0}, 0)
  {
    var leaf' := leaf - {0};
    forall s | s in leaf'
      ensures s in prompt - {0} && leaf'[s] in path && path[leaf'[s]] <= (prompt - {0})[s]
      ensures (leaf'[s] == ROOT <==> (prompt - {0})[s] == [])
    {
      var node := leaf'[s];
      assert s in prompt && path[node] <= prompt[s];
      assert (prompt - {0})[s] == prompt[s];
    }
  }

  lemma IdOutOfPool(id: SeqId, free: seq<SeqId>, home: Homes, leaf: Homes, kv: Views, max: int)
    requires PoolOk([id] + free, home, kv, max) && Linked(home, leaf, 0)
    ensures 1 <= id < max && id !in home && id !in leaf && id in kv && kv[id] == [] && 0 !in home
  {
    assert id in [id] + free;
  }

  lemma TookFromPool(id: SeqId, free: seq<SeqId>, home: Homes, kv: Views, max: int, node: Ptr, view: Word)
    requires PoolOk([id] + free, home, kv, max)
    ensures PoolOk(free, home[id := node], kv[id := view], max)
  {
    var all := [id] + free;
    assert all[0] == id && forall i | 0 <= i < |free| :: all[i + 1] == free[i];
    forall i, j | 0 <= i < j < |free| ensures free[i] != free[j] {
      assert all[i + 1] != all[j + 1];
    }
    forall s | s in free ensures s != id && s in all {
      var i :| 0 <= i < |free| && free[i] == s;
      assert all[0] != all[i + 1];
    }
    var home', kv' := home[id := node], kv[id := view];
    assert NoDuplicates(free);
    forall s ensures 1 <= s < max <==> s in free || s in home' {
      assert s in all <==> s == id || s in free;
    }
    forall s | s in free ensures s !in home' && s in kv' && kv'[s] == [] {
      assert s in all && s != id;
    }
    forall s | s in home' ensures s in kv' {
      assert s == id || s in home;
    }
  }

  lemma RegisteredFacts(own: Owners, node: Ptr, id: SeqId, len: nat)
    requires node in own
    ensures Registered(own, node, id, len).Keys == own.Keys
    ensures forall p | p in own :: Registered(own, node, id, len)[p].readyIds == own[p].readyIds
  {
  }

  lemma SettleAll(path: Paths, own: Owners, home: Homes, leaf: Homes, prompt: Views, kv: Views, cells: map<SeqId, nat>,
                  retained: set<SeqId>, free: seq<SeqId>, max: int, node: Ptr, id: SeqId, w: Word, view: Word)
    requires TreeOk(path, own, home, leaf, prompt, kv) && KeptOk(own, home, leaf, kv, cells, retained, 0)
    requires Linked(home, leaf, 0) && PoolOk([id] + free, home, kv, max)
    requires node in own && node in path && 0 in leaf && leaf[0] == node && prompt[0] == w && path[node] == w
    ensures var own', home', leaf' := Registered(own, node, id, |w|), home[id := node], (leaf - {0})[id := node];
            && TreeOk(path, own', home', leaf', prompt[id := w] - {0}, kv[id := view])
            && KeptOk(own', home', leaf', kv[id := view], cells[id := |view|], retained - {id}, 0)
            && Linked(home', leaf', 0) && PoolOk(free, home', kv[id := view], max)
            && AllReady(own') == AllReady(own) && id !in AllReady(own')
    ensures 1 <= id < max && id !in home && id !in leaf && id in kv && kv[id] == []
  {
    hide TreeOk, Linked, PoolOk, KeptOk, AllReady, Registered;
    var own' := Registered(own, node, id, |w|);
    RegisteredFacts(own, node, id, |w|);
    IdOutOfPool(id, free, home, leaf, kv, max);
    RegisterKeeps(path, own, home, leaf, prompt, kv, node, id, w, view, own');
    SettleKept(path, own, home, leaf, kv, cells, retained, node, id, view, own');
    SettleReady(path, own, home, leaf, prompt, kv, node, id, own');
    TookFromPool(id, free, home, kv, max, node, view);
    SettleLinked(home, leaf, id, node);
  }

  lemma SettleKept(path: Paths, own: Owners, home: Homes, leaf: Homes, kv: Views, cells: map<SeqId, nat>,
                   retained: set<SeqId>, node: Ptr, id: SeqId, view: Word, own': Owners)
    requires KeptOk(own, home, leaf, kv, cells, retained, 0) && id !in home && id !in leaf && id != 0 && node in own
    requires 0 !in home
    requires own'.Keys == own.Keys && forall p | p in own :: own'[p].readyIds == own[p].readyIds
    ensures KeptOk(own', home[id := node], (leaf - {0})[id := node], kv[id := view], cells[id := |view|],
                   retained - {id}, 0)
  {
  }

  lemma SettleReady(path: Paths, own: Owners, home: Homes, leaf: Homes, prompt: Views, kv: Views, node: Ptr, id: SeqId,
                    own': Owners)
    requires TreeOk(path, own, home, leaf, prompt, kv) && id !in home && own'.Keys == own.Keys
    requires forall p | p in own :: own'[p].readyIds == own[p].readyIds
    ensures AllReady(own') == AllReady(own) && id !in AllReady(own')
  {
    forall p, s | p in own && s in own[p].readyIds ensures s in own'[p].readyIds && s in own[p].seqIds {
    }
  }

  lemma SettleLinked(home: Homes, leaf: Homes, id: SeqId, node: Ptr)
    requires Linked(home, leaf, 0) && id !in leaf
    ensures Linked(home[id := node], (leaf - {0})[id := node], 0)
  {
  }

  /** A bound on the depth of a tree. */
  ghost function Longest(path: Paths): (n: nat)
    ensures forall p | p in path :: |path[p]| <= n
    decreases |path|
  {
    if path == map[] then 0
    else
      var p := SomeOf(path.Keys);
      var n := Longest(path - {p});
      assert forall q | q in path && q != p :: q in path - {p};
      if n < |path[p]| then |path[p]| else n
  }

  /** The eviction inside allocation cannot take the node the prompt's reference protects, nor its parent. */
  lemma CacheNodeSurvives(links: Links, path: Paths, own: Owners, home: Homes, leaf: Homes, prompt: Views, kv: Views,
                          m: PrefixMatch)
    requires Shape(links, path) && own.Keys == links.Keys && TreeOk(path, own, home, leaf, prompt, kv)
    requires 0 in leaf && leaf[0] == m.node
    requires m.node == m.cacheNode || (m.node in links ==> links[m.node].parent == m.cacheNode)
    requires m.node == m.cacheNode || m.node != ROOT
    ensures m.node in links && m.cacheNode in links
  {
    HeldIsReferenced(own, leaf, 0);
    if m.node != m.cacheNode { ParentSpells(links, path, m.node); }
  }

  lemma NarrowKept(path: Paths, own: Owners, path': Paths, own': Owners, home: Homes, leaf: Homes, kv: Views,
                   cells: map<SeqId, nat>, retained: set<SeqId>, node: Ptr)
    requires Narrowed(path, own, path', own') && KeptOk(own, home, leaf, kv, cells, retained, 0) && 0 !in home
    ensures KeptOk(own', home, leaf[0 := node], kv, cells, retained, 0)
  {
    KeptCarry(own, own', home, leaf, leaf[0 := node], kv, cells, retained, 0);
  }

  lemma ThinKept(path: Paths, own: Owners, path': Paths, own': Owners, home: Homes, leaf: Homes, leaf': Homes,
                 kv: Views, cells: map<SeqId, nat>, retained: set<SeqId>, x: SeqId)
    requires Thinned(path, own, path', own') && HomesOk(own, home) && KeptOk(own, home, leaf, kv, cells, retained, x)
    requires forall s | s in home :: s in leaf <==> s in leaf'
    ensures KeptOk(own', home, leaf', kv, cells, retained, x)
  {
    KeptCarry(own, own', home, leaf, leaf', kv, cells, retained, x);
  }

  /** What is copied for a prompt are cells computed for the prompt's own tokens. */
  lemma CopiesOwnTokens(path: Paths, own: Owners, kv: Views, cache: Ptr, c: Covering, a: Ptr, w: Word, n: nat, pos: nat)
    requires path.Keys == own.Keys && cache in path && n <= |w| && path[cache] == w[..n]
    requires Faithful(path, own, kv) && IsSource(path, own, cache, c, a)
    requires pos <= n && pos <= c.len
    ensures c.seqId in kv && pos <= |kv[c.seqId]| && kv[c.seqId][..pos] == w[..pos]
  {
    assert path[a] <= kv[c.seqId];
    assert kv[c.seqId][..pos] == path[a][..pos];
    assert w[..pos] == path[cache][..pos];
    if path[a] <= path[cache] {
      assert path[a][..pos] == path[cache][..pos];
    } else {
      assert path[cache][..pos] == path[a][..pos];
    }
  }

  /** With two usable ids, running out means that some other request is live. */
  lemma ExhaustedHasPeer(path: Paths, own: Owners, home: Homes, leaf: Homes, prompt: Views, kv: Views,
                         cells: map<SeqId, nat>, retained: set<SeqId>, max: int)
    requires TreeOk(path, own, home, leaf, prompt, kv) && PoolOk([], home, kv, max)
    requires KeptOk(own, home, leaf, kv, cells, retained, 0) && 0 in leaf
    requires forall p :: !IdleOwner(own, p)
    requires max >= 3
    ensures exists s :: s in leaf && s != 0
  {
    assert 1 in home && 2 in home;
    if 1 !in leaf && 2 !in leaf {
      forall s | s in {1, 2} ensures s in leaf || home[s] == leaf[0] || exists t :: t in leaf && t != 0 {
        var p := home[s];
        assert p != ROOT && own[p].seqIds != {} && !IdleOwner(own, p);
        var t := SomeOf(Holders(leaf, p));
        assert t in leaf && leaf[t] == p;
      }
    }
  }

  /** A live request's id sits on the node it holds, which spells part of its prompt. */
  lemma PromptSpelled(path: Paths, own: Owners, home: Homes, leaf: Homes, prompt: Views, kv: Views, s: SeqId)
    requires TreeOk(path, own, home, leaf, prompt, kv) && Linked(home, leaf, 0) && 0 !in leaf && s in leaf && s in kv
    requires s in prompt && prompt[s] <= kv[s] && prompt[s] != []
    ensures s in home && home[s] == leaf[s] && leaf[s] in own && leaf[s] != ROOT && path[leaf[s]] <= kv[s]
    ensures s in own[leaf[s]].seqIds && forall p | p in own :: own[p].readyIds <= own[p].seqIds
  {
    PrefixTrans(path[leaf[s]], prompt[s], kv[s]);
  }

  lemma MarkKept(own: Owners, home: Homes, leaf: Homes, kv: Views, cells: map<SeqId, nat>, retained: set<SeqId>,
                 s: SeqId, node: Ptr, n: nat)
    requires KeptOk(own, home, leaf, kv, cells, retained, 0) && s in leaf && s in home && node in own
    ensures KeptOk(own[node := own[node].(readyIds := own[node].readyIds + {s})], home, leaf, kv, cells[s := n],
                   retained, 0)
  {
  }

  /** A count may be anything for a live request, and must be exact for a kept sequence. */
  lemma CountSet(own: Owners, home: Homes, leaf: Homes, kv: Views, cells: map<SeqId, nat>, retained: set<SeqId>,
                 s: SeqId, n: nat)
    requires KeptOk(own, home, leaf, kv, cells, retained, 0) && s in cells
    ensures KeptOk(own, home, leaf, kv, cells[s := n], retained, 0) <==> s in leaf || (s in kv && n == |kv[s]|)
  {
    var cells' := cells[s := n];
    assert cells'.Keys == cells.Keys;
    if KeptOk(own, home, leaf, kv, cells', retained, 0) && s !in leaf {
      assert home[s] in own && cells'[s] == |kv[s]|;
    }
  }

  lemma ExcuseLive(own: Owners, home: Homes, leaf: Homes, kv: Views, cells: map<SeqId, nat>, retained: set<SeqId>,
                   max: int, free: seq<SeqId>, s: SeqId)
    requires KeptOk(own, home, leaf, kv, cells, retained, 0) && Linked(home, leaf, 0) && 0 !in leaf
    requires PoolOk(free, home, kv, max)
    ensures KeptOk(own, home, leaf, kv, cells, retained, s) && Linked(home, leaf, s)
  {
  }

  lemma LiveNode(links: Links, path: Paths, own: Owners, home: Homes, leaf: Homes, prompt: Views, kv: Views, s: SeqId)
    requires Shape(links, path) && links.Keys == path.Keys
    requires TreeOk(path, own, home, leaf, prompt, kv) && Linked(home, leaf, 0) && s != 0 && s in leaf
    requires s in AllReady(own)
    ensures s in home && home[s] == leaf[s] && leaf[s] in own && leaf[s] != ROOT && s in own[leaf[s]].readyIds
    ensures s in own[leaf[s]].seqIds
    ensures s in kv && kv[s] != []
  {
    hide Shape, RefsOk, PromptsOk;
    ReadyAtHome(path, own, home, s);
    NodeForEmpty(links, path, leaf[s]);
  }

  ghost predicate Moved(grown: Owners, s: SeqId, node: Ptr, target: Ptr, len: nat, now: nat, own': Owners)
    requires node in grown && target in grown
  {
    own' == if target == node then grown[node := grown[node].(canonicalLen := len)]
            else grown[node := Without(grown[node], s)][target := With(grown[target], s, len, now)]
  }

  /** A ready sequence moves to the node that has been grown for what it holds. */
  lemma ExtendTree(links: Links, path: Paths, own: Owners, home: Homes, leaf: Homes, prompt: Views, kv: Views,
                   s: SeqId, node: Ptr, links': Links, path': Paths, grown: Owners, cache: Ptr, target: Ptr, n: nat,
                   now: nat, own': Owners)
    requires TreeOk(path, own, home, leaf, prompt, kv) && own.Keys == path.Keys && s in kv && kv[s] != []
    requires s in home && home[s] == node && node in own && s in own[node].readyIds
    requires Grown(links, path, kv[s], links', path', cache, target, n) && Padded(own, grown)
    requires grown.Keys == path'.Keys
    requires target in grown && node in grown && Moved(grown, s, node, target, |kv[s]|, now, own')
    ensures TreeOk(path', own', home[s := target], leaf, prompt, kv) && path'[target] == kv[s]
    ensures AllReady(own') == AllReady(own)
  {
    hide TreeOk, Grown, AllReady, Shape;
    PadKeeps(links, path, own, home, leaf, prompt, kv, kv[s], links', path', grown, cache, target, n);
    PadNarrows(links, path, own, kv[s], links', path', grown, cache, target, n);
    NarrowReady(path, own, path', grown);
    NodeForEmpty(links', path', target);
    MovedReady(path', grown, home, leaf, prompt, kv, s, node, target, now, own');
    if target == node {
      assert home[s := target] == home;
      RelengthNode(path', grown, home, leaf, prompt, kv, node, s, |kv[s]|);
    } else {
      MoveKeeps(path', grown, home, leaf, prompt, kv, s, node, target, now, own');
    }
  }

  lemma RelengthNode(path: Paths, own: Owners, home: Homes, leaf: Homes, prompt: Views, kv: Views, node: Ptr, s: SeqId,
                     len: nat)
    requires TreeOk(path, own, home, leaf, prompt, kv) && s in home && home[s] == node && node in path
    requires len == |path[node]|
    ensures node in own && TreeOk(path, own[node := own[node].(canonicalLen := len)], home, leaf, prompt, kv)
  {
    assert s in own[node].seqIds;
    hide TreeOk;
    RelengthKeeps(path, own, home, leaf, prompt, kv, node, len);
  }

  lemma MovedReady(path: Paths, own: Owners, home: Homes, leaf: Homes, prompt: Views, kv: Views,
                   s: SeqId, node: Ptr, target: Ptr, now: nat, own': Owners)
    requires TreeOk(path, own, home, leaf, prompt, kv) && s in home && home[s] == node && node in own
    requires s in own[node].readyIds
    requires target in own && s in kv && Moved(own, s, node, target, |kv[s]|, now, own')
    ensures AllReady(own') == AllReady(own)
  {
    assert s in AllReady(own);
    hide AllReady, RefsOk, PromptsOk, Faithful, HomesOk;
    if target == node {
      UpdateReady(own, home, node, own'[node], {}, {});
    } else {
      FreedReady(path, own, home, s, node);
      LeaverHomes(own, home, node, s, Without(own[node], s));
      ArrivedReady(own[node := Without(own[node], s)], home - {s}, target, s, |kv[s]|, now);
    }
  }

  lemma ArrivedReady(own: Owners, home: Homes, target: Ptr, s: SeqId, len: nat, now: nat)
    requires HomesOk(own, home) && target in own && forall p | p in own :: own[p].readyIds <= own[p].seqIds
    ensures AllReady(own[target := With(own[target], s, len, now)]) == AllReady(own) + {s}
  {
    hide HomesOk, AllReady;
    UpdateReady(own, home, target, With(own[target], s, len, now), {}, {s});
  }

  lemma ExtendKept(own: Owners, home: Homes, leaf: Homes, kv: Views, cells: map<SeqId, nat>, retained: set<SeqId>,
                   s: SeqId, node: Ptr, grown: Owners, target: Ptr, own': Owners, now: nat, len: nat, max: int,
                   free: seq<SeqId>)
    requires KeptOk(own, home, leaf, kv, cells, retained, s) && PoolOk(free, home, kv, max) && s in leaf && s in home
    requires Padded(own, grown) && node in grown && target in grown && Moved(grown, s, node, target, len, now, own')
    ensures KeptOk(own', home[s := target], leaf, kv, cells[s := len], retained, s)
    ensures PoolOk(free, home[s := target], kv, max)
    ensures s in cells
  {
  }

  /** What releasing will find on the node. */
  lemma ReleaseFacts(path: Paths, own: Owners, home: Homes, leaf: Homes, prompt: Views, kv: Views, s: SeqId, node: Ptr)
    requires TreeOk(path, own, home, leaf, prompt, kv) && node in own && (s in home ==> home[s] == node)
    ensures s in home <==> s in own[node].seqIds
    ensures s in home ==> (s in AllReady(own) <==> s in own[node].readyIds)
    ensures s in own[node].seqIds ==> (|own[node].seqIds| <= 1 <==> own[node].seqIds == {s})
    ensures s in own[node].readyIds ==> s in kv && path[node] <= kv[s]
  {
    hide RefsOk, PromptsOk, AllReady;
    if s in home {
      ReadyAtHome(path, own, home, s);
      assert |own[node].seqIds - {s}| == |own[node].seqIds| - 1;
    }
  }

  lemma FreedReady(path: Paths, own: Owners, home: Homes, s: SeqId, node: Ptr)
    requires Canonical(path, own) && HomesOk(own, home) && s in home && home[s] == node && node in own
    ensures AllReady(own[node := Without(own[node], s)]) == AllReady(own) - {s}
  {
    hide AllReady;
    UpdateReady(own, home, node, Without(own[node], s), {s}, {});
  }

  lemma FreedKept(own: Owners, home: Homes, leaf: Homes, kv: Views, cells: map<SeqId, nat>, retained: set<SeqId>,
                  s: SeqId, node: Ptr)
    requires KeptOk(own, home, leaf, kv, cells, retained, s) && s in home && home[s] == node && node in own
    requires Linked(home, leaf, s)
    ensures KeptOk(own[node := Without(own[node], s)], home - {s}, leaf, kv[s := []], cells - {s}, retained - {s}, s)
    ensures Linked(home - {s}, leaf, s)
  {
  }

  /** A ready sequence alone on its node is its own cover; one that is nowhere covers nothing. */
  lemma CoversItself(links: Links, path: Paths, own: Owners, home: Homes, s: SeqId, node: Ptr, c: Covering, a: Ptr)
    requires Shape(links, path) && links.Keys == path.Keys && Canonical(path, own) && HomesOk(own, home) && node in own
    requires c.NoSource? ==> HasNoSource(path, own, node)
    requires c.Source? ==> IsSource(path, own, node, c, a)
    requires s in home ==> s in own[node].readyIds && own[node].seqIds == {s}
    ensures (c.Source? && c.seqId == s) <==> s in home
    ensures s in home ==> c.len == |path[node]|
  {
    hide Shape;
    if s in home {
      assert c.Source?;
      if a != node { Unique(links, path, a, node); }
    } else if c.Source? {
      assert c.seqId in own[a].seqIds;
    }
  }

  lemma TrimKept(own: Owners, home: Homes, leaf: Homes, kv: Views, cells: map<SeqId, nat>, retained: set<SeqId>,
                 s: SeqId, n: nat, max: int, free: seq<SeqId>)
    requires KeptOk(own, home, leaf, kv, cells, retained, s) && PoolOk(free, home, kv, max) && s in home && s in kv
    requires n <= |kv[s]|
    ensures KeptOk(own, home, leaf, kv[s := kv[s][..n]], cells[s := n], retained + {s}, s)
    ensures PoolOk(free, home, kv[s := kv[s][..n]], max)
  {
  }

  lemma SomeoneStays(o: Owned, s: SeqId, o': Owned)
    requires s in o.seqIds && (if o.seqIds == {s} then o' == o else o' == Without(o, s))
    ensures o'.seqIds != {}
  {
    assert o.seqIds == (o.seqIds - {s}) + {s};
  }

  /** A node that owns an id is not pruned. */
  lemma OwnedStays(links: Links, path: Paths, own: Owners, start: Ptr, links': Links, path': Paths, own': Owners,
                   stop: Ptr, p: Ptr)
    requires PrunedTree(links, path, own, start, links', path', own', stop) && p in own && own[p].seqIds != {}
    ensures p in path && p in path' && path'[p] == path[p] && p in own' && own'[p] == own[p]
  {
    assert Pruned(links, path, start, links', path', stop);
  }

  /** Whatever is left was used when it was. */
  ghost predicate SameStamps(own0: Owners, own: Owners) {
    forall p | p in own :: p in own0 && own[p].lastAccess == own0[p].lastAccess
  }

  lemma StampsTwice(own0: Owners, own1: Owners, own2: Owners)
    requires SameStamps(own0, own1) && SameStamps(own1, own2)
    ensures SameStamps(own0, own2)
  {
  }

  lemma LeftStamps(own: Owners, node: Ptr, s: SeqId)
    requires node in own
    ensures SameStamps(own, own) && SameStamps(own, own[node := Without(own[node], s)])
  {
  }

  lemma PrunedStamps(links: Links, path: Paths, own: Owners, node: Ptr, o: Owned, links': Links, path': Paths,
                     own': Owners, stop: Ptr)
    requires PrunedTree(links, path, own[node := o], node, links', path', own', stop)
    requires node in own && o.lastAccess == own[node].lastAccess
    ensures SameStamps(own, own') && NoNodes(path, path')
  {
    PrunedOwners(links, path, own[node := o], node, links', path', own', stop);
    assert Pruned(links, path, node, links', path', stop);
  }

  /** There is no node that was not there before, spelling what it spelled. */
  ghost predicate NoNodes(path0: Paths, path: Paths) {
    forall p | p in path :: p in path0 && path[p] == path0[p]
  }

  lemma OnlyOneDiffers(home: Homes, kv: Views, cells: map<SeqId, nat>, ready: set<SeqId>, s: SeqId, view: Word, n: nat)
    ensures home - {s} - {s} == home - {s} && cells - {s} - {s} == cells - {s} && ready - {s} - {s} == ready - {s}
    ensures kv[s := view] - {s} == kv - {s} && kv[s := []] - {s} == kv - {s} && cells[s := n] - {s} == cells - {s}
  {
  }

  lemma NodeOfHome(path: Paths, own: Owners, home: Homes, s: SeqId)
    requires Canonical(path, own) && HomesOk(own, home) && s in home
    ensures home[s] in path && home[s] in own
  {
  }

  /** A released sequence is gone, or kept ready, alone on its node and counted exactly. */
  lemma LeftAlone(path: Paths, own: Owners, home: Homes, leaf: Homes, prompt: Views, kv: Views, cells: map<SeqId, nat>,
                  retained: set<SeqId>, s: SeqId)
    requires TreeOk(path, own, home, leaf, prompt, kv) && KeptOk(own, home, leaf, kv, cells, retained, s)
    requires Linked(home, leaf, s)
    requires s in home ==> s in retained && home[s] in own && own[home[s]].seqIds == {s} && s in AllReady(own)
    requires s in home ==> s in kv && s in cells && cells[s] == |kv[s]|
    ensures KeptOk(own, home, leaf - {s}, kv, cells, retained, 0) && Linked(home, leaf - {s}, 0)
  {
    hide RefsOk, PromptsOk, Faithful, AllReady;
    if s in home { ReadyAtHome(path, own, home, s); }
  }

  /** Every id on a node is that of a request holding the node, but for one that is kept for reuse. */
  lemma OneSpare(path: Paths, own: Owners, home: Homes, leaf: Homes, prompt: Views, kv: Views, cells: map<SeqId, nat>,
                 retained: set<SeqId>, p: Ptr)
    requires TreeOk(path, own, home, leaf, prompt, kv) && KeptOk(own, home, leaf, kv, cells, retained, 0)
    requires Linked(home, leaf, 0)
    requires p in own && p != ROOT && 0 !in leaf
    ensures own[p].refCount == |Holders(leaf, p)| && |own[p].seqIds| <= own[p].refCount + 1
    ensures Holders(leaf, p) <= own[p].seqIds
  {
    hide PromptsOk, Faithful;
    forall s | s in Holders(leaf, p) ensures s in own[p].seqIds {
      assert leaf[s] == p && home[s] == p;
    }
    hide RefsOk;
    var spare := own[p].seqIds - Holders(leaf, p);
    forall s, t | s in spare && t in spare ensures s == t {
      assert s in own[p].seqIds && t in own[p].seqIds;
      assert home[s] == p && home[t] == p;
      assert s in leaf ==> s in Holders(leaf, p);
      assert t in leaf ==> t in Holders(leaf, p);
    }
    AtMostOne(spare);
    Within(own[p].seqIds - spare, Holders(leaf, p));
    assert |own[p].seqIds - spare| == |own[p].seqIds| - |spare|;
  }

  lemma AtMostOne(a: set<SeqId>)
    requires forall s, t | s in a && t in a :: s == t
    ensures |a| <= 1
  {
    if a != {} {
      var s := SomeOf(a);
      assert forall t | t in a :: t == s;
      assert a == {s};
    }
  }

  lemma Within(a: set<SeqId>, b: set<SeqId>)
    requires a <= b
    ensures |a| <= |b|
  {
    assert b == a + (b - a);
  }

  /** A pending id belongs to a live request. */
  lemma PendingIsLive(path: Paths, own: Owners, home: Homes, leaf: Homes, prompt: Views, kv: Views,
                      cells: map<SeqId, nat>,
                      retained: set<SeqId>, w: Word, sel: set<Ptr>, ready: nat, pending: nat) returns (s: SeqId)
    requires TreeOk(path, own, home, leaf, prompt, kv) && KeptOk(own, home, leaf, kv, cells, retained, 0)
    requires sel <= path.Keys && Assessed(path, own, w, sel, ready, pending) && pending > ready
    ensures s in leaf && s !in AllReady(own)
  {
    hide RefsOk, PromptsOk, Faithful, AllReady, Coverage;
    var p :| p in WithPending(own, sel) && Coverage(path, own, w, p) == pending;
    s := SomeOf(own[p].seqIds - own[p].readyIds);
    assert s in own[p].seqIds && home[s] == p;
    ReadyAtHome(path, own, home, s);
  }

  lemma DecodeKeeps(path: Paths, own: Owners, kv: Views, s: SeqId, tokens: Word)
    requires path.Keys == own.Keys && Faithful(path, own, kv) && s in kv
    ensures Faithful(path, own, kv[s := kv[s] + tokens])
  {
    forall p, t | p in own && t in own[p].readyIds ensures path[p] <= kv[s := kv[s] + tokens][t] {
      if t == s { PrefixTrans(path[p], kv[s], kv[s] + tokens); }
    }
  }

  lemma NoneFree(free: seq<SeqId>, home: Homes, kv: Views)
    requires PoolOk(free, home, kv, 2)
    ensures free == [] || 1 !in home
  {
    if free != [] { assert free[0] in free; }
  }

  lemma NoCells(own: Owners, leaf: Homes, kv: Views, cells: map<SeqId, nat>, retained: set<SeqId>)
    requires KeptOk(own, map[], leaf, kv, cells, retained, 0)
    ensures Total(cells) == 0
  {
    assert cells == map[];
  }

  lemma OnlyOneThere(path: Paths, own: Owners, leaf: Homes, prompt: Views, kv: Views, node: Ptr)
    requires TreeOk(path, own, map[1 := node], leaf, prompt, kv)
    ensures node in own && own[node].seqIds == {1}
  {
    var home: Homes := map[1 := node];
    assert home[1] == node;
    forall s | s in own[node].seqIds ensures s == 1 { assert s in home; }
  }

  lemma SpelledThere(links: Links, path: Paths, own: Owners, prompt: Views, kv: Views,
                     cells: map<SeqId, nat>, retained: set<SeqId>, node: Ptr)
    requires Shape(links, path) && links.Keys == path.Keys && TreeOk(path, own, map[1 := node], map[], prompt, kv)
    requires KeptOk(own, map[1 := node], map[], kv, cells, retained, 0) && 1 in kv && kv[1] <= [7]
    ensures node in path && path[node] == [7] && Total(cells) <= 10 && node != ROOT
  {
    hide Shape;
    var home: Homes := map[1 := node];
    assert home[1] == node;
    NodeForEmpty(links, path, node);
    TotalWithout(cells, 1);
    assert cells - {1} == map[];
  }

  /** With a single usable id the bound of two in `ExhaustedHasPeer` is sharp: once [7] has been served
      and its sequence kept, asking for [7] again is refused although no request is live. */
  method OneUsableIdStarves() returns (m: KVMapper, again: PrepareResult)
    ensures m.Quiet() && m.maxSequences == 2 && m.prefixCacheEnabled && m.leaf == map[] && again == CapacityExhausted
  {
    hide AllReady, Gone, KVMapper.ValidWith, Cleared, Total, LongestSpelled, Reported, CachedPos;
    ghost var node: Ptr;
    m, node := KeepOne();
    ghost var gone: set<SeqId>;
    ghost var hit: Hit;
    ghost var clear: Clearing;
    again, gone, hit, clear := m.PrepareSequence([7]);
  }

  /** The prompt [7] has been served and left; its sequence, the only one there is, is kept. */
  method KeepOne() returns (m: KVMapper, ghost node: Ptr)
    ensures fresh(m) && fresh(m.tree) && m.Quiet() && m.maxSequences == 2 && m.prefixCacheEnabled
    ensures m.highWatermark == 10
    ensures m.leaf == map[] && m.home == map[1 := node] && m.freeSeqIds == [] && m.Starves([7])
  {
    hide AllReady, Linked, TreeOk, PoolOk, KeptOk, Shape, Total;
    var first := ServeOne();
    m, node := first.0, first.1;
    OnlyOneThere(m.tree.path, m.tree.own, m.leaf, m.prompt, m.kv, first.1);
    m.Excused(1);
    m.Finish(1, first.1, first.1);
    assert m.home == map[1 := first.1] && m.leaf == map[];
    NoneFree(m.freeSeqIds, m.home, m.kv);
    SpelledThere(m.tree.links, m.tree.path, m.tree.own, m.prompt, m.kv, m.cellCounts, m.retained, first.1);
    PathKeys(m.tree.links, m.tree.path);
    ParentSpells(m.tree.links, m.tree.path, first.1);
  }

  /** The prompt [7] is decoded and ready. */
  method ServeOne() returns (r: (KVMapper, Ptr))
    ensures fresh(r.0) && fresh(r.0.tree) && r.0.Quiet() && r.0.maxSequences == 2 && r.0.prefixCacheEnabled
    ensures r.0.highWatermark == 10
    ensures r.0.leaf == map[1 := r.1] && r.0.home == map[1 := r.1] && 1 in AllReady(r.0.tree.own) && 1 in r.0.kv
    ensures r.0.kv[1] == [7]
  {
    hide AllReady, Gone, Linked, TreeOk, PoolOk, KeptOk, Cleared, Shape, Total, LongestSpelled, Reported, CachedPos;
    var m := new KVMapper(2, true, 10);
    NoCells(m.tree.own, m.leaf, m.kv, m.cellCounts, m.retained);
    var first, gone, hit, clear := m.PrepareSequence([7]);
    assert m.home == map[1 := first.leafNode] && m.kv[1] + first.delta == [7];
    m.Decoded(first.seqId, first.delta);
    m.MarkSequenceReady(first.seqId, first.leafNode);
    r := (m, first.leafNode);
  }

  /** Once the booking is undone nothing is spelled that was not spelled before. */
  lemma NoNews(path0: Paths, links: Links, path: Paths, own: Owners, cache: Ptr, node: Ptr,
               links': Links, path': Paths, own': Owners, stop: Ptr)
    requires OnlyNewLeaf(path0, links, path, own, cache, node) && own[node].refCount > 0
    requires PrunedTree(links, path, own[node := own[node].(refCount := own[node].refCount - 1)], node, links', path',
                        own', stop)
    ensures forall v | Spells(path', v) :: Spells(path0, v)
  {
    hide Shape, Spells;
    assert Pruned(links, path, node, links', path', stop);
    PathKeys(links, path);
    PathKeys(links', path');
    if node != cache && node in links' {
      // the prune stopped at once, but a childless node without an owner is never a stop
      if stop != node { Unique(links, path, stop, node); }
      ChildStays(links, path, links', path', node);
    }
    assert forall p | p in path' :: Spells(path0, path'[p]);
    forall v | Spells(path', v) ensures Spells(path0, v) {
      SpelledThrough(path0, path', v);
    }
  }

  lemma PathKeys(links: Links, path: Paths)
    requires Shape(links, path)
    ensures links.Keys == path.Keys
  {
  }

  /** A child in a pruned tree was one before. */
  lemma ChildStays(links: Links, path: Paths, links': Links, path': Paths, p: Ptr)
    requires Shape(links, path) && Shape(links', path') && p in links' && p in links && links'.Keys <= links.Keys
    requires forall q | q in links' ::
              q in path && q in path' && path'[q] == path[q] && links'[q].parent == links[q].parent
    ensures links[p].children == map[] ==> links'[p].children == map[]
  {
    hide Shape;
    if links[p].children == map[] && links'[p].children != map[] {
      var k := SomeOf(links'[p].children.Keys);
      EdgeStep(links', path', p, k);
      ParentSpells(links, path, links'[p].children[k]);
    }
  }

  /** The kept sequence's node now spells the prompt itself, so the next attempt ends there too. */
  lemma StarvesAgain(links: Links, path: Paths, own: Owners, node: Ptr,
                     links': Links, path': Paths, own': Owners, stop: Ptr, w: Word)
    requires node in own && own[node].refCount > 0 && node in path && path[node] == w && node != ROOT
    requires own[node].seqIds != {}
    requires PrunedTree(links, path, own[node := own[node].(refCount := own[node].refCount - 1)], node, links', path',
                        own', stop)
    ensures EndsInEdge(links', path', node, w)
  {
    hide Shape;
    OwnedStays(links, path, own[node := own[node].(refCount := own[node].refCount - 1)], node, links', path', own',
               stop, node);
    PathKeys(links', path');
    ParentSpells(links', path', node);
  }

  lemma CopyBounds(enabled: bool, matched: nat, c: Covering, n: nat)
    requires matched <= n
    ensures CachedPos(enabled, matched, c, n) <= matched && (n > 0 ==> CachedPos(enabled, matched, c, n) < n)
    ensures !enabled ==> CachedPos(enabled, matched, c, n) == 0
  {
  }

  /** Registering a pending id does not change which source is reported. */
  lemma SourceKept(links: Links, path: Paths, own: Owners, home: Homes, leaf: Homes, prompt: Views, kv: Views,
                   node: Ptr, id: SeqId, len: nat, cache: Ptr, c: Covering, a: Ptr)
    requires Shape(links, path) && links.Keys == path.Keys && TreeOk(path, own, home, leaf, prompt, kv)
    requires node in own && cache in path && Reported(path, own, cache, c, a)
    ensures Reported(path, Registered(own, node, id, len), cache, c, a)
  {
    hide Shape, HomesOk, RefsOk, PromptsOk;
    var own' := Registered(own, node, id, len);
    assert forall p | p in own :: own'[p].readyIds == own[p].readyIds;
    if c.Source? {
      assert a != ROOT;
      NodeForEmpty(links, path, a);
      assert own[a].seqIds != {};
      assert own'[a].canonicalLen == own[a].canonicalLen;
    }
  }

  /** The sequences of `gone` and nothing else have been freed and emptied. */
  ghost predicate Gone(gone: set<SeqId>, home: Homes, kv: Views, cells: map<SeqId, nat>, ready: set<SeqId>,
                       home': Homes, kv': Views, cells': map<SeqId, nat>, ready': set<SeqId>) {
    && home' == home - gone && kv' == Cleared(kv, gone) && cells' == cells - gone && ready' == ready - gone
  }

  lemma GoneHome(gone: set<SeqId>, home: Homes, kv: Views, cells: map<SeqId, nat>, ready: set<SeqId>,
                 home': Homes, kv': Views, cells': map<SeqId, nat>, ready': set<SeqId>)
    requires Gone(gone, home, kv, cells, ready, home', kv', cells', ready')
    ensures home' == home - gone
  {
  }

  lemma AllGone(gone: set<SeqId>, home: Homes, kv: Views, cells: map<SeqId, nat>, ready: set<SeqId>)
    ensures Gone(gone, home, kv, cells, ready, home - gone, Cleared(kv, gone), cells - gone, ready - gone)
  {
  }

  lemma PrunedFacts(links: Links, path: Paths, own: Owners, node: Ptr, o: Owned, links': Links, path': Paths,
                    own': Owners, stop: Ptr)
    requires PrunedTree(links, path, own[node := o], node, links', path', own', stop) && o.seqIds == {}
    ensures forall p | IdleOwner(own', p) :: IdleOwner(own, p) && own'[p] == own[p]
    ensures forall p | p in links' ::
              p in links && p in path && p in path' && path'[p] == path[p] && links'[p].parent == links[p].parent
  {
    assert Pruned(links, path, node, links', path', stop);
  }

  lemma GoneAll(gone: set<SeqId>, home: Homes, kv: Views, cells: map<SeqId, nat>, ready: set<SeqId>,
                home': Homes, kv': Views, cells': map<SeqId, nat>, ready': set<SeqId>)
    requires Gone(gone, home, kv, cells, ready, home', kv', cells', ready')
    ensures home' == home - gone && kv' == Cleared(kv, gone) && cells' == cells - gone && ready' == ready - gone
  {
  }

  lemma NothingGone(home: Homes, kv: Views, cells: map<SeqId, nat>, ready: set<SeqId>)
    ensures Gone({}, home, kv, cells, ready, home, kv, cells, ready)
  {
  }

  lemma GoneTwice(a: set<SeqId>, b: set<SeqId>, home: Homes, kv: Views, cells: map<SeqId, nat>, ready: set<SeqId>,
                  home1: Homes, kv1: Views, cells1: map<SeqId, nat>, ready1: set<SeqId>,
                  home2: Homes, kv2: Views, cells2: map<SeqId, nat>, ready2: set<SeqId>)
    requires Gone(a, home, kv, cells, ready, home1, kv1, cells1, ready1)
    requires Gone(b, home1, kv1, cells1, ready1, home2, kv2, cells2, ready2)
    ensures Gone(a + b, home, kv, cells, ready, home2, kv2, cells2, ready2)
  {
    ClearedTwice(home, kv, cells, a, b);
  }

  lemma FewerKeys(home: Homes, ids: set<SeqId>)
    requires ids != {} && ids <= home.Keys
    ensures |home - ids| < |home| && home - ids != home
  {
    assert (home - ids).Keys == home.Keys - ids;
    assert |home.Keys - ids| == |home.Keys| - |ids|;
    assert |home| == |home.Keys| && |home - ids| == |(home - ids).Keys|;
    assert |ids| > 0;
  }

  lemma ClearedTwice(home: Homes, kv: Views, cells: map<SeqId, nat>, a: set<SeqId>, b: set<SeqId>)
    ensures home - a - b == home - (a + b) && cells - a - b == cells - (a + b)
    ensures Cleared(Cleared(kv, a), b) == Cleared(kv, a + b)
  {
  }

  lemma ClearedNothing(home: Homes, kv: Views, cells: map<SeqId, nat>)
    ensures home - {} == home && cells - {} == cells && Cleared(kv, {}) == kv
  {
  }

  lemma LinkedAfter(home: Homes, leaf: Homes, x: SeqId, ids: set<SeqId>)
    requires Linked(home, leaf, x) && ids !! leaf.Keys
    ensures Linked(home - ids, leaf, x)
  {
  }

  lemma EvictKept(own: Owners, home: Homes, leaf: Homes, kv: Views, cells: map<SeqId, nat>, retained: set<SeqId>,
                  x: SeqId, node: Ptr, links: Links, path: Paths, links': Links, path': Paths, own': Owners, stop: Ptr)
    requires HomesOk(own, home) && KeptOk(own, home, leaf, kv, cells, retained, x) && node in own
    requires own[node].seqIds !! leaf.Keys && x !in home
    requires PrunedTree(links, path, own[node := own[node].(seqIds := {}, readyIds := {}, canonicalLen := 0)], node,
                        links', path', own', stop)
    ensures KeptOk(own', home - own[node].seqIds, leaf, Cleared(kv, own[node].seqIds), cells - own[node].seqIds,
                   retained - own[node].seqIds, x)
  {
    hide Pruned;
    forall s | s in home && home[s] != node ensures home[s] in own' && own'[home[s]] == own[home[s]] {
    }
  }

  lemma EvictReady(own: Owners, home: Homes, node: Ptr, links: Links, path: Paths, links': Links, path': Paths,
                   own': Owners, stop: Ptr)
    requires Canonical(path, own) && HomesOk(own, home) && node in own
    requires PrunedTree(links, path, own[node := own[node].(seqIds := {}, readyIds := {}, canonicalLen := 0)], node,
                        links', path', own', stop)
    ensures AllReady(own') == AllReady(own) - own[node].seqIds
  {
    var o := own[node].(seqIds := {}, readyIds := {}, canonicalLen := 0);
    UpdateReady(own, home, node, o, own[node].seqIds, {});
    assert Thinned(path, own[node := o], path', own');
    ThinReady(path, own[node := o], path', own');
  }

  lemma ReturnToPool(free: seq<SeqId>, home: Homes, kv: Views, max: int, s: SeqId)
    requires PoolOk(free, home, kv, max) && s in home
    ensures PoolOk(free + [s], home - {s}, kv[s := []], max) && s in kv
  {
  }

  lemma ClearedMore(kv: Views, ids: set<SeqId>, s: SeqId)
    requires s in Cleared(kv, ids)
    ensures Cleared(kv, ids)[s := []] == Cleared(kv, ids + {s})
  {
  }
}
