/** The radix tree object of src/radix_tree.cpp: the operations that walk, grow, prune and
    annotate the trie. */
module Radix {
  import opened Collections
  import opened Tokens
  import opened RadixShape

  type SeqId = int

  /** What requests and physical sequences have attached to a node. */
  datatype Owned = Owned(
    refCount: nat,
    seqIds: set<SeqId>,
    readyIds: set<SeqId>,
    lastAccess: nat,
    canonicalLen: nat)

  type Owners = map<Ptr, Owned>

  const BARE := Owned(0, {}, {}, 0, 0)

  function Min(a: nat, b: nat): (m: nat)
    ensures m <= a && m <= b && (m == a || m == b)
  {
    if a <= b then a else b
  }

  predicate IsBare(o: Owned) { o.refCount == 0 && o.seqIds == {} && o.readyIds == {} && o.canonicalLen == 0 }

  /** Nobody's payload changes and every new node is bare. */
  ghost predicate Padded(own: Owners, own': Owners) {
    && own.Keys <= own'.Keys
    && (forall p | p in own :: own'[p] == own[p])
    && (forall p | p in own' && p !in own :: IsBare(own'[p]))
  }

  lemma PaddedKeys(own: Owners, own': Owners)
    requires Padded(own, own')
    ensures own.Keys <= own'.Keys
  {
  }

  lemma PaddedSelf(own: Owners)
    ensures Padded(own, own)
  {
  }

  lemma PaddedMore(own: Owners, mid: Owners, s: Ptr, o: Owned)
    requires Padded(own, mid) && s !in mid && IsBare(o)
    ensures Padded(own, mid[s := o])
  {
  }

  /** Of the new nodes `leaf` is stamped `now`; any other takes over the stamp of `from`, which was split. */
  ghost predicate Stamps(own: Owners, own': Owners, from: Ptr, leaf: Ptr, now: nat) {
    forall p | p in own' && p !in own ::
      if p == leaf then own'[p].lastAccess == now else from in own && own'[p].lastAccess == own[from].lastAccess
  }

  /** All new nodes take over the stamp of `from`. */
  ghost predicate Inherited(own: Owners, own': Owners, from: Ptr) {
    forall p | p in own' && p !in own :: from in own && own'[p].lastAccess == own[from].lastAccess
  }

  lemma InheritedStamps(own: Owners, mid: Owners, from: Ptr, leaf: Ptr, now: nat)
    requires Inherited(own, mid, from)
    ensures leaf in own ==> Stamps(own, mid, from, leaf, now)
    ensures leaf !in mid ==> Stamps(own, mid[leaf := BARE.(lastAccess := now)], from, leaf, now)
  {
  }

  /** Ready ids sit on their node, and no node was used later than now. */
  ghost predicate PayloadsOk(own: Owners, now: nat) {
    forall p | p in own :: own[p].readyIds <= own[p].seqIds && own[p].lastAccess <= now
  }

  /** Growing keeps that; whatever is not the leaf was used no later than before. */
  lemma PayloadsGrown(own: Owners, own': Owners, from: Ptr, leaf: Ptr, before: nat, now: nat)
    requires PayloadsOk(own, before) && Padded(own, own') && Stamps(own, own', from, leaf, now) && before <= now
    ensures PayloadsOk(own', now) && forall p | p in own' && p != leaf :: own'[p].lastAccess <= before
  {
  }

  lemma PayloadsSplit(own: Owners, p: Ptr, s: Ptr, now: nat)
    requires PayloadsOk(own, now) && p in own && s !in own
    ensures PayloadsOk(own[s := BARE.(lastAccess := own[p].lastAccess)], now)
    ensures Inherited(own, own[s := BARE.(lastAccess := own[p].lastAccess)], p)
  {
  }

  lemma PayloadsLater(own: Owners, now: nat)
    requires PayloadsOk(own, now)
    ensures PayloadsOk(own, now + 1)
  {
  }

  lemma PayloadsFewer(own: Owners, own': Owners, now: nat)
    requires PayloadsOk(own, now) && own'.Keys <= own.Keys && forall p | p in own' :: own'[p] == own[p]
    ensures PayloadsOk(own', now)
  {
  }

  lemma PayloadAt(own: Owners, p: Ptr, now: nat)
    requires PayloadsOk(own, now) && p in own
    ensures own[p].readyIds <= own[p].seqIds && own[p].lastAccess <= now
  {
  }

  lemma StampsTouched(own: Owners, own': Owners, from: Ptr, leaf: Ptr, now: nat, refs: nat)
    requires Stamps(own, own', from, leaf, now) && leaf in own'
    ensures Stamps(own, own'[leaf := own'[leaf].(lastAccess := now, refCount := refs)], from, leaf, now)
  {
  }

  /** A new leaf is made in a tree that has just been walked. */
  lemma NewLeafStamped(own: Owners, mid: Owners, from: Ptr, leaf: Ptr, before: nat, now: nat)
    requires PayloadsOk(own, before) && Padded(own, mid) && Inherited(own, mid, from) && leaf !in mid && before <= now
    ensures var own' := mid[leaf := BARE.(lastAccess := now)];
            PayloadsOk(own', now) && Padded(own, own') && Stamps(own, own', from, leaf, now)
    ensures leaf !in own
  {
  }

  lemma LeafAdded(links0: Links, path0: Paths, own0: Owners, w: Word, links: Links, path: Paths, own: Owners,
                  cache: Ptr, n: nat, leaf: Ptr, before: nat, now: nat)
    requires Found(links0, path0, w, links, path, cache, n) && n < |w| && cache in links && own0.Keys == links0.Keys
    requires own.Keys == links.Keys == path.Keys && leaf !in links && before <= now
    requires PayloadsOk(own0, before) && Padded(own0, own) && Inherited(own0, own, cache)
    ensures var links', path' := LeafLinks(links, cache, w[n..], leaf), path[leaf := w];
            var own' := own[leaf := BARE.(lastAccess := now)];
            && Shape(links', path') && own'.Keys == links'.Keys == path'.Keys && PayloadsOk(own', now)
            && Padded(own0, own') && Stamps(own0, own', cache, leaf, now)
            && Grown(links0, path0, w, links', path', cache, leaf, n)
            && (forall v :: Spells(path', v) <==> Spells(path0, v) || v <= w)
            && links'.Keys == links.Keys + {leaf}
    ensures leaf !in links0
  {
    hide Found, Grown, Shape, Spells, LeafLinks, Padded, PayloadsOk, Inherited, Stamps;
    LeafGrown(links0, path0, w, links, path, cache, n, leaf, LeafLinks(links, cache, w[n..], leaf), path[leaf := w]);
    LeafSpells(links0, path0, w, links, path, cache, n, leaf, path[leaf := w]);
    NewLeafStamped(own0, own, cache, leaf, before, now);
  }

  /** A sequence moves from `node` to `target`, which is used now. */
  lemma MovedPayloads(own: Owners, node: Ptr, target: Ptr, s: SeqId, len: nat, before: nat, now: nat)
    requires PayloadsOk(own, now) && node in own && target in own && node != target && before <= now
    requires forall p | p in own && p != target :: own[p].lastAccess <= before
    ensures var own' := own[node := Without(own[node], s)]
                           [target := own[target].(seqIds := own[target].seqIds + {s},
                                                   readyIds := own[target].readyIds + {s},
                                                   canonicalLen := len, lastAccess := now + 1)];
            PayloadsOk(own', now + 1) && forall p | p in own' && p != target :: own'[p].lastAccess <= before
  {
  }

  /** One payload changes. */
  lemma PayloadChanged(own: Owners, p: Ptr, o: Owned, now: nat)
    requires PayloadsOk(own, now) && o.readyIds <= o.seqIds && o.lastAccess <= now
    ensures PayloadsOk(own[p := o], now)
  {
  }

  /** One more request holds `leaf`, which was just used; nothing else about any payload changes. */
  ghost predicate Acquired(own: Owners, own': Owners, leaf: Ptr, now: nat) {
    && own.Keys <= own'.Keys && leaf in own'
    && (forall p | p in own ::
          own'[p] == if p == leaf then own[p].(refCount := own[p].refCount + 1, lastAccess := now) else own[p])
    && (forall p | p in own' && p !in own ::
          && IsBare(own'[p].(refCount := 0)) && own'[p].refCount == (if p == leaf then 1 else 0)
          && (p == leaf ==> own'[p].lastAccess == now))
  }

  lemma AcquiredFromPadded(own: Owners, mid: Owners, leaf: Ptr, now: nat)
    requires Padded(own, mid) && leaf in mid
    ensures Acquired(own, mid[leaf := mid[leaf].(lastAccess := now, refCount := mid[leaf].refCount + 1)], leaf, now)
  {
  }

  predicate Unowned(o: Owned) { o.refCount == 0 && o.seqIds == {} }

  predicate IdleOwner(own: Owners, p: Ptr) {
    p in own && p != ROOT && own[p].refCount == 0 && own[p].seqIds != {}
  }

  /** A node's payload once `s` has left it. */
  function Without(o: Owned, s: SeqId): Owned {
    o.(seqIds := o.seqIds - {s}, readyIds := o.readyIds - {s},
       canonicalLen := if o.seqIds - {s} == {} then 0 else o.canonicalLen)
  }

  /** The payloads once `id` has been registered on `node`. */
  function Registered(own: Owners, node: Ptr, id: SeqId, len: nat): Owners
    requires node in own
  {
    own[node := own[node].(seqIds := own[node].seqIds + {id},
                           canonicalLen := if own[node].canonicalLen == 0 then len else own[node].canonicalLen)]
  }

  /** A pruned tree keeps the payload of whatever is left, drops only unowned nodes, and stops at
      the root, at an owned node, or where another branch hangs. */
  ghost predicate PrunedTree(links: Links, path: Paths, own: Owners, start: Ptr,
                             links': Links, path': Paths, own': Owners, stop: Ptr) {
    && Pruned(links, path, start, links', path', stop)
    && own.Keys == links.Keys && own'.Keys == links'.Keys
    && (forall p | p in own' :: own'[p] == own[p])
    && (forall p | p in own && p !in own' :: p != ROOT && Unowned(own[p]))
    && (stop == ROOT || !Unowned(own'[stop]) || links'[stop].children != map[])
  }

  datatype PrefixMatch = PrefixMatch(node: Ptr, cacheNode: Ptr, matchedTokens: nat, remaining: Word)

  datatype PrefixAvailability = PrefixAvailability(matchedTokens: nat, readyTokens: nat, pendingTokens: nat)

  /** The part of `w` for which the sequences on `p` are recorded as valid. */
  function Coverage(path: Paths, own: Owners, w: Word, p: Ptr): nat
    requires p in path && p in own
  {
    Min(Lcp(path[p], w), own[p].canonicalLen)
  }

  /** `best` is the largest coverage among the nodes of `sel` (zero when there is none). */
  ghost predicate IsBest(path: Paths, own: Owners, w: Word, sel: set<Ptr>, best: nat)
    requires path.Keys == own.Keys && sel <= path.Keys
  {
    && (forall p | p in sel :: Coverage(path, own, w, p) <= best)
    && (best == 0 || exists p :: p in sel && Coverage(path, own, w, p) == best)
  }

  ghost function TouchedNodes(links: Links, path: Paths, w: Word): (r: set<Ptr>)
    requires links.Keys == path.Keys
  {
    set p | p in links && Touched(links, path, w, p)
  }

  ghost function WithReady(own: Owners, sel: set<Ptr>): (r: set<Ptr>)
    requires sel <= own.Keys
  {
    set p | p in sel && own[p].readyIds != {}
  }

  ghost function WithPending(own: Owners, sel: set<Ptr>): (r: set<Ptr>)
    requires sel <= own.Keys
  {
    set p | p in sel && own[p].seqIds - own[p].readyIds != {}
  }

  /** `ready` and `pending` are the best ready and the best pending coverage among `sel`. */
  ghost predicate Assessed(path: Paths, own: Owners, w: Word, sel: set<Ptr>, ready: nat, pending: nat)
    requires path.Keys == own.Keys && sel <= path.Keys
  {
    && IsBest(path, own, w, WithReady(own, sel), ready)
    && IsBest(path, own, w, WithPending(own, sel), pending)
  }

  /** The assessment of the touched nodes in terms of ids: no id that is not ready covers more than is reported as
      pending and no ready one more than is reported as ready, and what is reported some such id covers. */
  lemma AssessedIds(links: Links, path: Paths, own: Owners, w: Word, ready: nat, pending: nat)
    requires links.Keys == path.Keys == own.Keys
    requires Assessed(path, own, w, TouchedNodes(links, path, w), ready, pending)
    ensures forall p, s | p in links && Touched(links, path, w, p) && s in own[p].seqIds && s !in own[p].readyIds ::
              Coverage(path, own, w, p) <= pending
    ensures forall p, s | p in links && Touched(links, path, w, p) && s in own[p].readyIds ::
              Coverage(path, own, w, p) <= ready
    ensures pending > 0 ==>
              exists p, s :: p in links && Touched(links, path, w, p) && s in own[p].seqIds && s !in own[p].readyIds &&
                             Coverage(path, own, w, p) == pending
    ensures ready > 0 ==>
              exists p, s :: p in links && Touched(links, path, w, p) && s in own[p].readyIds &&
                             Coverage(path, own, w, p) == ready
  {
    hide Touched, Coverage;
    var nodes := TouchedNodes(links, path, w);
    forall p, s | p in links && Touched(links, path, w, p) && s in own[p].seqIds && s !in own[p].readyIds
      ensures Coverage(path, own, w, p) <= pending
    {
      assert s in own[p].seqIds - own[p].readyIds && p in WithPending(own, nodes);
    }
    forall p, s | p in links && Touched(links, path, w, p) && s in own[p].readyIds
      ensures Coverage(path, own, w, p) <= ready
    {
      assert p in WithReady(own, nodes);
    }
    if pending > 0 {
      var p :| p in WithPending(own, nodes) && Coverage(path, own, w, p) == pending;
      var s := SomeOf(own[p].seqIds - own[p].readyIds);
      assert p in links && Touched(links, path, w, p) && s in own[p].seqIds && s !in own[p].readyIds;
    }
    if ready > 0 {
      var p :| p in WithReady(own, nodes) && Coverage(path, own, w, p) == ready;
      var s := SomeOf(own[p].readyIds);
      assert p in links && Touched(links, path, w, p) && s in own[p].readyIds;
    }
  }

  /** Take one more node, of which `covered` tokens agree, into account. */
  function ConsiderAvailability(o: Owned, covered: nat, a: PrefixAvailability): PrefixAvailability {
    var cov := Min(covered, o.canonicalLen);
    if cov == 0 then a
    else
      var a1 := if o.readyIds != {} && a.readyTokens < cov then a.(readyTokens := cov) else a;
      if |o.seqIds| > |o.readyIds| && a1.pendingTokens < cov then a1.(pendingTokens := cov) else a1
  }

  /** There are more ids than ready ones exactly if one of them is not ready. */
  lemma MoreThanReady(o: Owned)
    requires o.readyIds <= o.seqIds
    ensures |o.seqIds| > |o.readyIds| <==> o.seqIds - o.readyIds != {}
  {
    assert o.seqIds == o.readyIds + (o.seqIds - o.readyIds);
  }

  lemma ConsiderOne(path: Paths, own: Owners, w: Word, sel: set<Ptr>, a: PrefixAvailability, p: Ptr)
    requires path.Keys == own.Keys && sel <= path.Keys && p in path && own[p].readyIds <= own[p].seqIds
    requires Assessed(path, own, w, sel, a.readyTokens, a.pendingTokens)
    ensures var a' := ConsiderAvailability(own[p], Lcp(path[p], w), a);
            Assessed(path, own, w, sel + {p}, a'.readyTokens, a'.pendingTokens)
  {
    MoreThanReady(own[p]);
    hide IsBest;
    BestWithOne(path, own, w, WithReady(own, sel), a.readyTokens, p);
    BestWithOne(path, own, w, WithPending(own, sel), a.pendingTokens, p);
    assert WithReady(own, sel + {p}) == if own[p].readyIds != {} then WithReady(own, sel) + {p}
                                        else WithReady(own, sel);
    assert WithPending(own, sel + {p}) == if own[p].seqIds - own[p].readyIds != {} then WithPending(own, sel) + {p}
                                          else WithPending(own, sel);
  }

  lemma BestWithOne(path: Paths, own: Owners, w: Word, sel: set<Ptr>, best: nat, p: Ptr)
    requires path.Keys == own.Keys && sel <= path.Keys && p in path && IsBest(path, own, w, sel, best)
    ensures IsBest(path, own, w, sel + {p},
                   if best < Coverage(path, own, w, p) then Coverage(path, own, w, p) else best)
  {
    if best >= Coverage(path, own, w, p) && best != 0 {
      var q :| q in sel && Coverage(path, own, w, q) == best;
      assert q in sel + {p};
    } else {
      assert p in sel + {p};
    }
  }

  datatype Covering = NoSource | Source(seqId: SeqId, len: nat)

  /** No node on the way from the root to `node` that spells more than `n` tokens is ready. */
  ghost predicate NoneReadyAbove(path: Paths, own: Owners, node: Ptr, n: int)
    requires path.Keys == own.Keys && node in path
  {
    forall b {:trigger path[b]} | b in path && path[b] <= path[node] && n < |path[b]| :: own[b].readyIds == {}
  }

  /** The copy source reported for `node` sits on `a`: the nearest ready ancestor, or, when no
      ancestor is ready, some ready node below.  Its length is what is recorded and spelled there. */
  ghost predicate IsSource(path: Paths, own: Owners, node: Ptr, c: Covering, a: Ptr)
    requires path.Keys == own.Keys && node in path
  {
    && c.Source? && a in path
    && c.seqId in own[a].readyIds && (forall s | s in own[a].readyIds :: c.seqId <= s)
    && c.len == Min(own[a].canonicalLen, |path[a]|)
    && ((path[a] <= path[node] && NoneReadyAbove(path, own, node, |path[a]|)) ||
        (path[node] <= path[a] && NoneReadyAbove(path, own, node, -1)))
  }

  /** Nothing related to `node` is ready. */
  ghost predicate HasNoSource(path: Paths, own: Owners, node: Ptr)
    requires path.Keys == own.Keys && node in path
  {
    forall b {:trigger path[b]} | b in path && (path[b] <= path[node] || path[node] <= path[b]) :: own[b].readyIds == {}
  }

  /** The first element of an ordered set. */
  method First(s: set<SeqId>) returns (m: SeqId)
    requires s != {}
    ensures m in s && forall x | x in s :: m <= x
  {
    m := Pick(s);
    var rest := s - {m};
    while rest != {}
      invariant m in s && rest <= s && forall x | x in s && x !in rest :: m <= x
      decreases rest
    {
      var x := Pick(rest);
      if x < m { m := x; }
      rest := rest - {x};
    }
  }

  /** How many tokens of an edge agree with `tokens` from position `at` on. */
  method CommonRun(edge: Word, tokens: Word, at: nat) returns (k: nat)
    requires at <= |tokens|
    ensures k <= |edge| && at + k <= |tokens|
    ensures edge[..k] == tokens[at..at + k]
    ensures k < |edge| && at + k < |tokens| ==> edge[k] != tokens[at + k]
  {
    k := 0;
    while k < |edge| && at + k < |tokens| && edge[k] == tokens[at + k]
      invariant k <= |edge| && at + k <= |tokens|
      invariant edge[..k] == tokens[at..at + k]
    {
      k := k + 1;
    }
  }

  class RadixTree {
    var links: Links
    var own: Owners
    var tick: nat
    var next: Ptr        // an identity no node has had yet
    ghost var path: Paths

    ghost predicate Valid()
      reads this
    {
      && Shape(links, path)
      && own.Keys == links.Keys == path.Keys
      && (forall p {:trigger p in links} | p in links :: p < next)
      && PayloadsOk(own, tick)
    }

    constructor ()
      ensures Valid()
      ensures links == map[ROOT := Link([], ROOT, map[])] && own == map[ROOT := BARE.(refCount := 1)]
      ensures path == map[ROOT := []] && tick == 0
    {
      links := map[ROOT := Link([], ROOT, map[])];
      own := map[ROOT := BARE.(refCount := 1)];
      path := map[ROOT := []];
      tick, next := 0, 1;
    }

    method SplitNode(p: Ptr, splitPos: nat)
      requires Valid() && p in links && p != ROOT && 0 < splitPos < |links[p].tokens| <= |path[p]|
      modifies this
      ensures Valid() && tick == old(tick)
      ensures links == SplitLinks(old(links), p, splitPos, old(next))
      ensures path == SplitPaths(old(links), old(path), p, splitPos, old(next))
      ensures old(next) !in old(links) && own == old(own)[old(next) := BARE.(lastAccess := old(own)[p].lastAccess)]
    {
      hide Shape, SplitLinks, SplitPaths, PayloadsOk;
      PayloadsSplit(own, p, next, tick);
      SplitShape(links, path, p, splitPos, next,
                 SplitLinks(links, p, splitPos, next), SplitPaths(links, path, p, splitPos, next));
      path := SplitPaths(links, path, p, splitPos, next);
      links := SplitLinks(links, p, splitPos, next);
      own := own[next := BARE.(lastAccess := own[p].lastAccess)];
      next := next + 1;
    }

    /** Walk down as far as `tokens` agrees with the tree, splitting the node it ends inside. */
    method FindPrefix(tokens: Word) returns (cur: Ptr, matched: nat)
      requires Valid()
      modifies this
      ensures Valid() && tick == old(tick)
      ensures Found(old(links), old(path), tokens, links, path, cur, matched) && cur in links && matched <= |tokens|
      ensures Padded(old(own), own) && Inherited(old(own), own, cur) && cur in old(own)
    {
      hide Found, LongestSpelled, Shape, SplitLinks, SplitPaths, Padded, PayloadsOk;
      PaddedSelf(own);
      cur, matched := ROOT, 0;
      RootSpellsNothing(links, path);
      while matched < |tokens|
        invariant links == old(links) && path == old(path) && own == old(own) && next == old(next) && tick == old(tick)
        invariant cur in links && matched <= |tokens| && path[cur] == tokens[..matched]
        decreases |tokens| - matched
      {
        var nextToken := tokens[matched];
        if nextToken !in links[cur].children { break; }
        var child := links[cur].children[nextToken];
        EdgeStep(links, path, cur, nextToken);
        var k := CommonRun(links[child].tokens, tokens, matched);
        assert path[child][..matched + k] == path[cur] + links[child].tokens[..k] == tokens[..matched + k];
        if k < |links[child].tokens| {
          StuckInside(links, path, child, tokens, matched + k);
          SplitNode(child, k);
          PaddedMore(old(own), old(own), old(next), own[old(next)]);
          SplitFound(old(links), old(path), tokens, matched + k, child, k, old(next), links, path);
          cur, matched := child, matched + k;
          return;
        }
        cur, matched := child, matched + k;
      }
      StayFound(links, path, tokens, cur, matched);
    }

    /** Make the tree spell `tokens`; the strings it spells grow by the prefixes of `tokens` only.  A new leaf is
        stamped with the tick, which counts on first if `bump` says so. */
    method Grow(tokens: Word, bump: bool) returns (cache: Ptr, leaf: Ptr, matched: nat)
      requires Valid()
      modifies this
      ensures Valid() && tick == old(tick) + if bump && matched < |tokens| then 1 else 0
      ensures Stamps(old(own), own, cache, leaf, tick)
      ensures Grown(old(links), old(path), tokens, links, path, cache, leaf, matched)
      ensures leaf in links && matched <= |tokens| && Padded(old(own), own)
      ensures if matched < |tokens| then leaf !in old(links) else leaf == cache
      ensures forall v :: Spells(path, v) <==> Spells(old(path), v) || v <= tokens
    {
      hide Found, Grown, Shape, Spells, Padded, PayloadsOk, Inherited, Stamps;
      cache, matched := FindPrefix(tokens);
      leaf := cache;
      InheritedStamps(old(own), own, cache, cache, tick);
      if matched < |tokens| {
        leaf := AddLeaf(tokens, cache, matched, bump, old(links), old(path), old(own));
      } else {
        StayGrown(old(links), old(path), tokens, links, path, cache);
      }
    }

    /** Hang the rest of `tokens` below the node the walk ended on. */
    method AddLeaf(tokens: Word, cache: Ptr, matched: nat, bump: bool, ghost links0: Links, ghost path0: Paths,
                   ghost own0: Owners)
      returns (leaf: Ptr)
      requires Valid() && matched < |tokens| && cache in links && own0.Keys == links0.Keys
      requires Found(links0, path0, tokens, links, path, cache, matched)
      requires PayloadsOk(own0, tick) && Padded(own0, own) && Inherited(own0, own, cache)
      modifies this
      ensures Valid() && tick == old(tick) + if bump then 1 else 0
      ensures leaf in links && leaf !in links0 && Padded(own0, own) && Stamps(own0, own, cache, leaf, tick)
      ensures Grown(links0, path0, tokens, links, path, cache, leaf, matched)
      ensures forall v :: Spells(path, v) <==> Spells(path0, v) || v <= tokens
    {
      hide Found, Grown, Shape, Spells, LeafLinks, Padded, PayloadsOk, Inherited, Stamps;
      var now := if bump then tick + 1 else tick;
      leaf := next;
      LeafAdded(links0, path0, own0, tokens, links, path, own, cache, matched, leaf, tick, now);
      links := LeafLinks(links, cache, tokens[matched..], leaf);
      path := path[leaf := tokens];
      own := own[leaf := BARE.(lastAccess := now)];
      tick, next := now, leaf + 1;
    }

    /** Add a prompt and take a reference on the node that spells it. */
    method Insert(promptTokens: Word) returns (m: PrefixMatch)
      requires Valid()
      modifies this
      ensures Valid() && tick == old(tick) + 1
      ensures Grown(old(links), old(path), promptTokens, links, path, m.cacheNode, m.node, m.matchedTokens)
      ensures m.remaining == promptTokens[m.matchedTokens..]
      ensures forall v :: Spells(path, v) <==> Spells(old(path), v) || v <= promptTokens
      ensures Acquired(old(own), own, m.node, tick) && Stamps(old(own), own, m.cacheNode, m.node, tick)
      ensures own[m.node].lastAccess == tick && forall p | p in own && p != m.node :: own[p].lastAccess <= old(tick)
    {
      hide Grown, Shape, Spells, Padded, Acquired, PayloadsOk, Stamps;
      PayloadsLater(own, tick);
      tick := tick + 1;
      var cache, leaf, matched := Grow(promptTokens, false);
      ghost var grown := own;
      PayloadsGrown(old(own), own, cache, leaf, old(tick), tick);
      AcquiredFromPadded(old(own), own, leaf, tick);
      StampsTouched(old(own), own, cache, leaf, tick, own[leaf].refCount + 1);
      assert own[leaf].readyIds <= own[leaf].seqIds by { PayloadAt(own, leaf, tick); }
      PayloadChanged(own, leaf, own[leaf].(lastAccess := tick, refCount := own[leaf].refCount + 1), tick);
      m := PrefixMatch(leaf, cache, matched, promptTokens[matched..]);
      own := own[leaf := own[leaf].(lastAccess := tick, refCount := own[leaf].refCount + 1)];
    }

    /** Remove `start` and then its ancestors for as long as they are unowned and childless. */
    method PruneEmptyLeaves(start: Ptr) returns (ghost stop: Ptr)
      requires Valid() && start in links
      modifies this
      ensures Valid() && tick == old(tick)
      ensures PrunedTree(old(links), old(path), old(own), start, links, path, own, stop)
    {
      hide Shape, DropLinks, Pruned, PayloadsOk;
      PrunedStart(links, path, start);
      var cur := start;
      while cur != ROOT && own[cur].refCount == 0 && own[cur].seqIds == {} && links[cur].children == map[]
        invariant Valid() && tick == old(tick) && next == old(next) && cur in links
        invariant Pruned(old(links), old(path), start, links, path, cur)
        invariant own.Keys <= old(own).Keys
        invariant forall p | p in own :: own[p] == old(own)[p]
        invariant forall p | p in old(own) && p !in own :: p != ROOT && Unowned(old(own)[p])
        decreases |path[cur]|
      {
        PruneStep(old(links), old(path), start, links, path, cur);
        var parent := links[cur].parent;
        path := path - {cur};
        links := DropLinks(links, cur);
        PayloadsFewer(own, own - {cur}, tick);
        own := own - {cur};
        cur := parent;
      }
      stop := cur;
    }

    /** Give back one reference; the node and its newly useless ancestors may go. */
    method Release(node: Ptr) returns (ghost stop: Ptr)
      requires Valid() && node in links
      modifies this
      ensures Valid() && tick == old(tick)
      ensures old(own)[node].refCount == 0 ==> links == old(links) && path == old(path) && own == old(own)
      ensures old(own)[node].refCount > 0 ==>
                PrunedTree(old(links), old(path),
                           old(own)[node := old(own)[node].(refCount := old(own)[node].refCount - 1)],
                           node, links, path, own, stop)
    {
      stop := node;
      if own[node].refCount > 0 {
        own := own[node := own[node].(refCount := own[node].refCount - 1)];
        stop := PruneEmptyLeaves(node);
      }
    }

    /** Take every physical sequence off an idle node. */
    method Evict(node: Ptr) returns (evicted: set<SeqId>, ghost stop: Ptr)
      requires Valid() && node in links
      modifies this
      ensures Valid() && tick == old(tick)
      ensures !IdleOwner(old(own), node) ==>
                evicted == {} && links == old(links) && path == old(path) && own == old(own)
      ensures IdleOwner(old(own), node) ==>
                && evicted == old(own)[node].seqIds
                && PrunedTree(old(links), old(path),
                              old(own)[node := old(own)[node].(seqIds := {}, readyIds := {}, canonicalLen := 0)],
                              node, links, path, own, stop)
    {
      stop := node;
      if node == ROOT || own[node].refCount != 0 || own[node].seqIds == {} {
        return {}, node;
      }
      evicted := own[node].seqIds;
      own := own[node := own[node].(seqIds := {}, readyIds := {}, canonicalLen := 0)];
      stop := PruneEmptyLeaves(node);
    }

    method RegisterSeqId(node: Ptr, seqId: SeqId, canonicalLen: nat)
      requires Valid() && node in links
      modifies this`own
      ensures Valid()
      ensures own == Registered(old(own), node, seqId, canonicalLen)
      ensures own.Keys == old(own).Keys && forall p | p in own && p != node :: own[p] == old(own)[p]
      ensures own[node].seqIds == old(own)[node].seqIds + {seqId} && own[node].readyIds == old(own)[node].readyIds
      ensures own[node].refCount == old(own)[node].refCount && own[node].lastAccess == old(own)[node].lastAccess
      ensures own[node].canonicalLen ==
                if old(own)[node].canonicalLen == 0 then canonicalLen else old(own)[node].canonicalLen
    {
      own := own[node := own[node].(seqIds := own[node].seqIds + {seqId})];
      if own[node].canonicalLen == 0 {
        own := own[node := own[node].(canonicalLen := canonicalLen)];
      }
    }

    method MarkSeqIdReady(node: Ptr, seqId: SeqId)
      requires Valid() && node in links
      modifies this`own
      ensures Valid()
      ensures own == if seqId in old(own)[node].seqIds
                     then old(own)[node := old(own)[node].(readyIds := old(own)[node].readyIds + {seqId})]
                     else old(own)
    {
      if seqId in own[node].seqIds {
        own := own[node := own[node].(readyIds := own[node].readyIds + {seqId})];
      }
    }

    /** True when the caller must free `seqId`; a sole ready sequence stays as the cached copy. */
    method ReleaseSeqId(node: Ptr, seqId: SeqId, retain: bool) returns (freed: bool)
      requires Valid() && node in links
      modifies this`own
      ensures Valid()
      ensures freed <==> seqId in old(own)[node].seqIds &&
                         !(retain && seqId in old(own)[node].readyIds && |old(own)[node].seqIds| <= 1)
      ensures own == if freed then old(own)[node := Without(old(own)[node], seqId)] else old(own)
      ensures freed ==> own[node].seqIds == old(own)[node].seqIds - {seqId}
      ensures freed ==> own[node].readyIds == old(own)[node].readyIds - {seqId}
      ensures freed ==>
                own[node].refCount == old(own)[node].refCount && own[node].lastAccess == old(own)[node].lastAccess
      ensures freed ==> own[node].canonicalLen == if own[node].seqIds == {} then 0 else old(own)[node].canonicalLen
    {
      if seqId !in own[node].seqIds { return false; }
      if retain && seqId in own[node].readyIds && |own[node].seqIds| <= 1 { return false; }
      own := own[node := Without(own[node], seqId)];
      return true;
    }

    /** Move a ready sequence to the node that spells all of its valid tokens. */
    method ExtendSeqId(node: Ptr, seqId: SeqId, tokens: Word, canonicalLen: int)
      returns (target: Ptr, ghost cache: Ptr, ghost matched: nat, ghost grown: Owners)
      requires Valid() && node in links
      modifies this
      ensures Valid() && target in links
      ensures var go := tokens != [] && 0 < canonicalLen <= |tokens| &&
                        seqId in old(own)[node].seqIds && seqId in old(own)[node].readyIds;
              && (!go ==> target == node && links == old(links) && path == old(path) && own == old(own))
              && (go ==>
                    && Grown(old(links), old(path), tokens, links, path, cache, target, matched)
                    && Padded(old(own), grown) && grown.Keys == links.Keys
                    && own == if target == node then grown[node := grown[node].(canonicalLen := canonicalLen)]
                              else grown[node := Without(grown[node], seqId)]
                                        [target := grown[target].(seqIds := grown[target].seqIds + {seqId},
                                                                  readyIds := grown[target].readyIds + {seqId},
                                                                  canonicalLen := canonicalLen, lastAccess := tick)])
      ensures var go := tokens != [] && 0 < canonicalLen <= |tokens| &&
                        seqId in old(own)[node].seqIds && seqId in old(own)[node].readyIds;
              tick == old(tick) + if !go || target == node then 0 else if matched < |tokens| then 2 else 1
      ensures target != node ==> forall p | p in own && p != target :: own[p].lastAccess <= old(tick)
    {
      hide Grown, Shape, Spells, Padded, Without, PayloadsOk, Stamps;
      target, cache, matched, grown := node, node, 0, own;
      if tokens == [] || canonicalLen <= 0 || canonicalLen > |tokens| ||
         seqId !in own[node].seqIds || seqId !in own[node].readyIds {
        return;
      }
      ghost var own0 := own;
      var c, t, m := Grow(tokens, true);
      PaddedKeys(own0, own);
      PayloadsGrown(own0, own, c, t, old(tick), tick);
      PayloadAt(own, node, tick);
      cache, target, matched, grown := c, t, m, own;
      if target == node {
        PayloadChanged(own, node, own[node].(canonicalLen := canonicalLen), tick);
        own := own[node := own[node].(canonicalLen := canonicalLen)];
        return;
      }
      MovedPayloads(own, node, target, seqId, canonicalLen, old(tick), tick);
      own, tick := own[node := Without(own[node], seqId)], tick + 1;
      own := own[target := own[target].(seqIds := own[target].seqIds + {seqId},
                                        readyIds := own[target].readyIds + {seqId},
                                        canonicalLen := canonicalLen, lastAccess := tick)];
    }

    method CumulativeTokenDepth(node: Ptr) returns (depth: nat)
      requires Valid() && node in links
      ensures depth == |path[node]|
    {
      var cur := node;
      depth := |links[node].tokens|;
      assert NodeOk(links, path, cur);
      while cur != ROOT
        invariant cur in links && path[cur] <= path[node] && depth == |path[node]| - |path[cur]| + |links[cur].tokens|
        invariant cur == ROOT ==> links[cur].tokens == [] && path[cur] == []
        decreases |path[cur]|
      {
        assert NodeOk(links, path, cur);
        cur := links[cur].parent;
        assert NodeOk(links, path, cur);
        depth := depth + |links[cur].tokens|;
      }
    }

    /** Longest spelled prefix and best ready and pending coverage, without changing anything. */
    method InspectPrefix(tokens: Word) returns (a: PrefixAvailability)
      requires Valid()
      ensures LongestSpelled(path, tokens, a.matchedTokens)
      ensures Assessed(path, own, tokens, TouchedNodes(links, path, tokens), a.readyTokens, a.pendingTokens)
    {
      hide Shape, LongestSpelled, Assessed, Lcp, Touched, TouchedNodes, TouchedUpTo;
      var cur, matched := ROOT, 0;
      a := PrefixAvailability(0, 0, 0);
      ghost var seen: set<Ptr> := {};
      RootSpellsNothing(links, path);
      NothingSeen(links, path, own, tokens);
      while matched < |tokens|
        invariant cur in links && matched <= |tokens| && path[cur] == tokens[..matched]
        invariant seen == TouchedUpTo(links, path, tokens, cur) && seen <= path.Keys
        invariant Assessed(path, own, tokens, seen, a.readyTokens, a.pendingTokens)
        decreases |tokens| - matched
      {
        var nextToken := tokens[matched];
        if nextToken !in links[cur].children { break; }
        var child := links[cur].children[nextToken];
        EdgeStep(links, path, cur, nextToken);
        var k := CommonRun(links[child].tokens, tokens, matched);
        assert path[child][..matched + k] == path[cur] + links[child].tokens[..k] == tokens[..matched + k];
        LcpIs(path[child], tokens, matched + k);
        ConsiderOne(path, own, tokens, seen, a, child);
        SeenStep(links, path, tokens, cur, child);
        a := ConsiderAvailability(own[child], matched + k, a);
        seen := seen + {child};
        if k < |links[child].tokens| {
          StuckInside(links, path, child, tokens, matched + k);
          return a.(matchedTokens := matched + k);
        }
        cur, matched := child, matched + k;
      }
      LongestHere(links, path, tokens, cur);
      return a.(matchedTokens := matched);
    }

    /** Find a ready sequence for `node`: walk up first, then search below. */
    method FindCoveringSeqId(node: Ptr, ghost bound: nat) returns (c: Covering, ghost a: Ptr)
      requires Valid() && node in links
      requires forall p | p in path :: |path[p]| <= bound
      ensures c.NoSource? ==> HasNoSource(path, own, node)
      ensures c.Source? ==> IsSource(path, own, node, c, a)
      decreases bound - |path[node]|
    {
      hide Shape;
      var ancestor := node;
      a := node;
      while true
        invariant ancestor in links && path[ancestor] <= path[node]
        invariant NoneReadyAbove(path, own, node, |path[ancestor]|)
        decreases |path[ancestor]|
      {
        if own[ancestor].readyIds != {} {
          var s := First(own[ancestor].readyIds);
          var depth := CumulativeTokenDepth(ancestor);
          a := ancestor;
          return Source(s, Min(own[ancestor].canonicalLen, depth)), ancestor;
        }
        AncestorStep(links, path, own, node, ancestor);
        if ancestor == ROOT { break; }
        ancestor := links[ancestor].parent;
      }
      var keys := links[node].children.Keys;
      while keys != {}
        invariant keys <= links[node].children.Keys
        invariant forall k | k in links[node].children && k !in keys ::
                    links[node].children[k] in path && HasNoSource(path, own, links[node].children[k])
        decreases keys
      {
        var key := Pick(keys);
        var child := links[node].children[key];
        EdgeStep(links, path, node, key);
        c, a := FindCoveringSeqId(child, bound);
        if c.Source? {
          SourceBelowChild(links, path, own, node, child, c, a);
          return;
        }
        keys := keys - {key};
      }
      NoSourceBelow(links, path, own, node);
      c := NoSource;
    }

    /** The idle owners, found by a search from the root.  The order in which the pending nodes are
        taken off the work list decides nothing, so the list is a set here. */
    method IdleOwners() returns (found: set<Ptr>)
      requires Valid()
      ensures forall p :: p in found <==> IdleOwner(own, p)
    {
      hide Shape, Frontier;
      found := {};
      var work := {ROOT};
      FrontierStart(links);
      ghost var visited: set<Ptr> := {};
      RootSpellsNothing(links, path);
      while work != {}
        invariant Frontier(links, visited, work) && work <= links.Keys && visited <= links.Keys && visited !! work
        invariant forall p :: p in found <==> p in visited && IdleOwner(own, p)
        decreases links.Keys - visited
      {
        var node := Pick(work);
        if node != ROOT && own[node].refCount == 0 && own[node].seqIds != {} {
          found := found + {node};
        }
        var children := Children(node);
        FrontierStep(links, visited, work, node, children);
        visited := visited + {node};
        work := work - {node} + children;
      }
      FrontierDone(links, visited);
      AllVisited(links, path, visited);
    }

    method Children(node: Ptr) returns (cs: set<Ptr>)
      requires Valid() && node in links
      ensures forall c :: c in cs <==> c in links && c != ROOT && links[c].parent == node
    {
      hide Shape;
      cs := set k | k in links[node].children :: links[node].children[k];
      forall c | c in cs ensures c in links && c != ROOT && links[c].parent == node {
        var k :| k in links[node].children && links[node].children[k] == c;
        EdgeStep(links, path, node, k);
      }
      forall c | c in links && c != ROOT && links[c].parent == node ensures c in cs {
        ParentKnows(links, path, c);
        var k := links[c].tokens[0];
        assert links[node].children[k] == c;
      }
    }

    /** The `count` least recently used idle owners, oldest first. */
    method FindEvictionCandidates(count: nat) returns (candidates: seq<Ptr>)
      requires Valid()
      ensures |candidates| <= count
      ensures forall i | 0 <= i < |candidates| :: IdleOwner(own, candidates[i])
      ensures forall i, j | 0 <= i < j < |candidates| ::
                candidates[i] != candidates[j] && NoLater(own, candidates[i], candidates[j])
      ensures forall p | IdleOwner(own, p) && p !in candidates ::
                |candidates| == count && forall i | 0 <= i < |candidates| :: NoLater(own, candidates[i], p)
    {
      var rest := IdleOwners();
      candidates := [];
      while rest != {} && |candidates| < count
        invariant |candidates| <= count
        invariant forall p :: IdleOwner(own, p) <==> p in rest || p in candidates
        invariant forall i | 0 <= i < |candidates| :: IdleOwner(own, candidates[i]) && candidates[i] !in rest
        invariant forall i, j | 0 <= i < j < |candidates| ::
                  candidates[i] != candidates[j] && NoLater(own, candidates[i], candidates[j])
        invariant forall i, p | 0 <= i < |candidates| && p in rest :: NoLater(own, candidates[i], p)
        decreases rest
      {
        var oldest := Oldest(own, rest);
        candidates := candidates + [oldest];
        rest := rest - {oldest};
      }
    }
  }

  predicate NoLater(own: Owners, p: Ptr, q: Ptr) {
    p in own && q in own && own[p].lastAccess <= own[q].lastAccess
  }

  method Oldest(own: Owners, s: set<Ptr>) returns (m: Ptr)
    requires s != {} && s <= own.Keys
    ensures m in s && forall p | p in s :: NoLater(own, m, p)
  {
    m := Pick(s);
    var rest := s - {m};
    while rest != {}
      invariant m in s && rest <= s && forall p | p in s && p !in rest :: NoLater(own, m, p)
      decreases rest
    {
      var p := Pick(rest);
      if own[p].lastAccess < own[m].lastAccess { m := p; }
      rest := rest - {p};
    }
  }

  /** If `ancestor` is not ready either, the unready stretch reaches up to its parent. */
  lemma AncestorStep(links: Links, path: Paths, own: Owners, node: Ptr, ancestor: Ptr)
    requires Shape(links, path) && own.Keys == path.Keys && node in links && ancestor in links
    requires path[ancestor] <= path[node] && NoneReadyAbove(path, own, node, |path[ancestor]|)
    requires own[ancestor].readyIds == {}
    ensures ancestor == ROOT ==> NoneReadyAbove(path, own, node, -1)
    ensures ancestor != ROOT ==>
              && links[ancestor].parent in links && path[links[ancestor].parent] <= path[node]
              && |path[links[ancestor].parent]| < |path[ancestor]|
              && NoneReadyAbove(path, own, node, |path[links[ancestor].parent]|)
  {
    assert NodeOk(links, path, ancestor);
    if ancestor == ROOT {
      forall b | b in path && path[b] <= path[node] ensures own[b].readyIds == {} {
        if |path[b]| == 0 { Unique(links, path, b, ROOT); }
      }
    } else {
      var up := links[ancestor].parent;
      PrefixTrans(path[up], path[ancestor], path[node]);
      forall b | b in path && path[b] <= path[node] && |path[up]| < |path[b]| ensures own[b].readyIds == {} {
        if |path[b]| <= |path[ancestor]| {
          PrefixesOrdered(path[b], path[ancestor], path[node]);
          BetweenParent(links, path, ancestor, b);
        }
      }
    }
  }

  lemma SourceBelowChild(links: Links, path: Paths, own: Owners, node: Ptr, child: Ptr, c: Covering, a: Ptr)
    requires Shape(links, path) && own.Keys == path.Keys && node in links && child in links && child != ROOT
    requires links[child].parent == node && path[node] <= path[child]
    requires NoneReadyAbove(path, own, node, -1) && IsSource(path, own, child, c, a)
    ensures IsSource(path, own, node, c, a)
  {
    if path[a] <= path[child] {
      if |path[a]| <= |path[node]| {
        PrefixesOrdered(path[a], path[node], path[child]);
      } else {
        BetweenParent(links, path, child, a);
      }
    } else {
      PrefixTrans(path[node], path[child], path[a]);
    }
  }

  lemma NoSourceBelow(links: Links, path: Paths, own: Owners, node: Ptr)
    requires Shape(links, path) && own.Keys == path.Keys && node in links
    requires NoneReadyAbove(path, own, node, -1)
    requires forall k | k in links[node].children ::
               links[node].children[k] in path && HasNoSource(path, own, links[node].children[k])
    ensures HasNoSource(path, own, node)
  {
    forall b | b in path && path[node] <= path[b] && path[b] != path[node] ensures own[b].readyIds == {} {
      Toward(links, path, node, b);
      var k := path[b][|path[node]|];
      assert HasNoSource(path, own, links[node].children[k]);
    }
  }

  /** A search from the root: `work` is exactly what hangs below the visited nodes and is not visited. */
  ghost predicate Frontier(links: Links, visited: set<Ptr>, work: set<Ptr>) {
    && visited + work <= links.Keys && visited !! work && ROOT in visited + work
    && (forall p | p in links && p != ROOT && links[p].parent in visited :: p in visited + work)
    && (forall p | p in visited + work && p != ROOT :: links[p].parent in visited)
  }

  lemma FrontierStart(links: Links)
    ensures ROOT in links ==> Frontier(links, {}, {ROOT})
  {
  }

  lemma FrontierStep(links: Links, visited: set<Ptr>, work: set<Ptr>, node: Ptr, children: set<Ptr>)
    requires Frontier(links, visited, work) && node in work
    requires forall c :: c in children <==> c in links && c != ROOT && links[c].parent == node
    ensures Frontier(links, visited + {node}, work - {node} + children)
  {
    assert children !! visited + work by {
      assert forall c | c in children :: c !in visited + work;
    }
  }

  lemma FrontierDone(links: Links, visited: set<Ptr>)
    requires Frontier(links, visited, {})
    ensures ROOT in visited && visited <= links.Keys
    ensures forall p | p in links && p != ROOT && links[p].parent in visited :: p in visited
  {
    assert visited + {} == visited;
  }

  lemma ParentKnows(links: Links, path: Paths, p: Ptr)
    requires Shape(links, path) && p in links && p != ROOT
    ensures links[p].tokens != [] && links[p].parent in links && links[p].tokens[0] in links[links[p].parent].children
    ensures links[links[p].parent].children[links[p].tokens[0]] == p
    ensures links.Keys == path.Keys && |path[links[p].parent]| < |path[p]|
  {
    assert NodeOk(links, path, p);
  }

  /** A set with the root that holds every node whose parent it holds is the whole tree. */
  lemma AllVisited(links: Links, path: Paths, visited: set<Ptr>)
    requires Shape(links, path) && ROOT in visited && visited <= links.Keys
    requires forall p | p in links && p != ROOT && links[p].parent in visited :: p in visited
    ensures visited == links.Keys
  {
    forall p | p in links ensures p in visited {
      Visited(links, path, visited, p);
    }
  }

  lemma {:induction false} Visited(links: Links, path: Paths, visited: set<Ptr>, p: Ptr)
    requires Shape(links, path) && ROOT in visited && p in links
    requires forall p | p in links && p != ROOT && links[p].parent in visited :: p in visited
    ensures p in visited
    decreases |path[p]|
  {
    if p != ROOT {
      ParentKnows(links, path, p);
      Visited(links, path, visited, links[p].parent);
    }
  }

  /** Recorded lengths: at least what the node spells while it owns a sequence, zero otherwise. */
  ghost predicate Canonical(path: Paths, own: Owners) {
    && path.Keys == own.Keys
    && forall p | p in own ::
         && own[p].readyIds <= own[p].seqIds
         && (own[p].seqIds != {} ==> |path[p]| <= own[p].canonicalLen)
         && (own[p].seqIds == {} ==> own[p].canonicalLen == 0)
  }

  /** What `InspectPrefix` saw is what inserting and then looking for a source delivers: the same
      match; a ready coverage comes back as the length of a source on the path; without one, any
      source lies below the match and covers all of it. */
  lemma InspectPredicts(links: Links, path: Paths, own: Owners, w: Word, a: PrefixAvailability,
                        links': Links, path': Paths, own': Owners, m: PrefixMatch, now: nat, c: Covering, src: Ptr)
    requires Shape(links, path) && Canonical(path, own) && ROOT in own && own[ROOT].readyIds == {}
    requires LongestSpelled(path, w, a.matchedTokens)
    requires Assessed(path, own, w, TouchedNodes(links, path, w), a.readyTokens, a.pendingTokens)
    requires Grown(links, path, w, links', path', m.cacheNode, m.node, m.matchedTokens)
    requires Acquired(own, own', m.node, now) && own'.Keys == path'.Keys
    requires c.NoSource? ==> HasNoSource(path', own', m.cacheNode)
    requires c.Source? ==> IsSource(path', own', m.cacheNode, c, src)
    ensures a.matchedTokens == m.matchedTokens
    ensures a.readyTokens > 0 ==> c.Source? && c.len == a.readyTokens && path'[src] == w[..a.readyTokens]
    ensures a.readyTokens == 0 && c.Source? ==> path'[m.cacheNode] <= path'[src] && m.matchedTokens <= c.len
  {
    hide Lcp, Touched, LongestSpelled;
    LongestIsUnique(path, w, a.matchedTokens, m.matchedTokens);
    if a.readyTokens > 0 {
      ReadyIsDelivered(links, path, own, w, a.readyTokens, links', path', own', m, now);
    }
    if c.Source? {
      assert src in own;
      if path'[src] <= path'[m.cacheNode] {
        SourceWasTouched(links, path, own, w, links', path', own', m, now, src);
      }
    }
  }

  /** A ready coverage seen before the insertion is a ready ancestor of the match afterwards. */
  lemma ReadyIsDelivered(links: Links, path: Paths, own: Owners, w: Word, r: nat,
                         links': Links, path': Paths, own': Owners, m: PrefixMatch, now: nat)
    requires Shape(links, path) && Canonical(path, own) && r > 0
    requires IsBest(path, own, w, WithReady(own, TouchedNodes(links, path, w)), r)
    requires Grown(links, path, w, links', path', m.cacheNode, m.node, m.matchedTokens)
    requires Acquired(own, own', m.node, now) && own'.Keys == path'.Keys
    ensures exists p :: p in path' && path'[p] == w[..r] && path'[p] <= path'[m.cacheNode] && own'[p].readyIds != {}
  {
    hide Lcp, LongestSpelled;
    var p :| p in WithReady(own, TouchedNodes(links, path, w)) && Coverage(path, own, w, p) == r;
    TouchedAfter(links, path, w, links', path', m.cacheNode, m.node, m.matchedTokens, p);
    assert own[p].seqIds != {};
    assert path'[p] == w[..r] && path'[p] <= path'[m.cacheNode] && own'[p].readyIds != {};
  }

  lemma SourceWasTouched(links: Links, path: Paths, own: Owners, w: Word,
                         links': Links, path': Paths, own': Owners, m: PrefixMatch, now: nat, src: Ptr)
    requires Canonical(path, own) && ROOT in own && own[ROOT].readyIds == {}
    requires Grown(links, path, w, links', path', m.cacheNode, m.node, m.matchedTokens)
    requires Acquired(own, own', m.node, now) && own'.Keys == path'.Keys
    requires src in own' && own'[src].readyIds != {} && path'[src] <= path'[m.cacheNode]
    ensures src in WithReady(own, TouchedNodes(links, path, w))
    ensures |path'[src]| <= Coverage(path, own, w, src) && |path'[src]| <= own'[src].canonicalLen && |path'[src]| > 0
    ensures path'[src] == w[..|path'[src]|]
  {
    hide Lcp, LongestSpelled;
    assert src in own && src != ROOT;
    assert NodeOk(links, path, src);
    PrefixTrans(path'[src], path'[m.cacheNode], w);
    CommonIsShorter(path[src], w, |path'[src]|);
  }

  ghost function TouchedUpTo(links: Links, path: Paths, w: Word, cur: Ptr): (r: set<Ptr>)
    requires links.Keys == path.Keys && cur in links
  {
    set p | p in links && Touched(links, path, w, p) && path[p] <= path[cur]
  }

  lemma NothingSeen(links: Links, path: Paths, own: Owners, w: Word)
    requires Shape(links, path) && own.Keys == path.Keys
    ensures TouchedUpTo(links, path, w, ROOT) == {}
    ensures Assessed(path, own, w, {}, 0, 0)
  {
    assert NodeOk(links, path, ROOT);
    forall p | p in links ensures !(Touched(links, path, w, p) && path[p] <= path[ROOT]) {
      assert NodeOk(links, path, p);
    }
  }

  /** A touched node ahead of `cur` is the next child, or lies beyond it with `w` passing the child. */
  lemma TouchedNext(links: Links, path: Paths, w: Word, cur: Ptr, child: Ptr, p: Ptr)
    requires Shape(links, path) && cur in links && path[cur] <= w && |path[cur]| < |w|
    requires w[|path[cur]|] in links[cur].children && child == links[cur].children[w[|path[cur]|]] && child in links
    requires Touched(links, path, w, p)
    ensures path[p] <= path[cur] || p == child || (path[child] <= w && !(path[p] <= path[child]))
  {
    TouchedAhead(links, path, w, cur, p);
    if !(path[p] <= path[cur]) && path[p] <= path[child] {
      Unique(links, path, p, child);
    }
  }

  /** One more edge of the walk touches exactly one more node, and the walk ends inside it or passes it. */
  lemma SeenStep(links: Links, path: Paths, w: Word, cur: Ptr, child: Ptr)
    requires Shape(links, path) && links.Keys == path.Keys && cur in links && path[cur] <= w && |path[cur]| < |w|
    requires w[|path[cur]|] in links[cur].children && child == links[cur].children[w[|path[cur]|]]
    requires child in links && links[child].parent == cur && child != ROOT && |path[cur]| < Lcp(path[child], w)
    requires path[cur] <= path[child]
    ensures path[child] <= w ==> TouchedUpTo(links, path, w, child) == TouchedUpTo(links, path, w, cur) + {child}
    ensures !(path[child] <= w) ==> TouchedNodes(links, path, w) == TouchedUpTo(links, path, w, cur) + {child}
  {
    hide Shape, Lcp;
    assert Touched(links, path, w, child);
    hide Touched;
    forall p | p in links && Touched(links, path, w, p)
      ensures path[p] <= path[cur] || p == child || (path[child] <= w && !(path[p] <= path[child]))
    {
      TouchedNext(links, path, w, cur, child, p);
    }
    forall p | p in links && path[p] <= path[cur] ensures path[p] <= path[child] {
      PrefixTrans(path[p], path[cur], path[child]);
    }
  }

  lemma LongestHere(links: Links, path: Paths, w: Word, cur: Ptr)
    requires Shape(links, path) && cur in links && path[cur] <= w
    requires |path[cur]| < |w| ==> w[|path[cur]|] !in links[cur].children
    ensures LongestSpelled(path, w, |path[cur]|)
    ensures TouchedUpTo(links, path, w, cur) == TouchedNodes(links, path, w)
  {
    assert path[cur] == w[..|path[cur]|];
    StayFound(links, path, w, cur, |path[cur]|);
    forall p | p in links && Touched(links, path, w, p) ensures path[p] <= path[cur] {
      TouchedAhead(links, path, w, cur, p);
    }
  }

  // ---------------------------------------------------------------- recorded lengths need not fit

  lemma NothingSpelled(path: Paths, w: Word, n: nat)
    requires path == map[ROOT := []] && LongestSpelled(path, w, n)
    ensures n == 0
  {
  }

  lemma OneSpelled(path: Paths, u: Word, w: Word, n: nat)
    requires u <= w && LongestSpelled(path, w, n)
    requires forall v :: Spells(path, v) <==> Spells(map[ROOT := []], v) || v <= u
    ensures n == |u|
  {
    assert w[..|u|] == u && Spells(path, w[..|u|]);
    NoLongerSpelled(path, w, n, |u|);
    assert Spells(path, w[..n]);
  }

  /** The node just made for `w` below one that spells `w[..n]` is where a longer prefix of `w` ends. */
  lemma EndsBelow(links: Links, path: Paths, w: Word, links': Links, path': Paths, m: PrefixMatch, u: Word)
    requires Grown(links, path, w, links', path', m.cacheNode, m.node, m.matchedTokens)
    requires m.matchedTokens < |u| && u <= w
    ensures m.node in links' && m.node != ROOT && EndsInEdge(links', path', m.node, u)
  {
    hide LongestSpelled;
    ParentSpells(links', path', m.node);
  }

  lemma GrownParts(links: Links, path: Paths, w: Word, links': Links, path': Paths, cache: Ptr, node: Ptr, n: nat)
    requires Grown(links, path, w, links', path', cache, node, n)
    ensures LongestSpelled(path, w, n) && node in links' && node in path' && path'[node] == w
    ensures (node == cache || node !in links)
    ensures n < |w| ==> node !in links
  {
  }

  lemma AcquiredParts(own: Owners, own': Owners, node: Ptr, now: nat)
    requires Acquired(own, own', node, now)
    ensures node in own' && (forall p | p in own && p != node :: p in own' && own'[p] == own[p])
    ensures node in own ==> own'[node] == own[node].(refCount := own[node].refCount + 1, lastAccess := now)
    ensures node !in own ==> own'[node].seqIds == {} && own'[node].readyIds == {} && own'[node].canonicalLen == 0
  {
  }

  /** A tree that spells just the prefixes of `w`, whose node owns sequence 1. */
  method Sole(w: Word) returns (t: RadixTree, node: Ptr)
    requires w != []
    ensures fresh(t) && t.Valid() && node in t.own && t.path[node] == w && node != ROOT
    ensures t.own[node].seqIds == {1} && t.own[node].readyIds == {} && t.own[node].canonicalLen == |w|
    ensures forall v :: Spells(t.path, v) <==> Spells(map[ROOT := []], v) || v <= w
    ensures forall u | u <= w && u != [] :: EndsInEdge(t.links, t.path, node, u)
  {
    hide Shape, Grown, LongestSpelled, EndsInEdge, Spells, Acquired;
    t := new RadixTree();
    ghost var links0, path0, own0 := t.links, t.path, t.own;
    var a := t.Insert(w);
    GrownParts(links0, path0, w, t.links, t.path, a.cacheNode, a.node, a.matchedTokens);
    AcquiredParts(own0, t.own, a.node, t.tick);
    NothingSpelled(path0, w, a.matchedTokens);
    forall u | u <= w && u != [] ensures EndsInEdge(t.links, t.path, a.node, u) {
      EndsBelow(links0, path0, w, t.links, t.path, a, u);
    }
    t.RegisterSeqId(a.node, 1, |w|);
    node := a.node;
  }

  /** A prompt `u` that shares the node of a longer one is recorded with the length of that: too much. */
  method LongRecord(u: Word, w: Word) returns (t: RadixTree, node: Ptr)
    requires u <= w && 0 < |u| < |w|
    ensures t.Valid() && node in t.own && t.path[node] == u && t.own[node].seqIds == {1, 2}
    ensures t.own[node].canonicalLen == |w| > |u|
  {
    hide Shape, Grown, LongestSpelled, EndsInEdge, Spells, Acquired;
    var first: Ptr;
    t, first := Sole(w);
    ghost var links0, path0, own0 := t.links, t.path, t.own;
    var b := t.Insert(u);
    GrownParts(links0, path0, u, t.links, t.path, b.cacheNode, b.node, b.matchedTokens);
    AcquiredParts(own0, t.own, b.node, t.tick);
    EndsOnOld(links0, path0, u, t.links, t.path, b.cacheNode, b.node, b.matchedTokens, first);
    t.RegisterSeqId(b.node, 2, |u|);
    node := b.node;
  }

  /** Behind the ready sequence 1 of `a` the longer prompt `w` has been registered as 2. */
  method Pending(a: Word, w: Word) returns (t: RadixTree, first: Ptr, second: Ptr)
    requires a <= w && 0 < |a| < |w|
    ensures fresh(t) && t.Valid() && first in t.own && second in t.own && first != second && second != ROOT
    ensures t.own[first].seqIds == {1} && t.own[first].readyIds == {1}
    ensures t.own[second].seqIds == {2} && t.own[second].readyIds == {} && t.own[second].canonicalLen == |w|
    ensures forall u | u <= w && |a| < |u| :: EndsInEdge(t.links, t.path, second, u)
  {
    hide Shape, Grown, LongestSpelled, EndsInEdge, Spells, Acquired;
    t, first := Sole(a);
    t.MarkSeqIdReady(first, 1);
    ghost var links0, path0, own0 := t.links, t.path, t.own;
    var y := t.Insert(w);
    GrownParts(links0, path0, w, t.links, t.path, y.cacheNode, y.node, y.matchedTokens);
    AcquiredParts(own0, t.own, y.node, t.tick);
    OneSpelled(path0, a, w, y.matchedTokens);
    EndsBelow(links0, path0, w, t.links, t.path, y, w);
    forall u | u <= w && |a| < |u| ensures EndsInEdge(t.links, t.path, y.node, u) {
      EndsBelow(links0, path0, w, t.links, t.path, y, u);
    }
    t.RegisterSeqId(y.node, 2, |w|);
    second := y.node;
  }

  /** A prompt `w` that is pending while a sequence which holds a part `u` of it finishes is recorded with the length of
      that part: too little. */
  method ShortRecord(a: Word, u: Word, w: Word) returns (t: RadixTree, node: Ptr)
    requires a <= u <= w && 0 < |a| < |u| < |w|
    ensures t.Valid() && node in t.own && t.own[node].seqIds == {1, 2} && t.own[node].readyIds == {1}
    ensures t.own[node].canonicalLen == |u| < |w|
  {
    hide Shape, Grown, LongestSpelled, EndsInEdge, Spells;
    PrefixTrans(a, u, w);
    var first: Ptr, second: Ptr;
    t, first, second := Pending(a, w);
    ghost var links0, path0 := t.links, t.path;
    ghost var cache, matched, grown;
    node, cache, matched, grown := t.ExtendSeqId(first, 1, u, |u|);
    EndsOnOld(links0, path0, u, t.links, t.path, cache, node, matched, second);
  }
}
