/** What the mapper keeps true about the tree, its id pool and the physical cache.

    `kv[s]` is the view llama.cpp gives of sequence `s`: the tokens in its cells, by position.
    `home[s]` is the node whose id set holds `s`, `leaf[s]` the node on which the live request with
    id `s` holds its reference, and `prompt[s]` the tokens that request asked for.  Between the two
    halves of preparing a request its reference is booked under the reserved id 0. */
module KvState {
  import opened Tokens
  import opened RadixShape
  import opened Radix

  type Homes = map<SeqId, Ptr>
  type Views = map<SeqId, Word>

  // ---------------------------------------------------------------- the invariant, piece by piece

  /** `home` says exactly which node each id sits on; no id sits on two nodes. */
  ghost predicate HomesOk(own: Owners, home: Homes) {
    && (forall s {:trigger home[s]} | s in home :: home[s] in own && s in own[home[s]].seqIds)
    && (forall p, s {:trigger s in own[p].seqIds} | p in own && s in own[p].seqIds :: s in home && home[s] == p)
  }

  ghost function Holders(leaf: Homes, p: Ptr): set<SeqId> {
    set s | s in leaf && leaf[s] == p
  }

  /** A node's reference count is the number of live requests that hold it (one more for the root). */
  ghost predicate RefsOk(own: Owners, leaf: Homes) {
    && (forall s {:trigger leaf[s]} | s in leaf :: leaf[s] in own)
    && (forall p {:trigger own[p].refCount} | p in own ::
          own[p].refCount == |Holders(leaf, p)| + if p == ROOT then 1 else 0)
  }

  /** Every live request other than `x` has its id on the node it holds. */
  ghost predicate Linked(home: Homes, leaf: Homes, x: SeqId) {
    forall s {:trigger leaf[s]} {:trigger s in leaf} | s in leaf && s != x :: s in home && home[s] == leaf[s]
  }

  /** A ready sequence holds, from position 0 on, exactly the tokens its node spells. */
  ghost predicate Faithful(path: Paths, own: Owners, kv: Views)
    requires path.Keys == own.Keys
  {
    && own.Keys >= {ROOT} && own[ROOT].readyIds == {}
    && forall p, s {:trigger s in own[p].readyIds} | p in own && s in own[p].readyIds :: s in kv && path[p] <= kv[s]
  }

  /** The node a live request holds spells a prefix of its prompt, and is the root only for an empty one. */
  ghost predicate PromptsOk(path: Paths, leaf: Homes, prompt: Views) {
    forall s {:trigger leaf[s]} | s in leaf ::
      s in prompt && leaf[s] in path && path[leaf[s]] <= prompt[s] && (leaf[s] == ROOT <==> prompt[s] == [])
  }

  predicate NoDuplicates(s: seq<SeqId>) {
    forall i, j | 0 <= i < j < |s| :: s[i] != s[j]
  }

  /** Free and placed ids partition 1 .. max - 1, and a free id has an empty view. */
  ghost predicate PoolOk(free: seq<SeqId>, home: Homes, kv: Views, max: int) {
    && NoDuplicates(free)
    && (forall s :: 1 <= s < max <==> s in free || s in home)
    && (forall s | s in free :: s !in home && s in kv && kv[s] == [])
    && (forall s | s in home :: s in kv)
  }

  /** Ids without a request: ready, alone of their kind on their node, and counted exactly. */
  ghost predicate KeptOk(own: Owners, home: Homes, leaf: Homes, kv: Views, cells: map<SeqId, nat>, retained: set<SeqId>,
                         x: SeqId) {
    && cells.Keys == home.Keys && retained <= home.Keys
    && (forall s {:trigger s in retained} | s != x :: s in retained <==> s in home && s !in leaf)
    && (forall s {:trigger home[s]} | s in home && s !in leaf ::
          && home[s] in own && s in own[home[s]].readyIds
          && s in kv && s in cells && cells[s] == |kv[s]|)
    && (forall s, t {:trigger home[s], home[t]} |
          s in home && t in home && s !in leaf && t !in leaf && home[s] == home[t] :: s == t)
  }

  // ---------------------------------------------------------------- counting references

  lemma HoldersAdd(leaf: Homes, s: SeqId, p: Ptr)
    requires s !in leaf
    ensures forall q :: |Holders(leaf[s := p], q)| == |Holders(leaf, q)| + if q == p then 1 else 0
  {
    forall q ensures |Holders(leaf[s := p], q)| == |Holders(leaf, q)| + if q == p then 1 else 0 {
      assert Holders(leaf[s := p], q) == if q == p then Holders(leaf, q) + {s} else Holders(leaf, q);
    }
  }

  lemma HoldersDrop(leaf: Homes, s: SeqId)
    requires s in leaf
    ensures forall q :: |Holders(leaf - {s}, q)| == |Holders(leaf, q)| - if q == leaf[s] then 1 else 0
  {
    forall q ensures |Holders(leaf - {s}, q)| == |Holders(leaf, q)| - if q == leaf[s] then 1 else 0 {
      assert Holders(leaf, q) == if q == leaf[s] then Holders(leaf - {s}, q) + {s} else Holders(leaf - {s}, q);
    }
  }

  /** A node somebody holds is referenced. */
  lemma HeldIsReferenced(own: Owners, leaf: Homes, s: SeqId)
    requires RefsOk(own, leaf) && s in leaf
    ensures leaf[s] in own && own[leaf[s]].refCount > 0
  {
    assert s in Holders(leaf, leaf[s]);
  }

  // ---------------------------------------------------------------- what tree operations do to it

  /** The part of the invariant that ties the tree to ids, requests and views. */
  ghost predicate TreeOk(path: Paths, own: Owners, home: Homes, leaf: Homes, prompt: Views, kv: Views) {
    && Canonical(path, own) && HomesOk(own, home) && RefsOk(own, leaf)
    && Faithful(path, own, kv) && PromptsOk(path, leaf, prompt)
  }

  predicate SameIds(o: Owned, o': Owned) {
    o'.seqIds == o.seqIds && o'.readyIds == o.readyIds && o'.canonicalLen == o.canonicalLen
  }

  /** Old nodes keep their ids and spell no more than before; new nodes have no ids. */
  ghost predicate Narrowed(path: Paths, own: Owners, path': Paths, own': Owners) {
    && path.Keys == own.Keys && path'.Keys == own'.Keys && own.Keys <= own'.Keys
    && (forall p {:trigger own'[p]} {:trigger path'[p]} | p in own :: SameIds(own[p], own'[p]) && path'[p] <= path[p])
    && (forall p {:trigger own'[p]} | p in own' && p !in own :: SameIds(BARE, own'[p]))
  }

  lemma NarrowCanonical(path: Paths, own: Owners, path': Paths, own': Owners)
    requires Narrowed(path, own, path', own') && Canonical(path, own)
    ensures Canonical(path', own')
  {
  }

  lemma NarrowHomes(path: Paths, own: Owners, path': Paths, own': Owners, home: Homes)
    requires Narrowed(path, own, path', own') && HomesOk(own, home)
    ensures HomesOk(own', home)
  {
  }

  lemma NarrowFaithful(path: Paths, own: Owners, path': Paths, own': Owners, kv: Views)
    requires Narrowed(path, own, path', own') && Faithful(path, own, kv)
    ensures Faithful(path', own', kv)
  {
    forall p, s | p in own' && s in own'[p].readyIds ensures s in kv && path'[p] <= kv[s] {
      assert p in own && s in own[p].readyIds;
      PrefixTrans(path'[p], path[p], kv[s]);
    }
  }

  lemma NarrowPrompts(path: Paths, own: Owners, path': Paths, own': Owners, leaf: Homes, prompt: Views)
    requires Narrowed(path, own, path', own') && PromptsOk(path, leaf, prompt)
    ensures PromptsOk(path', leaf, prompt)
  {
    forall s | s in leaf ensures path'[leaf[s]] <= prompt[s] {
      PrefixTrans(path'[leaf[s]], path[leaf[s]], prompt[s]);
    }
  }

  lemma AcquiredNarrows(links: Links, path: Paths, own: Owners, w: Word,
                        links': Links, path': Paths, own': Owners, cache: Ptr, node: Ptr, n: nat, now: nat)
    requires Grown(links, path, w, links', path', cache, node, n) && Acquired(own, own', node, now)
    requires own.Keys == path.Keys && own'.Keys == path'.Keys
    ensures Narrowed(path, own, path', own')
    ensures Shape(links', path') && node in path' && path'[node] == w && links'.Keys == path'.Keys
  {
    hide LongestSpelled;
  }

  lemma AcquiredRefs(own: Owners, own': Owners, leaf: Homes, node: Ptr, now: nat, x: SeqId)
    requires RefsOk(own, leaf) && Acquired(own, own', node, now) && x !in leaf && ROOT in own
    ensures RefsOk(own', leaf[x := node])
  {
    HoldersAdd(leaf, x, node);
    forall p | p in own' && p !in own ensures Holders(leaf, p) == {} {
      assert forall s | s in leaf :: leaf[s] != p;
    }
  }

  /** Adding a prompt, with its splits, and booking its reference under `x`. */
  lemma InsertKeeps(links: Links, path: Paths, own: Owners, home: Homes, leaf: Homes, prompt: Views, kv: Views, w: Word,
                    links': Links, path': Paths, own': Owners, cache: Ptr, node: Ptr, n: nat, now: nat, x: SeqId)
    requires TreeOk(path, own, home, leaf, prompt, kv) && x !in leaf && own.Keys == path.Keys
    requires Grown(links, path, w, links', path', cache, node, n) && Acquired(own, own', node, now)
    requires own'.Keys == path'.Keys
    ensures TreeOk(path', own', home, leaf[x := node], prompt[x := w], kv)
  {
    assert ROOT in own;
    hide Grown, Acquired, Shape, HomesOk, RefsOk, Faithful, Canonical, Narrowed;
    AcquiredNarrows(links, path, own, w, links', path', own', cache, node, n, now);
    AcquiredRefs(own, own', leaf, node, now, x);
    NarrowCanonical(path, own, path', own');
    NarrowHomes(path, own, path', own', home);
    NarrowFaithful(path, own, path', own', kv);
    NarrowPrompts(path, own, path', own', leaf, prompt);
    NodeForEmpty(links', path', node);
  }

  lemma NodeForEmpty(links: Links, path: Paths, p: Ptr)
    requires Shape(links, path) && p in links
    ensures p == ROOT <==> path[p] == []
  {
    assert NodeOk(links, path, p);
    assert NodeOk(links, path, ROOT);
    if path[p] == [] { Unique(links, path, p, ROOT); }
  }

  /** Only unowned nodes leave, the others stay as they are. */
  ghost predicate Thinned(path: Paths, own: Owners, path': Paths, own': Owners) {
    && path.Keys == own.Keys && path'.Keys == own'.Keys && own'.Keys <= own.Keys
    && (forall p {:trigger own'[p]} {:trigger path'[p]} | p in own' :: own'[p] == own[p] && path'[p] == path[p])
    && (forall p {:trigger own[p]} | p in own && p !in own' :: p != ROOT && Unowned(own[p]))
  }

  lemma ThinKeeps(path: Paths, own: Owners, path': Paths, own': Owners, home: Homes, leaf: Homes, prompt: Views,
                  kv: Views)
    requires Thinned(path, own, path', own') && TreeOk(path, own, home, leaf, prompt, kv)
    ensures TreeOk(path', own', home, leaf, prompt, kv)
  {
    forall s | s in leaf ensures leaf[s] in own' {
      HeldIsReferenced(own, leaf, s);
    }
    assert forall s | s in home :: own[home[s]].seqIds != {};
  }

  /** Pruning drops only nodes nobody holds and nothing sits on. */
  lemma PruneKeeps(links: Links, path: Paths, own: Owners, start: Ptr, links': Links, path': Paths, own': Owners,
                   stop: Ptr,
                   home: Homes, leaf: Homes, prompt: Views, kv: Views)
    requires PrunedTree(links, path, own, start, links', path', own', stop)
    requires TreeOk(path, own, home, leaf, prompt, kv)
    ensures TreeOk(path', own', home, leaf, prompt, kv) && Thinned(path, own, path', own')
  {
    hide TreeOk;
    assert Thinned(path, own, path', own');
    ThinKeeps(path, own, path', own', home, leaf, prompt, kv);
  }

  ghost function Cleared(kv: Views, ids: set<SeqId>): Views {
    map s | s in kv :: if s in ids then [] else kv[s]
  }

  /** Taking every id off a node and emptying their views. */
  lemma ClearKeeps(path: Paths, own: Owners, home: Homes, leaf: Homes, prompt: Views, kv: Views, node: Ptr)
    requires TreeOk(path, own, home, leaf, prompt, kv) && node in own
    ensures TreeOk(path, own[node := own[node].(seqIds := {}, readyIds := {}, canonicalLen := 0)],
                   home - own[node].seqIds, leaf, prompt, Cleared(kv, own[node].seqIds))
  {
    var own' := own[node := own[node].(seqIds := {}, readyIds := {}, canonicalLen := 0)];
    SameRefs(own, own', leaf);
    HomesUpdate(own, home, node, own'[node], home - own[node].seqIds);
    assert forall p, s | p in own && p != node && s in own[p].seqIds :: s !in own[node].seqIds;
    hide RefsOk, HomesOk;
  }

  /** A free id becomes the pending id of the request booked under 0. */
  lemma RegisterKeeps(path: Paths, own: Owners, home: Homes, leaf: Homes, prompt: Views, kv: Views,
                      node: Ptr, s: SeqId, w: Word, view: Word, own': Owners)
    requires TreeOk(path, own, home, leaf, prompt, kv) && node in own && s !in home && s != 0 && s !in leaf
    requires 0 in leaf && leaf[0] == node && prompt[0] == w && path[node] == w
    requires own' == Registered(own, node, s, |w|)
    ensures TreeOk(path, own', home[s := node], (leaf - {0})[s := node], prompt[s := w] - {0}, kv[s := view])
  {
    hide Canonical, HomesOk, Faithful;
    RegisterIds(path, own, home, kv, node, s, w, view, own');
    SameRefs(own, own', leaf);
    Rebook(own', leaf, 0, s);
  }

  lemma RegisterIds(path: Paths, own: Owners, home: Homes, kv: Views, node: Ptr, s: SeqId, w: Word, view: Word,
                    own': Owners)
    requires Canonical(path, own) && HomesOk(own, home) && Faithful(path, own, kv)
    requires node in own && s !in home && path[node] == w
    requires own' == Registered(own, node, s, |w|)
    ensures Canonical(path, own') && HomesOk(own', home[s := node]) && Faithful(path, own', kv[s := view])
  {
    NewcomerHomes(own, home, node, s, own'[node]);
    hide HomesOk;
  }

  /** The ids of one node change, and `home` with them. */
  lemma HomesUpdate(own: Owners, home: Homes, node: Ptr, o: Owned, home': Homes)
    requires HomesOk(own, home) && node in own
    requires forall t | t in o.seqIds :: t in home' && home'[t] == node
    requires forall t | t in home' :: if home'[t] == node then t in o.seqIds else t in home && home[t] == home'[t]
    requires forall t | t in home && home[t] != node :: t in home' && home'[t] == home[t]
    ensures HomesOk(own[node := o], home')
  {
  }

  /** An id that was nowhere comes to a node. */
  lemma NewcomerHomes(own: Owners, home: Homes, node: Ptr, s: SeqId, o: Owned)
    requires HomesOk(own, home) && node in own && s !in home && o.seqIds == own[node].seqIds + {s}
    ensures HomesOk(own[node := o], home[s := node])
    ensures forall p | p in own :: s !in own[p].seqIds
  {
    HomesUpdate(own, home, node, o, home[s := node]);
  }

  /** An id leaves its node. */
  lemma LeaverHomes(own: Owners, home: Homes, node: Ptr, s: SeqId, o: Owned)
    requires HomesOk(own, home) && s in home && home[s] == node && node in own && o.seqIds == own[node].seqIds - {s}
    ensures HomesOk(own[node := o], home - {s})
    ensures forall p | p in own && p != node :: s !in own[p].seqIds
  {
    HomesUpdate(own, home, node, o, home - {s});
  }

  lemma SameRefs(own: Owners, own': Owners, leaf: Homes)
    requires RefsOk(own, leaf) && own.Keys == own'.Keys && forall p | p in own :: own'[p].refCount == own[p].refCount
    ensures RefsOk(own', leaf)
  {
  }

  /** The reference booked under `x` is booked under `s` instead. */
  lemma Rebook(own: Owners, leaf: Homes, x: SeqId, s: SeqId)
    requires RefsOk(own, leaf) && x in leaf && s !in leaf
    ensures RefsOk(own, (leaf - {x})[s := leaf[x]])
  {
    HoldersDrop(leaf, x);
    HoldersAdd(leaf - {x}, s, leaf[x]);
  }

  /** A pending id whose view holds the prompt becomes ready. */
  lemma ReadyKeeps(path: Paths, own: Owners, home: Homes, leaf: Homes, prompt: Views, kv: Views, s: SeqId, node: Ptr)
    requires TreeOk(path, own, home, leaf, prompt, kv) && s in home && home[s] == node && node in own && node != ROOT
    requires s in kv && path[node] <= kv[s]
    ensures TreeOk(path, own[node := own[node].(readyIds := own[node].readyIds + {s})], home, leaf, prompt, kv)
  {
    var own' := own[node := own[node].(readyIds := own[node].readyIds + {s})];
    SameRefs(own, own', leaf);
    HomesUpdate(own, home, node, own'[node], home);
    hide RefsOk, HomesOk;
  }

  /** One id leaves its node and its view is emptied. */
  lemma FreeKeeps(path: Paths, own: Owners, home: Homes, leaf: Homes, prompt: Views, kv: Views, s: SeqId, node: Ptr)
    requires TreeOk(path, own, home, leaf, prompt, kv) && s in home && home[s] == node && node in own
    ensures TreeOk(path, own[node := Without(own[node], s)], home - {s}, leaf, prompt, kv[s := []])
  {
    var own' := own[node := Without(own[node], s)];
    SameRefs(own, own', leaf);
    LeaverHomes(own, home, node, s, own'[node]);
    hide RefsOk, HomesOk;
  }

  /** A view may be cut down to what its node spells. */
  lemma TrimKeeps(path: Paths, own: Owners, home: Homes, leaf: Homes, prompt: Views, kv: Views, s: SeqId, n: nat)
    requires TreeOk(path, own, home, leaf, prompt, kv) && s in home && home[s] in own && s in kv
    requires |path[home[s]]| <= n <= |kv[s]|
    ensures TreeOk(path, own, home, leaf, prompt, kv[s := kv[s][..n]])
  {
    var kv' := kv[s := kv[s][..n]];
    forall p, t | p in own && t in own[p].readyIds ensures t in kv' && path[p] <= kv'[t] {
      assert t in own[p].seqIds;
    }
  }

  /** A request gives back its reference. */
  lemma DropRefKeeps(path: Paths, own: Owners, home: Homes, leaf: Homes, prompt: Views, kv: Views, s: SeqId)
    requires TreeOk(path, own, home, leaf, prompt, kv) && s in leaf
    ensures leaf[s] in own && own[leaf[s]].refCount > 0
    ensures TreeOk(path, own[leaf[s] := own[leaf[s]].(refCount := own[leaf[s]].refCount - 1)], home, leaf - {s},
                   prompt, kv)
  {
    HeldIsReferenced(own, leaf, s);
    HoldersDrop(leaf, s);
  }

  /** Growing the tree for a sequence that is about to move, before it moves. */
  lemma PadKeeps(links: Links, path: Paths, own: Owners, home: Homes, leaf: Homes, prompt: Views, kv: Views, w: Word,
                 links': Links, path': Paths, grown: Owners, cache: Ptr, target: Ptr, n: nat)
    requires TreeOk(path, own, home, leaf, prompt, kv) && own.Keys == path.Keys
    requires Grown(links, path, w, links', path', cache, target, n) && Padded(own, grown) && grown.Keys == path'.Keys
    ensures TreeOk(path', grown, home, leaf, prompt, kv)
    ensures Shape(links', path') && links'.Keys == path'.Keys && target in path' && path'[target] == w
  {
    assert ROOT in own;
    PadNarrows(links, path, own, w, links', path', grown, cache, target, n);
    PadRefs(own, grown, leaf);
    hide Grown, Padded, Shape, HomesOk, RefsOk, Faithful, Canonical, Narrowed;
    NarrowCanonical(path, own, path', grown);
    NarrowHomes(path, own, path', grown, home);
    NarrowFaithful(path, own, path', grown, kv);
    NarrowPrompts(path, own, path', grown, leaf, prompt);
  }

  lemma PadNarrows(links: Links, path: Paths, own: Owners, w: Word,
                   links': Links, path': Paths, grown: Owners, cache: Ptr, target: Ptr, n: nat)
    requires Grown(links, path, w, links', path', cache, target, n) && Padded(own, grown)
    requires own.Keys == path.Keys && grown.Keys == path'.Keys
    ensures Narrowed(path, own, path', grown)
    ensures Shape(links', path') && links'.Keys == path'.Keys && target in path' && path'[target] == w
  {
    hide LongestSpelled;
  }

  lemma PadRefs(own: Owners, grown: Owners, leaf: Homes)
    requires RefsOk(own, leaf) && Padded(own, grown) && ROOT in own
    ensures RefsOk(grown, leaf)
  {
    forall p | p in grown && p !in own ensures Holders(leaf, p) == {} {
      assert forall s | s in leaf :: leaf[s] != p;
    }
  }

  /** A node's payload once the ready sequence `s`, valid for `len` tokens, has come to it. */
  function With(o: Owned, s: SeqId, len: nat, now: nat): Owned {
    o.(seqIds := o.seqIds + {s}, readyIds := o.readyIds + {s}, canonicalLen := len, lastAccess := now)
  }

  /** A ready sequence moves to the node that spells everything its view holds. */
  lemma MoveKeeps(path: Paths, own: Owners, home: Homes, leaf: Homes, prompt: Views, kv: Views,
                  s: SeqId, node: Ptr, target: Ptr, now: nat, own': Owners)
    requires TreeOk(path, own, home, leaf, prompt, kv) && s in home && home[s] == node && node in own
    requires s in own[node].readyIds
    requires target in own && target != ROOT && target != node && s in kv && path[target] == kv[s]
    requires own' == own[node := Without(own[node], s)][target := With(own[target], s, |kv[s]|, now)]
    ensures TreeOk(path, own', home[s := target], leaf, prompt, kv)
  {
    hide TreeOk, With, Without;
    var mid := own[node := Without(own[node], s)];
    FreeKeeps(path, own, home, leaf, prompt, kv, s, node);
    ArriveKeeps(path, mid, home - {s}, leaf, prompt, kv[s := []], s, target, kv[s], now);
    assert kv[s := []][s := kv[s]] == kv && (home - {s})[s := target] == home[s := target];
  }

  lemma ArriveKeeps(path: Paths, own: Owners, home: Homes, leaf: Homes, prompt: Views, kv: Views,
                    s: SeqId, target: Ptr, view: Word, now: nat)
    requires TreeOk(path, own, home, leaf, prompt, kv) && s !in home
    requires target in own && target != ROOT && path[target] == view
    ensures TreeOk(path, own[target := With(own[target], s, |view|, now)], home[s := target], leaf, prompt,
                   kv[s := view])
  {
    var own' := own[target := With(own[target], s, |view|, now)];
    SameRefs(own, own', leaf);
    NewcomerHomes(own, home, target, s, own'[target]);
    hide RefsOk, HomesOk;
  }

  /** The sequence already sits there; only its recorded length is renewed. */
  lemma RelengthKeeps(path: Paths, own: Owners, home: Homes, leaf: Homes, prompt: Views, kv: Views, node: Ptr, len: nat)
    requires TreeOk(path, own, home, leaf, prompt, kv) && node in own && own[node].seqIds != {} && len == |path[node]|
    ensures TreeOk(path, own[node := own[node].(canonicalLen := len)], home, leaf, prompt, kv)
  {
    var own' := own[node := own[node].(canonicalLen := len)];
    SameRefs(own, own', leaf);
    HomesUpdate(own, home, node, own'[node], home);
    hide RefsOk, HomesOk;
  }

  // ---------------------------------------------------------------- which ids are ready

  ghost function AllReady(own: Owners): set<SeqId> {
    set p, s | p in own && s in own[p].readyIds :: s
  }

  lemma NarrowReady(path: Paths, own: Owners, path': Paths, own': Owners)
    requires Narrowed(path, own, path', own')
    ensures AllReady(own') == AllReady(own)
  {
    forall p, s | p in own && s in own[p].readyIds ensures s in AllReady(own') {
      assert s in own'[p].readyIds;
    }
  }

  lemma ThinReady(path: Paths, own: Owners, path': Paths, own': Owners)
    requires Thinned(path, own, path', own') && Canonical(path, own)
    ensures AllReady(own') == AllReady(own)
  {
    forall p, s | p in own && s in own[p].readyIds ensures s in AllReady(own') {
      assert s in own'[p].readyIds;
    }
  }

  /** Only `node` changes; `gone` are ids of its own that stop being ready, `come` ids that become so. */
  lemma UpdateReady(own: Owners, home: Homes, node: Ptr, o: Owned, gone: set<SeqId>, come: set<SeqId>)
    requires HomesOk(own, home) && node in own && forall p | p in own :: own[p].readyIds <= own[p].seqIds
    requires gone <= own[node].seqIds && o.readyIds == own[node].readyIds - gone + come
    ensures AllReady(own[node := o]) == AllReady(own) - gone + come
  {
    var own' := own[node := o];
    forall s | s in AllReady(own) - gone + come ensures s in AllReady(own') {
      if s in come {
        assert s in own'[node].readyIds;
      } else {
        var p :| p in own && s in own[p].readyIds;
        assert s in own'[p].readyIds;
      }
    }
    forall s | s in AllReady(own') ensures s in AllReady(own) - gone + come {
      var p :| p in own' && s in own'[p].readyIds;
      if p != node {
        assert s in own[p].seqIds;
      }
    }
  }

  /** A live request's id is ready exactly when the node it sits on says so. */
  lemma ReadyAtHome(path: Paths, own: Owners, home: Homes, s: SeqId)
    requires Canonical(path, own) && HomesOk(own, home) && s in home
    ensures home[s] in own && (s in AllReady(own) <==> s in own[home[s]].readyIds)
  {
    if s in AllReady(own) {
      var p :| p in own && s in own[p].readyIds;
      assert s in own[p].seqIds;
    }
  }
}
