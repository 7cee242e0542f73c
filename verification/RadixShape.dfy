/** The shape of the compressed token trie of src/radix_tree.cpp.

    A tree node has an identity, a `Ptr`, which plays the part of `RadixNode*`: several requests
    may hold the same node while the tree splits, extends and prunes around them.  The fields of
    `RadixNode` come in two records kept in maps over the identities: a `Link` is the node's place
    in the trie, an `Owned` is what requests and physical sequences have attached to it.  `path` is
    a ghost companion: the tokens spelled from the root to a node. */
module RadixShape {
  import opened Collections
  import opened Tokens

  type Ptr = nat

  const ROOT: Ptr := 0

  datatype Link = Link(
    tokens: Word,
    parent: Ptr,               // of no meaning for the root
    children: map<Token, Ptr>)

  type Links = map<Ptr, Link>
  type Paths = map<Ptr, Word>

  // ---------------------------------------------------------------- shape

  /** The link to the parent, the parent's link back and the spelled path agree. */
  ghost predicate UpOk(links: Links, path: Paths, p: Ptr)
    requires links.Keys == path.Keys && p in links
  {
    if p == ROOT then path[p] == [] && links[p].tokens == []
    else
      && links[p].tokens != []
      && links[p].parent in links
      && path[p] == path[links[p].parent] + links[p].tokens
      && links[p].tokens[0] in links[links[p].parent].children
      && links[links[p].parent].children[links[p].tokens[0]] == p
  }

  /** Every child is keyed by its first token and links back. */
  ghost predicate DownOk(links: Links, p: Ptr)
    requires p in links
  {
    forall k {:trigger links[p].children[k]} | k in links[p].children ::
      var c := links[p].children[k];
      c in links && c != ROOT && links[c].parent == p && links[c].tokens != [] && links[c].tokens[0] == k
  }

  ghost predicate NodeOk(links: Links, path: Paths, p: Ptr)
    requires links.Keys == path.Keys && p in links
  {
    UpOk(links, path, p) && DownOk(links, p)
  }

  ghost predicate Shape(links: Links, path: Paths) {
    && links.Keys == path.Keys
    && ROOT in links
    && forall p {:trigger NodeOk(links, path, p)} | p in links :: NodeOk(links, path, p)
  }

  /** Two nodes never spell the same string. */
  lemma {:induction false} Unique(links: Links, path: Paths, p: Ptr, q: Ptr)
    requires Shape(links, path) && p in links && q in links && path[p] == path[q]
    ensures p == q
    decreases |path[p]|, 0
  {
    assert NodeOk(links, path, p) && NodeOk(links, path, q);
    if p != ROOT && q != ROOT {
      var a, b := links[p].parent, links[q].parent;
      assert path[a] <= path[p] && path[b] <= path[p];
      assert links[p].tokens[0] == path[p][|path[a]|] && links[q].tokens[0] == path[p][|path[b]|];
      if |path[a]| == |path[b]| {
        Unique(links, path, a, b);
      } else if |path[a]| < |path[b]| {
        PrefixesOrdered(path[a], path[b], path[p]);
        Toward(links, path, a, b);
      } else {
        PrefixesOrdered(path[b], path[a], path[p]);
        Toward(links, path, b, a);
      }
    }
  }

  /** Whenever `cur` spells a proper prefix of what `p` spells, the child of `cur` keyed by the
      next token exists and still spells a prefix of it. */
  lemma {:induction false} Toward(links: Links, path: Paths, cur: Ptr, p: Ptr)
    requires Shape(links, path) && cur in links && p in links
    requires path[cur] <= path[p] && |path[cur]| < |path[p]|
    ensures path[p][|path[cur]|] in links[cur].children
    ensures links[cur].children[path[p][|path[cur]|]] in links
    ensures path[links[cur].children[path[p][|path[cur]|]]] <= path[p]
    decreases |path[p]|, 1
  {
    assert NodeOk(links, path, p) && NodeOk(links, path, cur);
    var q := links[p].parent;
    PrefixesOrdered(if |path[cur]| <= |path[q]| then path[cur] else path[q],
                    if |path[cur]| <= |path[q]| then path[q] else path[cur], path[p]);
    if |path[cur]| < |path[q]| {
      Toward(links, path, cur, q);
    } else if |path[cur]| == |path[q]| {
      Unique(links, path, cur, q);
    } else {
      Toward(links, path, q, cur);
    }
  }

  // ---------------------------------------------------------------- the three structural edits

  /** Cut `p` after `k` tokens: `p` keeps the prefix, the new node `s` takes the rest of
      the tokens and all of the children. */
  function SplitLinks(links: Links, p: Ptr, k: nat, s: Ptr): Links
    requires p in links && 0 < k < |links[p].tokens|
  {
    var n := links[p];
    map q | q in links.Keys + {s} ::
      if q == s then Link(n.tokens[k..], p, n.children)
      else if q == p then n.(tokens := n.tokens[..k], children := map[n.tokens[k] := s])
      else if q != ROOT && links[q].parent == p then links[q].(parent := s)
      else links[q]
  }

  ghost function SplitPaths(links: Links, path: Paths, p: Ptr, k: nat, s: Ptr): Paths
    requires p in links && p in path && k <= |links[p].tokens| <= |path[p]|
  {
    path[s := path[p]][p := path[p][..|path[p]| - |links[p].tokens| + k]]
  }

  lemma SplitShape(links: Links, path: Paths, p: Ptr, k: nat, s: Ptr, links': Links, path': Paths)
    requires Shape(links, path) && p in links && p != ROOT && s !in links
    requires 0 < k < |links[p].tokens| <= |path[p]|
    requires links' == SplitLinks(links, p, k, s) && path' == SplitPaths(links, path, p, k, s)
    ensures Shape(links', path') && links'.Keys == links.Keys + {s}
  {
    assert NodeOk(links, path, p) && NodeOk(links, path, ROOT);
    var a := links[p].parent;
    assert path'[s] == path'[p] + links'[s].tokens;
    assert path'[p] == path[a] + links'[p].tokens;
    assert UpOk(links', path', s) && DownOk(links', s);
    assert links'[a].children == links[a].children;
    assert UpOk(links', path', p) && DownOk(links', p);
    forall q | q in links && q != p ensures NodeOk(links', path', q) {
      SplitUp(links, path, p, k, s, links', path', q);
      SplitDown(links, path, p, k, s, links', q);
    }
  }

  lemma SplitUp(links: Links, path: Paths, p: Ptr, k: nat, s: Ptr, links': Links, path': Paths, q: Ptr)
    requires Shape(links, path) && p in links && p != ROOT && s !in links
    requires 0 < k < |links[p].tokens| <= |path[p]|
    requires links' == SplitLinks(links, p, k, s) && path' == SplitPaths(links, path, p, k, s)
    requires links'.Keys == path'.Keys && q in links && q != p
    ensures UpOk(links', path', q)
  {
    assert NodeOk(links, path, q);
    if q != ROOT { assert NodeOk(links, path, links[q].parent); }
  }

  lemma SplitDown(links: Links, path: Paths, p: Ptr, k: nat, s: Ptr, links': Links, q: Ptr)
    requires Shape(links, path) && p in links && s !in links && q in links && q != p
    requires 0 < k < |links[p].tokens|
    requires links' == SplitLinks(links, p, k, s)
    ensures DownOk(links', q)
  {
    assert NodeOk(links, path, q);
    assert links'[q].children == links[q].children;
    assert forall c | c in links && c != ROOT && c != p && links[c].parent != p :: links'[c] == links[c];
  }

  /** Hang a new leaf `s` spelling `tokens` below `p`. */
  function LeafLinks(links: Links, p: Ptr, tokens: Word, s: Ptr): Links
    requires p in links && tokens != []
  {
    links[p := links[p].(children := links[p].children[tokens[0] := s])][s := Link(tokens, p, map[])]
  }

  lemma LeafShape(links: Links, path: Paths, p: Ptr, tokens: Word, s: Ptr)
    requires Shape(links, path) && p in links && s !in links && tokens != [] && tokens[0] !in links[p].children
    ensures Shape(LeafLinks(links, p, tokens, s), path[s := path[p] + tokens])
  {
    var links', path' := LeafLinks(links, p, tokens, s), path[s := path[p] + tokens];
    assert NodeOk(links, path, p) && NodeOk(links, path, ROOT);
    assert NodeOk(links', path', s);
    forall q | q in links ensures NodeOk(links', path', q) {
      assert NodeOk(links, path, q);
      if q != ROOT {
        assert NodeOk(links, path, links[q].parent);
        assert links'[q].parent == links[q].parent;
      }
      forall k | k in links'[q].children && links'[q].children[k] != s
        ensures k in links[q].children && links'[q].children[k] == links[q].children[k]
      {
      }
    }
  }

  /** Take the childless node `p` out of the arena and out of its parent's children. */
  function DropLinks(links: Links, p: Ptr): Links
    requires p in links && links[p].tokens != [] && links[p].parent in links
  {
    var a := links[p].parent;
    links[a := links[a].(children := links[a].children - {links[p].tokens[0]})] - {p}
  }

  lemma DropShape(links: Links, path: Paths, p: Ptr)
    requires Shape(links, path) && p in links && p != ROOT && links[p].children == map[]
    ensures links[p].tokens != [] && links[p].parent in links && links[p].parent != p
    ensures Shape(DropLinks(links, p), path - {p})
  {
    assert NodeOk(links, path, p);
    assert NodeOk(links, path, links[p].parent);
    var links', path' := DropLinks(links, p), path - {p};
    forall q | q in links' ensures NodeOk(links', path', q) {
      assert NodeOk(links, path, q);
      if q != ROOT { assert NodeOk(links, path, links[q].parent); }
    }
  }

  // ---------------------------------------------------------------- the set of strings it spells

  /** Some node's path extends `w`: the prefix-closed set of strings the tree stands for. */
  ghost predicate Spells(path: Paths, w: Word) {
    exists p {:trigger path[p]} :: p in path && w <= path[p]
  }

  /** `n` is the length of the longest prefix of `w` that the tree spells. */
  ghost predicate LongestSpelled(path: Paths, w: Word, n: nat) {
    && n <= |w|
    && Spells(path, w[..n])
    && (n < |w| ==> !Spells(path, w[..n + 1]))
  }

  /** No child continues `w` past `cur`, so no node spells one token more. */
  lemma StuckAt(links: Links, path: Paths, cur: Ptr, w: Word)
    requires Shape(links, path) && cur in links && path[cur] <= w && |path[cur]| < |w|
    requires w[|path[cur]|] !in links[cur].children
    ensures LongestSpelled(path, w, |path[cur]|)
  {
    var n := |path[cur]|;
    assert w[..n] == path[cur];
    forall p | p in path ensures !(w[..n + 1] <= path[p]) {
      assert w[..n + 1] <= path[p] ==> path[cur] <= path[p] && path[p][n] == w[n];
      if path[cur] <= path[p] && |path[cur]| < |path[p]| {
        Toward(links, path, cur, p);
      }
    }
  }

  /** `w` leaves the edge into `child` after `k` tokens of it. */
  lemma StuckInside(links: Links, path: Paths, child: Ptr, w: Word, n: nat)
    requires Shape(links, path) && child in links && child != ROOT
    requires links[child].parent in links && path[links[child].parent] <= w
    requires |path[links[child].parent]| < n < |path[child]| && n <= |w|
    requires path[child][..n] == w[..n]
    requires n < |w| ==> path[child][n] != w[n]
    ensures LongestSpelled(path, w, n)
  {
    var cur := links[child].parent;
    assert NodeOk(links, path, child);
    assert w[..n] <= path[child];
    var m := |path[cur]|;
    assert path[child][m] == path[child][..n][m] == w[m];
    forall p | p in path && path[cur] <= path[p] && m < |path[p]| && path[p][m] == w[m]
      ensures n < |path[p]| && path[p][n] == path[child][n]
    {
      Toward(links, path, cur, p);
    }
    if n < |w| {
      assert w[..n + 1][m] == w[m] && w[..n + 1][n] == w[n] && path[cur] <= w[..n + 1];
    }
  }

  // ---------------------------------------------------------------- what walking and growing establish

  /** Every old node is still there and only `cur` may spell less than before, but never as little
      as its parent does. */
  ghost predicate Carried(links: Links, path: Paths, links': Links, path': Paths, cur: Ptr) {
    && Shape(links, path) && Shape(links', path') && links.Keys <= links'.Keys
    && (forall p | p in links :: path'[p] <= path[p])
    && (forall p | p in links && p != cur :: path'[p] == path[p])
    && cur in links
    && (cur != ROOT ==> links[cur].parent in links && |path[links[cur].parent]| < |path'[cur]|)
  }

  /** Result of walking `w` down from the root: at most one node, the one the walk ends on, is
      shortened by a split, and a new node takes its old path. */
  ghost predicate Found(links: Links, path: Paths, w: Word, links': Links, path': Paths, cur: Ptr, n: nat) {
    && Carried(links, path, links', path', cur)
    && n <= |w| && path'[cur] == w[..n]
    && LongestSpelled(path, w, n)
    && (n < |w| ==> w[n] !in links'[cur].children)
    && (forall p | p in links' && p !in links :: path'[p] == path[cur])
    && (path'[cur] == path[cur] || exists p :: p in links' && p !in links)
  }

  /** Result of adding `w` to the tree: `leaf` spells all of `w`, `cache` the part that was already
      spelled, and `leaf` is `cache` or hangs below it. */
  ghost predicate Grown(links: Links, path: Paths, w: Word, links': Links, path': Paths, cache: Ptr, leaf: Ptr,
                        n: nat) {
    && Carried(links, path, links', path', cache)
    && leaf in links' && n <= |w| && path'[cache] == w[..n] && path'[leaf] == w
    && LongestSpelled(path, w, n)
    && (leaf == cache || (leaf != ROOT && links'[leaf].parent == cache && leaf !in links))
  }

  /** The tree refines a set of strings: a walk changes nothing. */
  lemma FoundSpells(links: Links, path: Paths, w: Word, links': Links, path': Paths, cur: Ptr, n: nat)
    requires Found(links, path, w, links', path', cur, n)
    ensures forall v :: Spells(path', v) <==> Spells(path, v)
  {
    forall v ensures Spells(path', v) <==> Spells(path, v) {
      if Spells(path', v) {
        var p :| p in path' && v <= path'[p];
        assert if p in links then v <= path[p] else v <= path[cur];
      }
      if Spells(path, v) {
        var p :| p in path && v <= path[p];
        if p == cur && path'[cur] != path[cur] {
          var s :| s in links' && s !in links;
          assert v <= path'[s];
        } else {
          assert v <= path'[p];
        }
      }
    }
  }

  lemma SplitFound(links: Links, path: Paths, w: Word, n: nat, child: Ptr, k: nat, s: Ptr, links': Links, path': Paths)
    requires Shape(links, path) && Shape(links', path')
    requires child in links && child != ROOT && s !in links && 0 < k < |links[child].tokens| <= |path[child]|
    requires links' == SplitLinks(links, child, k, s) && path' == SplitPaths(links, path, child, k, s)
    requires n <= |w| && |path[child]| - |links[child].tokens| + k == n && path[child][..n] == w[..n]
    requires n < |w| ==> path[child][n] != w[n]
    requires LongestSpelled(path, w, n)
    ensures Found(links, path, w, links', path', child, n)
  {
    assert s in links' && s !in links;
    assert NodeOk(links, path, child);
    assert links[child].tokens[k] == path[child][n];
  }

  lemma StayFound(links: Links, path: Paths, w: Word, cur: Ptr, n: nat)
    requires Shape(links, path) && cur in links && n <= |w| && path[cur] == w[..n]
    requires n < |w| ==> w[n] !in links[cur].children
    ensures Found(links, path, w, links, path, cur, n)
  {
    assert NodeOk(links, path, cur);
    if n < |w| {
      StuckAt(links, path, cur, w);
    } else {
      assert w[..n] == w && w <= path[cur];
    }
  }

  lemma RootSpellsNothing(links: Links, path: Paths)
    requires Shape(links, path)
    ensures ROOT in links && path[ROOT] == [] && links[ROOT].tokens == []
  {
    assert NodeOk(links, path, ROOT);
  }

  lemma EdgeStep(links: Links, path: Paths, cur: Ptr, t: Token)
    requires Shape(links, path) && cur in links && t in links[cur].children
    ensures links.Keys == path.Keys
    ensures var c := links[cur].children[t];
            && c in links && c != ROOT && links[c].parent == cur
            && links[c].tokens != [] && links[c].tokens[0] == t && path[c] == path[cur] + links[c].tokens
  {
    assert NodeOk(links, path, cur);
    assert NodeOk(links, path, links[cur].children[t]);
  }

  lemma LeafGrown(links: Links, path: Paths, w: Word, mid: Links, midPath: Paths, cur: Ptr, n: nat, s: Ptr,
                  links': Links, path': Paths)
    requires Found(links, path, w, mid, midPath, cur, n) && n < |w| && s !in mid
    requires links' == LeafLinks(mid, cur, w[n..], s) && path' == midPath[s := w]
    ensures Grown(links, path, w, links', path', cur, s, n)
    ensures Shape(links', path') && links'.Keys == mid.Keys + {s}
  {
    assert midPath[cur] + w[n..] == w;
    LeafShape(mid, midPath, cur, w[n..], s);
  }

  lemma LeafSpells(links: Links, path: Paths, w: Word, mid: Links, midPath: Paths, cur: Ptr, n: nat, s: Ptr,
                   path': Paths)
    requires Found(links, path, w, mid, midPath, cur, n) && s !in mid && path' == midPath[s := w]
    ensures forall v :: Spells(path', v) <==> Spells(path, v) || v <= w
  {
    FoundSpells(links, path, w, mid, midPath, cur, n);
    forall v ensures Spells(path', v) <==> Spells(midPath, v) || v <= w {
      if Spells(midPath, v) {
        var p :| p in midPath && v <= midPath[p];
        assert v <= path'[p];
      }
      if v <= w { assert v <= path'[s]; }
    }
  }

  lemma StayGrown(links: Links, path: Paths, w: Word, links': Links, path': Paths, cur: Ptr)
    requires Found(links, path, w, links', path', cur, |w|)
    ensures Grown(links, path, w, links', path', cur, cur, |w|) && Shape(links', path')
    ensures forall v :: Spells(path', v) <==> Spells(path, v) || v <= w
  {
    assert w[..|w|] == w && w <= path'[cur];
    FoundSpells(links, path, w, links', path', cur, |w|);
  }

  // ---------------------------------------------------------------- pruning

  /** Result of pruning upward from `start`: exactly the nodes strictly below `stop` on the way to
      `start` are gone. */
  ghost predicate Pruned(links: Links, path: Paths, start: Ptr, links': Links, path': Paths, stop: Ptr) {
    && Shape(links, path) && Shape(links', path')
    && start in links && stop in links' && links'.Keys <= links.Keys
    && path[stop] <= path[start]
    && (forall p | p in links' :: path'[p] == path[p] && links'[p].parent == links[p].parent)
    && (forall p | p in links :: p !in links' <==> |path[stop]| < |path[p]| && path[p] <= path[start])
  }

  lemma PrunedStart(links: Links, path: Paths, start: Ptr)
    requires Shape(links, path) && start in links
    ensures Pruned(links, path, start, links, path, start)
  {
  }

  /** Nothing on the way up lies strictly between a node and its parent. */
  lemma BetweenParent(links: Links, path: Paths, p: Ptr, b: Ptr)
    requires Shape(links, path) && p in links && p != ROOT && b in links
    requires links[p].parent in links && |path[links[p].parent]| < |path[b]| && path[b] <= path[p]
    ensures b == p
  {
    assert NodeOk(links, path, p);
    var a := links[p].parent;
    assert path[a] <= path[p];
    PrefixesOrdered(path[a], path[b], path[p]);
    Toward(links, path, a, b);
    assert path[b][|path[a]|] == path[p][|path[a]|] == links[p].tokens[0];
    Unique(links, path, b, p);
  }

  /** Dropping the childless node the pruning has reached moves the stopping point to its parent. */
  lemma PruneStep(links: Links, path: Paths, start: Ptr, mid: Links, midPath: Paths, cur: Ptr)
    requires Pruned(links, path, start, mid, midPath, cur)
    requires cur != ROOT && mid[cur].children == map[]
    ensures mid[cur].tokens != [] && mid[cur].parent in mid && |midPath[mid[cur].parent]| < |midPath[cur]|
    ensures Pruned(links, path, start, DropLinks(mid, cur), midPath - {cur}, mid[cur].parent)
    ensures Shape(DropLinks(mid, cur), midPath - {cur}) && mid[cur].parent != cur
    ensures DropLinks(mid, cur).Keys == mid.Keys - {cur}
  {
    DropShape(mid, midPath, cur);
    assert NodeOk(mid, midPath, cur);
    var a := mid[cur].parent;
    assert path[a] <= path[cur];
    PrefixTrans(path[a], path[cur], path[start]);
    forall p | p in mid && |path[a]| < |path[p]| && path[p] <= path[start] ensures p == cur {
      PrefixesOrdered(path[p], path[cur], path[start]);
      BetweenParent(mid, midPath, cur, p);
    }
  }

  // ---------------------------------------------------------------- which nodes a string touches

  /** `w` shares at least one token with the edge into `p`. */
  ghost predicate Touched(links: Links, path: Paths, w: Word, p: Ptr)
    requires links.Keys == path.Keys
  {
    p in links && p != ROOT && links[p].parent in links && |path[links[p].parent]| < Lcp(path[p], w)
  }

  /** Every touched node is on the way down to `cur`, or the next child leads to it. */
  lemma TouchedAhead(links: Links, path: Paths, w: Word, cur: Ptr, p: Ptr)
    requires Shape(links, path) && cur in links && path[cur] <= w && Touched(links, path, w, p)
    ensures path[p] <= path[cur] ||
            (|path[cur]| < |w| && w[|path[cur]|] in links[cur].children &&
             var c := links[cur].children[w[|path[cur]|]];
             c in links && path[c] <= path[p] && (p == c || path[c] <= w))
  {
    assert NodeOk(links, path, p);
    var a, n, l := links[p].parent, |path[cur]|, Lcp(path[p], w);
    assert path[p][..l] == w[..l];
    assert forall i | 0 <= i < l :: path[p][..l][i] == path[p][i] && w[..l][i] == w[i];
    assert path[a] <= path[p] && path[a] == path[p][..|path[a]|] == w[..|path[a]|];
    if |path[a]| < n {
      PrefixesOrdered(path[a], path[cur], w);
      Toward(links, path, a, cur);
      assert path[cur][|path[a]|] == w[|path[a]|] == path[p][|path[a]|] == links[p].tokens[0];
    } else {
      PrefixesOrdered(path[cur], path[a], w);
      Toward(links, path, cur, p);
      assert path[p][n] == w[n];
      var c := links[cur].children[path[p][n]];
      if p != c && |path[c]| > |path[a]| {
        BetweenParent(links, path, p, c);
      }
      if p != c {
        assert path[c] == path[p][..|path[c]|] == w[..|path[c]|];
      }
    }
  }

  lemma LongestIsUnique(path: Paths, w: Word, m: nat, n: nat)
    requires LongestSpelled(path, w, m) && LongestSpelled(path, w, n)
    ensures m == n
  {
    NoLongerSpelled(path, w, m, n);
    NoLongerSpelled(path, w, n, m);
  }

  lemma NoLongerSpelled(path: Paths, w: Word, n: nat, k: nat)
    requires LongestSpelled(path, w, n) && k <= |w| && Spells(path, w[..k])
    ensures k <= n
  {
    var p :| p in path && w[..k] <= path[p];
    var j := if k <= n then k else n + 1;
    assert w[..j] <= w[..k];
    PrefixTrans(w[..j], w[..k], path[p]);
    assert Spells(path, w[..j]);
  }

  /** If `w` ends inside the edge into `p`, the walk of `w` ends there too and it is `p` that is split. */
  lemma LeftInside(links: Links, path: Paths, w: Word, p: Ptr, cache: Ptr, n: nat)
    requires Shape(links, path) && Touched(links, path, w, p) && cache in links
    requires Lcp(path[p], w) < |path[p]| && LongestSpelled(path, w, n)
    requires n <= |path[cache]| && path[cache][..n] == w[..n]
    requires cache != ROOT ==> links[cache].parent in links && |path[links[cache].parent]| < n
    ensures n == Lcp(path[p], w) && p == cache
  {
    hide Lcp;
    var r, up := Lcp(path[p], w), links[p].parent;
    var m := |path[up]|;
    ParentSpells(links, path, p);
    assert path[p][..r] == w[..r];
    assert path[up] == path[p][..m] == path[p][..r][..m] == w[..m];
    StuckInside(links, path, p, w, r);
    LongestIsUnique(path, w, n, r);
    assert path[cache][..m] == path[cache][..n][..m] == w[..n][..m] == path[up];
    assert path[cache][m] == path[cache][..n][m] == path[p][..r][m] == path[p][m];
    RootSpellsNothing(links, path);
    Toward(links, path, up, cache);
    if |path[links[cache].parent]| < |path[p]| {
      BetweenParent(links, path, cache, p);
    }
  }

  lemma ParentSpells(links: Links, path: Paths, p: Ptr)
    requires Shape(links, path) && p in links && p != ROOT
    ensures links[p].parent in links && path[links[p].parent] <= path[p] && links[p].tokens != []
    ensures |path[links[p].parent]| < |path[p]| && links[p].tokens[0] == path[p][|path[links[p].parent]|]
    ensures links[p].tokens[0] in links[links[p].parent].children
    ensures links[links[p].parent].children[links[p].tokens[0]] == p
  {
    assert NodeOk(links, path, p);
  }

  /** Where a touched node ends up once `w` has been added: it spells exactly the part of `w` it touched. */
  lemma TouchedAfter(links: Links, path: Paths, w: Word, links': Links, path': Paths, cache: Ptr, leaf: Ptr, n: nat,
                     p: Ptr)
    requires Grown(links, path, w, links', path', cache, leaf, n) && Touched(links, path, w, p)
    ensures path'[p] == w[..Lcp(path[p], w)] && Lcp(path[p], w) <= n
  {
    hide Lcp;
    var r := Lcp(path[p], w);
    assert path[p][..r] == w[..r];
    assert w[..r] <= path[p];
    NoLongerSpelled(path, w, n, r);
    assert path'[cache] <= path[cache] && path'[cache] == w[..n];
    if r < |path[p]| {
      LeftInside(links, path, w, p, cache, n);
    } else {
      assert path[p] == w[..r];
      assert p == cache ==> path'[p] == path[p][..n];
    }
  }

  // ---------------------------------------------------------------- where a string ends

  /** `w` ends at `p` or inside the edge that leads to it. */
  ghost predicate EndsInEdge(links: Links, path: Paths, p: Ptr, w: Word) {
    && p in links && p in path && p != ROOT && links[p].parent in path
    && w <= path[p] && |path[links[p].parent]| < |w|
  }

  /** Making the tree spell `w` ends on a node that was there before exactly if `w` ends in the edge to that node. */
  lemma EndsOnOld(links: Links, path: Paths, w: Word, links': Links, path': Paths, cache: Ptr, node: Ptr, n: nat,
                  p: Ptr)
    requires Grown(links, path, w, links', path', cache, node, n) && p in links && p != ROOT
    ensures node == p <==> EndsInEdge(links, path, p, w)
  {
    ParentSpells(links, path, p);
    if EndsInEdge(links, path, p, w) {
      CommonIsShorter(path[p], w, |w|);
      hide Lcp;
      TouchedAfter(links, path, w, links', path', cache, node, n, p);
      assert w[..|w|] == w;
      if node != p { Unique(links', path', node, p); }
    }
  }

  /** Whatever a grown tree spells, but for the new leaf, was spelled before. */
  lemma GrownSpells(links: Links, path: Paths, w: Word, links': Links, path': Paths, cache: Ptr, node: Ptr, n: nat,
                    p: Ptr)
    requires Grown(links, path, w, links', path', cache, node, n) && p in links'
    requires forall v :: Spells(path', v) <==> Spells(path, v) || v <= w
    requires p != node || node == cache
    ensures Spells(path, path'[p])
  {
    var v := path'[p];
    assert Spells(path', v);
    if v <= w {
      if |v| <= n {
        assert path'[cache] == w[..n];
        var q :| q in path && w[..n] <= path[q];
        assert v <= w[..n];
        PrefixTrans(v, w[..n], path[q]);
        assert Spells(path, v);
      } else if node != cache {
        BetweenParent(links', path', node, p);
      }
    }
  }

  /** A new leaf has no children. */
  lemma NewLeafIsBare(links: Links, path: Paths, w: Word, links': Links, path': Paths, cache: Ptr, node: Ptr, n: nat)
    requires Grown(links, path, w, links', path', cache, node, n) && node != cache
    requires forall v :: Spells(path', v) <==> Spells(path, v) || v <= w
    ensures links'[node].children == map[] && node != ROOT
  {
    if links'[node].children != map[] {
      var k := SomeOf(links'[node].children.Keys);
      var c := links'[node].children[k];
      EdgeStep(links', path', node, k);
      GrownSpells(links, path, w, links', path', cache, node, n, c);
      var q :| q in path && path'[c] <= path[q];
      assert w[..|w|] == w && w <= path'[c];
      PrefixTrans(w, path'[c], path[q]);
      assert Spells(path, w[..|w|]);
      NoLongerSpelled(path, w, n, |w|);
      Unique(links', path', node, cache);
    }
  }

  lemma SpelledThrough(path: Paths, path': Paths, v: Word)
    requires Spells(path', v) && forall p | p in path' :: Spells(path, path'[p])
    ensures Spells(path, v)
  {
    var p :| p in path' && v <= path'[p];
    var q :| q in path && path'[p] <= path[q];
    PrefixTrans(v, path'[p], path[q]);
    assert q in path && v <= path[q];
  }
}
