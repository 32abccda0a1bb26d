/** Reciprocal rank fusion of two orderings (src/ap_agent/rag/dense.py, `fuse_by_rank`). */
module RankFusion {
  import opened Prelude

  /** The candidates an ordering nominates. */
  function Head(order: seq<int>, depth: nat): seq<int> {
    if |order| <= depth then order else order[..depth]
  }

  /** What the places of a chunk in a head are worth; place number r, counted from one, is worth
      1 / (k + r). */
  function Share(head: seq<int>, k: nat, index: int): real {
    if head == [] then 0.0
    else
      Share(head[..|head| - 1], k, index) +
      (if head[|head| - 1] == index then Worth(k, |head|) else 0.0)
  }

  function Worth(k: nat, rank: nat): real
    requires rank >= 1
  {
    1.0 / (k + rank) as real
  }

  function ScoreOf(lexical: seq<int>, dense: seq<int>, depth: nat, k: nat, index: int): real {
    Share(Head(lexical, depth), k, index) + Share(Head(dense, depth), k, index)
  }

  /** One ordering's places added to the scores so far. */
  method AddOrder(fused: map<int, real>, head: seq<int>, k: nat) returns (result: map<int, real>)
    ensures forall i :: i in result <==> i in fused || i in head
    ensures forall i :: i in result ==> result[i] == (if i in fused then fused[i] else 0.0) + Share(head, k, i)
  {
    result := fused;
    NoShare(fused, k);
    for n := 0 to |head|
      invariant forall i :: i in result <==> i in fused || i in head[..n]
      invariant forall i :: i in result ==> result[i] == (if i in fused then fused[i] else 0.0) + Share(head[..n], k, i)
    {
      var index, rank := head[n], n + 1;
      ghost var before := head[..n];
      assert head[..n + 1] == before + [index];
      ShareOfAbsent(before, k);
      forall i ensures Share(head[..n + 1], k, i) ==
        Share(before, k, i) + (if index == i then Worth(k, rank) else 0.0)
      {
        assert head[..n + 1][..n] == before;
      }
      result := result[index := (if index in result then result[index] else 0.0) + Worth(k, rank)];
    }
    assert head[..|head|] == head;
  }

  lemma NoShare(fused: map<int, real>, k: nat)
    ensures forall i :: Share([], k, i) == 0.0
  {
  }

  lemma {:induction false} ShareOfAbsent(head: seq<int>, k: nat)
    ensures forall i :: i !in head ==> Share(head, k, i) == 0.0
  {
    if head != [] {
      ShareOfAbsent(head[..|head| - 1], k);
    }
  }

  /** The result maps exactly the chunks that either retriever nominated to their fused scores. */
  method FuseByRank(lexical: seq<int>, dense: seq<int>, depth: nat, k: nat) returns (fused: map<int, real>)
    ensures fused.Keys == (set i | i in Head(lexical, depth)) + (set i | i in Head(dense, depth))
    ensures forall i :: i in fused ==> fused[i] == ScoreOf(lexical, dense, depth, k, i)
  {
    hide Share;
    var first := AddOrder(map[], Head(lexical, depth), k);
    fused := AddOrder(first, Head(dense, depth), k);
    ShareOfAbsent(Head(lexical, depth), k);
    forall i ensures i in fused <==> i in Head(lexical, depth) || i in Head(dense, depth) {
      assert i in first <==> i in Head(lexical, depth);
    }
    forall i | i in fused ensures fused[i] == ScoreOf(lexical, dense, depth, k, i) {
      assert (if i in first then first[i] else 0.0) == Share(Head(lexical, depth), k, i);
    }
  }

  // ---- what the scores mean -----------------------------------------------------------

  predicate DuplicateFree(order: seq<int>) {
    forall i, j | 0 <= i < j < |order| :: order[i] != order[j]
  }

  lemma WorthFalls(k: nat, r: nat, s: nat)
    requires 1 <= r <= s
    ensures 0.0 < Worth(k, s) <= Worth(k, r)
    ensures r < s ==> Worth(k, s) < Worth(k, r)
  {
    var x, y := (k + r) as real, (k + s) as real;
    assert 0.0 < x <= y;
    assert Worth(k, r) - Worth(k, s) == (y - x) / (x * y);
  }

  /** In a duplicate-free head a chunk is worth exactly its one place. */
  lemma {:induction false} ShareAt(head: seq<int>, k: nat, p: nat)
    requires DuplicateFree(head) && p < |head|
    ensures Share(head, k, head[p]) == Worth(k, p + 1)
  {
    var last := |head| - 1;
    if p == last {
      assert head[p] !in head[..last];
      ShareOfAbsent(head[..last], k);
    } else {
      assert head[..last][p] == head[p];
      ShareAt(head[..last], k, p);
    }
  }

  lemma ShareBounds(head: seq<int>, k: nat, depth: nat, i: int)
    requires DuplicateFree(head) && |head| <= depth
    ensures i in head ==> Worth(k, depth) <= Share(head, k, i) <= Worth(k, 1)
    ensures i !in head ==> Share(head, k, i) == 0.0
  {
    if i in head {
      var p :| 0 <= p < |head| && head[p] == i;
      ShareAt(head, k, p);
      WorthFalls(k, 1, p + 1);
      WorthFalls(k, p + 1, depth);
    } else {
      ShareOfAbsent(head, k);
    }
  }

  lemma HeadIsPrefix(order: seq<int>, depth: nat)
    requires DuplicateFree(order)
    ensures Head(order, depth) <= order && |Head(order, depth)| <= depth && DuplicateFree(Head(order, depth))
  {
  }

  /** What an ordering gives a chunk: nothing unless it stands among the first `depth`, and there, at place r counted
      from one, 1 / (k + r). */
  lemma PlaceDecides(order: seq<int>, depth: nat, k: nat, p: nat)
    requires DuplicateFree(order) && p < |order|
    ensures order[p] in Head(order, depth) <==> p < depth
    ensures Share(Head(order, depth), k, order[p]) == if p < depth then 1.0 / (k + (p + 1)) as real else 0.0
  {
    HeadIsPrefix(order, depth);
    var head := Head(order, depth);
    if p < depth {
      assert head[p] == order[p];
      ShareAt(head, k, p);
    } else {
      ShareOfAbsent(head, k);
    }
  }

  /** A chunk an ordering does not mention gets nothing from it. */
  lemma UnmentionedGetsNothing(order: seq<int>, depth: nat, k: nat, i: int)
    requires i !in order
    ensures i !in Head(order, depth) && Share(Head(order, depth), k, i) == 0.0
  {
    ShareOfAbsent(Head(order, depth), k);
  }

  lemma TwoFirstPlaces(k: nat)
    ensures Worth(k, 1) + Worth(k, 1) == 2.0 / (k + 1) as real
  {
  }

  /** Every nominated chunk scores between the worth of one last place and that of two first places. */
  lemma ScoresAreBounded(lexical: seq<int>, dense: seq<int>, depth: nat, k: nat, i: int)
    requires DuplicateFree(lexical) && DuplicateFree(dense)
    requires i in Head(lexical, depth) || i in Head(dense, depth)
    ensures depth >= 1 &&
      1.0 / (k + depth) as real <= ScoreOf(lexical, dense, depth, k, i) <= 2.0 / (k + 1) as real
  {
    hide Share;
    HeadIsPrefix(lexical, depth);
    HeadIsPrefix(dense, depth);
    ShareBounds(Head(lexical, depth), k, depth, i);
    ShareBounds(Head(dense, depth), k, depth, i);
    WorthFalls(k, 1, depth);
    TwoFirstPlaces(k);
  }

  predicate Ahead(order: seq<int>, better: int, worse: int) {
    exists p, q :: 0 <= p < q < |order| && order[p] == better && order[q] == worse
  }

  lemma AheadInOneOrder(order: seq<int>, depth: nat, k: nat, better: int, worse: int)
    requires DuplicateFree(order) && Ahead(order, better, worse)
    ensures var head := Head(order, depth);
      Share(head, k, better) >= Share(head, k, worse) &&
      (worse in head ==> better in head && Share(head, k, better) > Share(head, k, worse))
  {
    var head := Head(order, depth);
    var p, q :| 0 <= p < q < |order| && order[p] == better && order[q] == worse;
    HeadIsPrefix(order, depth);
    if worse in head {
      var w :| 0 <= w < |head| && head[w] == worse;
      assert order[w] == worse && w == q;
      assert head[p] == better;
      ShareAt(head, k, p);
      ShareAt(head, k, q);
      WorthFalls(k, p + 1, q + 1);
    } else {
      ShareBounds(head, k, |head|, better);
      ShareOfAbsent(head, k);
      if better in head {
        WorthFalls(k, 1, |head|);
      }
    }
  }

  /** Pareto consistency: a chunk that both retrievers put ahead of a nominated one is nominated too, and
      its fused score is strictly higher. */
  lemma FusionIsParetoConsistent(
      lexical: seq<int>, dense: seq<int>, depth: nat, k: nat, better: int, worse: int)
    requires DuplicateFree(lexical) && DuplicateFree(dense)
    requires Ahead(lexical, better, worse) && Ahead(dense, better, worse)
    requires worse in Head(lexical, depth) || worse in Head(dense, depth)
    ensures better in Head(lexical, depth) || better in Head(dense, depth)
    ensures ScoreOf(lexical, dense, depth, k, better) > ScoreOf(lexical, dense, depth, k, worse)
  {
    AheadInOneOrder(lexical, depth, k, better, worse);
    AheadInOneOrder(dense, depth, k, better, worse);
  }
}
