/**
  Operator graphs and Kahn's algorithm.

  The graph may have duplicate edges, duplicate operator ids and edges that name
  unknown operators; the method below says what happens in each of these cases.
 */
module DagModel {
  import opened Wrappers
  import opened Sequences

  datatype OperatorNode = OperatorNode(operatorId: string, operatorType: string)

  datatype Dependency = Dependency(upstreamId: string, downstreamId: string)

  /** `UnknownOperator` is the KeyError of the in-degree table, `HasCycle` the ValueError. */
  datatype OrderError = UnknownOperator(id: string) | HasCycle

  datatype OperatorDag = OperatorDag(operators: seq<OperatorNode>, dependencies: seq<Dependency>) {

    function Ids(): (ids: seq<string>)
      ensures |ids| == |operators|
      ensures forall i :: 0 <= i < |ids| ==> ids[i] == operators[i].operatorId
    {
      seq(|operators|, i requires 0 <= i < |operators| => operators[i].operatorId)
    }

    function DownstreamIds(id: string): seq<string> {
      Downstreams(dependencies, id)
    }

    ghost predicate HasEdge(a: string, b: string) {
      Dependency(a, b) in dependencies
    }

    /** Consecutive entries of `p` are joined by an edge. */
    ghost predicate Walk(p: seq<string>) {
      forall i :: 0 <= i < |p| - 1 ==> HasEdge(p[i], p[i + 1])
    }

    ghost predicate Cycle(p: seq<string>) {
      |p| >= 2 && p[0] == p[|p| - 1] && Walk(p)
    }

    ghost predicate Acyclic() {
      forall p :: !Cycle(p)
    }

    ghost predicate DownstreamsKnown() {
      forall d :: d in dependencies ==> d.downstreamId in Ids()
    }

    ghost predicate UpstreamsKnown() {
      forall d :: d in dependencies ==> d.upstreamId in Ids()
    }

    /** Every upstream of an entry of `order` stands before that entry. */
    ghost predicate UpstreamsFirst(order: seq<string>) {
      forall d, j :: d in dependencies && 0 <= j < |order| && order[j] == d.downstreamId
                     ==> d.upstreamId in order[..j]
    }

    /** `order` lists every operator exactly once, upstreams before downstreams. */
    ghost predicate TopologicalOrderOf(order: seq<string>) {
      && Distinct(order)
      && multiset(order) == multiset(Ids())
      && UpstreamsFirst(order)
    }

    /** Whoever comes later became ready no earlier: its last upstream stands no earlier in `order`. */
    ghost predicate ReadyInTurn(seen: seq<string>, order: seq<string>) {
      forall h, k, p :: 0 <= h < k < |seen| && 0 <= p < |order| && HasEdge(order[p], seen[h])
        ==> HasEdgeFrom(order, p, seen[k])
    }

    /** An edge into `x` leaves position `p` or a later one. */
    ghost predicate HasEdgeFrom(order: seq<string>, p: int, x: string) {
      exists q :: 0 <= p <= q < |order| && HasEdge(order[q], x)
    }

    /** Every edge from `u` to `x` is listed before some edge from `u` to `y`. */
    ghost predicate ListedBefore(u: string, x: string, y: string) {
      forall i :: 0 <= i < |dependencies| && dependencies[i] == Dependency(u, x)
        ==> exists j :: i < j < |dependencies| && dependencies[j] == Dependency(u, y)
    }

    /** The operator at position `p` is the last upstream of `x`. */
    ghost predicate LastUpstream(order: seq<string>, p: int, x: string) {
      0 <= p < |order| && HasEdge(order[p], x) && !HasEdgeFrom(order, p + 1, x)
    }

    /** Operators made ready by the same one come in the order of their last edges. */
    ghost predicate SiblingsAsListed(seen: seq<string>, order: seq<string>) {
      forall h, k, p :: 0 <= h < k < |seen| && LastUpstream(order, p, seen[h]) && LastUpstream(order, p, seen[k])
        ==> ListedBefore(order[p], seen[h], seen[k])
    }

    ghost predicate HasUpstream(x: string) {
      exists u :: HasEdge(u, x)
    }

    ghost predicate Earlier(x: string, y: string) {
      exists i, j :: 0 <= i < j < |Ids()| && Ids()[i] == x && Ids()[j] == y
    }

    /** Operators without upstreams come as the table lists them. */
    ghost predicate RootsAsListed(seen: seq<string>) {
      forall h, k :: 0 <= h < k < |seen| && !HasUpstream(seen[h]) && !HasUpstream(seen[k])
        ==> Earlier(seen[h], seen[k])
    }

    /** The order in which Kahn's queue lets the operators go, said without the queue. */
    ghost predicate InTurn(seen: seq<string>, order: seq<string>) {
      ReadyInTurn(seen, order) && SiblingsAsListed(seen, order) && RootsAsListed(seen)
    }

    /**
      Kahn's algorithm.  The result is a topological order exactly when the ids are
      distinct, every edge joins known operators and the graph has no cycle.
     */
    method TopologicalOrder() returns (r: Result<seq<string>, OrderError>)
      ensures r.Success? ==> TopologicalOrderOf(r.value)
      ensures r.Success? ==> InTurn(r.value, r.value)
      ensures r.Success? <==> DownstreamsKnown() && UpstreamsKnown() && Distinct(Ids()) && Acyclic()
      ensures r.Failure? && r.error.UnknownOperator? <==> !DownstreamsKnown()
      ensures r.Failure? && r.error.UnknownOperator? ==>
                r.error.id !in Ids() && exists d :: d in dependencies && d.downstreamId == r.error.id
    {
      var counted := CountEdges();
      if counted.Failure? {
        return Failure(counted.error);
      }
      var inDegree := counted.value;
      var queue := Roots(inDegree);
      var order: seq<string> := [];
      RootsProgress(inDegree, queue);
      while queue != []
        invariant Progress(inDegree, order, queue)
        decreases |Ids()| - |order|
      {
        var node := queue[0];
        ghost var before, done, waiting, added := inDegree, order, queue, [];
        Emits(inDegree, order, queue);
        queue := queue[1..];
        order := order + [node];
        inDegree, queue, added := VisitDownstreams(node, inDegree, order, queue);
        Progresses(before, done, waiting, inDegree, queue, added);
      }
      assert order + queue == order;
      FinishedOrder(order);
      if |order| != |operators| {
        return Failure(HasCycle);
      }
      return Success(order);
    }

    /**
      In-degrees count the edges from operators not emitted yet; those at zero have been queued,
      each once and in turn; what has been emitted has its upstreams first.
     */
    ghost predicate Progress(inDegree: map<string, int>, order: seq<string>, queue: seq<string>) {
      && inDegree.Keys == Elements(Ids())
      && Distinct(order + queue)
      && (forall x :: x in Ids() ==> inDegree[x] == Pending(dependencies, x, Elements(order)))
      && (forall x :: x in order + queue <==> x in Ids() && inDegree[x] == 0)
      && UpstreamsFirst(order)
      && InTurn(order + queue, order)
    }

    lemma RootsProgress(inDegree: map<string, int>, queue: seq<string>)
      requires inDegree.Keys == Elements(Ids()) && Distinct(queue)
      requires forall x :: x in Ids() ==> inDegree[x] == Pending(dependencies, x, {})
      requires forall x :: x in queue <==> x in Ids() && inDegree[x] == 0
      requires forall h, k :: 0 <= h < k < |queue| ==> Earlier(queue[h], queue[k])
      ensures Progress(inDegree, [], queue)
    {
      assert [] + queue == queue && Elements<string>([]) == {};
    }

    /** The next operator in the queue is emitted; the edges it leaves have still to be taken off. */
    lemma Emits(inDegree: map<string, int>, order: seq<string>, queue: seq<string>)
      requires Progress(inDegree, order, queue) && queue != []
      ensures |order| < |Ids()| && queue[0] !in order
      ensures Counts(inDegree, order + [queue[0]] + queue[1..], order + [queue[0]], DownstreamIds(queue[0]))
    {
      var node := queue[0];
      PopFresh(order, queue, node);
      assert order + [node] + queue[1..] == order + queue;
      OrderFits(order + [node], Ids(), order + queue);
      CountsAtStart(node, order, order + [node], inDegree, queue[1..]);
    }

    lemma Progresses(before: map<string, int>, done: seq<string>, waiting: seq<string>,
                     inDegree: map<string, int>, queue: seq<string>, added: seq<string>)
      requires Progress(before, done, waiting) && waiting != []
      requires queue == waiting[1..] + added && Added(waiting[0], added)
      requires Counts(inDegree, done + [waiting[0]] + queue, done + [waiting[0]], [])
      ensures Progress(inDegree, done + [waiting[0]], queue)
    {
      UpstreamsProgress(before, done, waiting);
      TurnsProgress(before, done, waiting, queue, added);
      CountsAtEnd(inDegree, done + [waiting[0]] + queue, done + [waiting[0]]);
    }

    lemma CountsAtEnd(inDegree: map<string, int>, seen: seq<string>, order: seq<string>)
      requires Counts(inDegree, seen, order, [])
      ensures inDegree.Keys == Elements(Ids()) && Distinct(seen)
      ensures forall x :: x in Ids() ==> inDegree[x] == Pending(dependencies, x, Elements(order))
      ensures forall x :: x in seen <==> x in Ids() && inDegree[x] == 0
    {
    }

    lemma UpstreamsProgress(before: map<string, int>, done: seq<string>, waiting: seq<string>)
      requires Progress(before, done, waiting) && waiting != []
      ensures UpstreamsFirst(done + [waiting[0]])
    {
      PopFresh(done, waiting, waiting[0]);
      PendingZero(dependencies, waiting[0], Elements(done));
      UpstreamsFirstExtends(done, waiting[0]);
    }

    lemma TurnsProgress(before: map<string, int>, done: seq<string>, waiting: seq<string>, queue: seq<string>,
                        added: seq<string>)
      requires Progress(before, done, waiting) && waiting != []
      requires queue == waiting[1..] + added && Added(waiting[0], added)
      ensures InTurn(done + [waiting[0]] + queue, done + [waiting[0]])
    {
      PopFresh(done, waiting, waiting[0]);
      AllReady(done + waiting, done, waiting[0]);
      TurnsGoOn(done + waiting, done, waiting[0], added);
      assert waiting == [waiting[0]] + waiting[1..];
      assert done + [waiting[0]] + queue == done + waiting + added;
    }

    /** The in-degree table; an edge into an unknown operator fails the lookup. */
    method CountEdges() returns (r: Result<map<string, int>, OrderError>)
      ensures r.Success? <==> DownstreamsKnown()
      ensures r.Success? ==> r.value.Keys == Elements(Ids())
      ensures r.Success? ==> forall x :: x in Ids() ==> r.value[x] == Pending(dependencies, x, {})
      ensures r.Failure? ==> r.error.UnknownOperator? && r.error.id !in Ids()
                             && exists d :: d in dependencies && d.downstreamId == r.error.id
    {
      var inDegree: map<string, int> := map id | id in Ids() :: 0;
      for i := 0 to |dependencies|
        invariant inDegree.Keys == Elements(Ids())
        invariant forall k :: 0 <= k < i ==> dependencies[k].downstreamId in Ids()
        invariant forall x :: x in inDegree ==> inDegree[x] == Pending(dependencies[..i], x, {})
      {
        var d := dependencies[i].downstreamId;
        if d !in inDegree {
          assert dependencies[i] in dependencies;
          return Failure(UnknownOperator(d));
        }
        assert dependencies[..i + 1] == dependencies[..i] + [dependencies[i]];
        inDegree := inDegree[d := inDegree[d] + 1];
      }
      assert dependencies[..|dependencies|] == dependencies;
      return Success(inDegree);
    }

    /** The ids without incoming edges, in table order. */
    method Roots(inDegree: map<string, int>) returns (queue: seq<string>)
      requires inDegree.Keys == Elements(Ids())
      ensures Distinct(queue)
      ensures forall x :: x in queue <==> x in Ids() && inDegree[x] == 0
      ensures forall h, k :: 0 <= h < k < |queue| ==> Earlier(queue[h], queue[k])
    {
      var ids := Ids();
      queue := [];
      for i := 0 to |ids|
        invariant Distinct(queue)
        invariant forall x :: x in queue <==> x in ids[..i] && inDegree[x] == 0
        invariant forall h, k :: 0 <= h < k < |queue| ==> Earlier(queue[h], queue[k])
      {
        if inDegree[ids[i]] == 0 && ids[i] !in queue {
          forall h | 0 <= h < |queue|
            ensures Earlier(queue[h], ids[i])
          {
            assert queue[h] in queue;
            var j :| 0 <= j < i && ids[..i][j] == queue[h];
            assert ids[j] == queue[h];
          }
          queue := queue + [ids[i]];
        }
        assert ids[..i + 1] == ids[..i] + [ids[i]];
      }
      assert ids[..|ids|] == ids;
    }

    /** The inner loop: one edge less for every downstream of the node just emitted. */
    method VisitDownstreams(node: string, inDegree0: map<string, int>, ghost order: seq<string>, queue0: seq<string>)
      returns (inDegree: map<string, int>, queue: seq<string>, ghost added: seq<string>)
      requires DownstreamsKnown()
      requires Counts(inDegree0, order + queue0, order, DownstreamIds(node))
      ensures Counts(inDegree, order + queue, order, [])
      ensures queue == queue0 + added && Added(node, added)
    {
      inDegree, queue, added := inDegree0, queue0, [];
      var downs := DownstreamIds(node);
      assert downs[0..] == downs && queue0 + [] == queue0;
      for k := 0 to |downs|
        invariant queue == queue0 + added
        invariant Visiting(inDegree, order, queue, added, downs, k)
      {
        var d := downs[k];
        DownstreamKnown(node, d);
        VisitStep(inDegree, order, queue, added, downs, k);
        inDegree := inDegree[d := inDegree[d] - 1];
        if inDegree[d] == 0 {
          queue := queue + [d];
          added := added + [d];
        }
      }
      assert downs[|downs|..] == [];
      AddedAtEnd(node, added);
    }

    /** The first `k` downstreams have been visited. */
    ghost predicate Visiting(inDegree: map<string, int>, order: seq<string>, queue: seq<string>, added: seq<string>,
                             downs: seq<string>, k: nat) {
      && k <= |downs| && Counts(inDegree, order + queue, order, downs[k..])
      && AddedFrom(downs, added) && forall x :: x in added ==> x in queue
    }

    lemma VisitStep(inDegree: map<string, int>, order: seq<string>, queue: seq<string>, added: seq<string>,
                    downs: seq<string>, k: nat)
      requires Visiting(inDegree, order, queue, added, downs, k) && k < |downs| && downs[k] in Ids()
      ensures var d := downs[k];
              var next := inDegree[d := inDegree[d] - 1];
              if next[d] == 0 then Visiting(next, order, queue + [d], added + [d], downs, k + 1)
              else Visiting(next, order, queue, added, downs, k + 1)
    {
      VisitCounts(inDegree, order, queue, downs, k);
      InSeen(order, queue, added);
      AddedGrows(downs, k, added, order + queue, order, inDegree);
    }

    lemma InSeen(order: seq<string>, queue: seq<string>, added: seq<string>)
      requires forall x :: x in added ==> x in queue
      ensures forall x :: x in added ==> x in order + queue
    {
    }

    lemma VisitCounts(inDegree: map<string, int>, order: seq<string>, queue: seq<string>, downs: seq<string>, k: nat)
      requires k < |downs| && downs[k] in Ids() && Counts(inDegree, order + queue, order, downs[k..])
      ensures var d := downs[k];
              var next := inDegree[d := inDegree[d] - 1];
              Counts(next, order + (if next[d] == 0 then queue + [d] else queue), order, downs[k + 1..])
    {
      CountsStep(inDegree, order + queue, order, downs[k..]);
      assert downs[k..][1..] == downs[k + 1..];
      assert order + (queue + [downs[k]]) == order + queue + [downs[k]];
    }

    /** Each of the operators made ready by `node` has an edge from it; they come in the order of their last edges. */
    ghost predicate Added(node: string, added: seq<string>) {
      && (forall x :: x in added ==> HasEdge(node, x))
      && forall a, b :: 0 <= a < b < |added| ==> ListedBefore(node, added[a], added[b])
    }

    /** Every place of `x` in the list is before some place of `y`. */
    ghost predicate PlacedBefore(downs: seq<string>, x: string, y: string) {
      forall i :: 0 <= i < |downs| && downs[i] == x ==> exists j :: i < j < |downs| && downs[j] == y
    }

    ghost predicate AddedFrom(downs: seq<string>, added: seq<string>) {
      && (forall x :: x in added ==> x in downs)
      && forall a, b :: 0 <= a < b < |added| ==> PlacedBefore(downs, added[a], added[b])
    }

    lemma AddedGrows(downs: seq<string>, k: nat, added: seq<string>, seen: seq<string>, order: seq<string>,
                     inDegree: map<string, int>)
      requires k < |downs| && AddedFrom(downs, added) && Counts(inDegree, seen, order, downs[k..])
      requires forall x :: x in added ==> x in seen
      ensures AddedFrom(downs, added + [downs[k]])
    {
      forall a | 0 <= a < |added|
        ensures PlacedBefore(downs, added[a], downs[k])
      {
        assert added[a] in added && multiset(downs[k..])[added[a]] == 0;
        NotBehind(downs, k, added[a]);
      }
    }

    lemma NotBehind(downs: seq<string>, k: nat, x: string)
      requires k <= |downs| && multiset(downs[k..])[x] == 0
      ensures forall i :: 0 <= i < |downs| && downs[i] == x ==> i < k
    {
      assert x !in downs[k..];
      assert forall i :: k <= i < |downs| ==> downs[i] == downs[k..][i - k];
    }

    lemma AddedAtEnd(node: string, added: seq<string>)
      requires AddedFrom(DownstreamIds(node), added)
      ensures Added(node, added)
    {
      forall x | x in added
        ensures HasEdge(node, x)
      {
        DownstreamsAreEdges(dependencies, node, x);
      }
      forall a, b | 0 <= a < b < |added|
        ensures ListedBefore(node, added[a], added[b])
      {
        PlacesFollowEdges(dependencies, node, added[a], added[b]);
      }
    }

    // ---- Whose turn it is -----------------------------------------------------------------------

    lemma RootsInTurn(queue: seq<string>)
      requires forall h, k :: 0 <= h < k < |queue| ==> Earlier(queue[h], queue[k])
      ensures InTurn(queue, [])
    {
    }

    /** Whoever has been seen has all its upstreams among those done before `node`. */
    lemma AllReady(seen: seq<string>, done: seq<string>, node: string)
      requires forall x :: x in seen ==> Pending(dependencies, x, Elements(done)) == 0
      requires node !in done
      ensures forall x :: x in seen ==> !HasEdge(node, x)
    {
      forall x | x in seen
        ensures !HasEdge(node, x)
      {
        PendingZero(dependencies, x, Elements(done));
      }
    }

    lemma TurnsGoOn(seen: seq<string>, done: seq<string>, node: string, added: seq<string>)
      requires InTurn(seen, done) && Added(node, added)
      requires forall x :: x in seen ==> !HasEdge(node, x)
      ensures InTurn(seen + added, done + [node])
    {
      ReadyGoesOn(seen, done, node, added);
      SiblingsGoOn(seen, done, node, added);
      forall x | x in added
        ensures HasUpstream(x)
      {
        assert HasEdge(node, x);
      }
      assert forall k :: |seen| <= k < |seen + added| ==> (seen + added)[k] in added;
    }

    lemma ReadyGoesOn(seen: seq<string>, done: seq<string>, node: string, added: seq<string>)
      requires ReadyInTurn(seen, done) && Added(node, added)
      requires forall x :: x in seen ==> !HasEdge(node, x)
      ensures ReadyInTurn(seen + added, done + [node])
    {
      var all, order := seen + added, done + [node];
      forall h, k, p | 0 <= h < k < |all| && 0 <= p < |order| && HasEdge(order[p], all[h])
        ensures HasEdgeFrom(order, p, all[k])
      {
        if k < |seen| {
          assert all[h] == seen[h] && seen[h] in seen && p < |done|;
          assert HasEdgeFrom(done, p, seen[k]);
          var q :| 0 <= p <= q < |done| && HasEdge(done[q], seen[k]);
          assert HasEdge(order[q], all[k]);
        } else {
          assert all[k] == added[k - |seen|] && added[k - |seen|] in added;
          assert HasEdge(order[|done|], all[k]);
        }
      }
    }

    lemma EdgeFromLater(done: seq<string>, node: string, p: int, x: string)
      requires p >= 0 && !HasEdge(node, x)
      ensures HasEdgeFrom(done + [node], p, x) <==> HasEdgeFrom(done, p, x)
    {
      var order := done + [node];
      if HasEdgeFrom(done, p, x) {
        var q :| 0 <= p <= q < |done| && HasEdge(done[q], x);
        assert HasEdge(order[q], x);
      }
      if HasEdgeFrom(order, p, x) {
        var q :| 0 <= p <= q < |order| && HasEdge(order[q], x);
        assert q < |done| && HasEdge(done[q], x);
      }
    }

    /** Someone with an edge from position `n` does not have its last upstream before. */
    lemma BehindDone(order: seq<string>, n: nat, p: int, x: string)
      requires n < |order| && HasEdge(order[n], x) && LastUpstream(order, p, x)
      ensures p >= n
    {
    }

    /** Someone with an edge from `node` is none of those who have none. */
    lemma BehindSeen(seen: seq<string>, node: string, all: seq<string>, h: nat)
      requires seen <= all && h < |all| && HasEdge(node, all[h])
      requires forall x :: x in seen ==> !HasEdge(node, x)
      ensures h >= |seen|
    {
      assert forall i :: 0 <= i < |seen| ==> all[i] == seen[i] && seen[i] in seen;
    }

    lemma SiblingsGoOn(seen: seq<string>, done: seq<string>, node: string, added: seq<string>)
      requires SiblingsAsListed(seen, done) && Added(node, added)
      requires forall x :: x in seen ==> !HasEdge(node, x)
      ensures SiblingsAsListed(seen + added, done + [node])
    {
      var all, order := seen + added, done + [node];
      forall h, k, p | 0 <= h < k < |all| && LastUpstream(order, p, all[h]) && LastUpstream(order, p, all[k])
        ensures ListedBefore(order[p], all[h], all[k])
      {
        if k < |seen| {
          assert seen[h] in seen && seen[k] in seen && p < |done|;
          EdgeFromLater(done, node, p + 1, seen[h]);
          EdgeFromLater(done, node, p + 1, seen[k]);
          assert LastUpstream(done, p, seen[h]) && LastUpstream(done, p, seen[k]);
        } else {
          assert added[k - |seen|] in added && HasEdge(order[|done|], all[k]);
          BehindDone(order, |done|, p, all[k]);
          BehindSeen(seen, node, all, h);
          assert ListedBefore(node, added[h - |seen|], added[k - |seen|]);
        }
      }
    }

    lemma DownstreamKnown(node: string, d: string)
      requires DownstreamsKnown() && d in DownstreamIds(node)
      ensures d in Ids()
    {
      DownstreamsAreEdges(dependencies, node, d);
    }

    /** The in-degrees while the edges to `rest` have still to be taken off; the ids at zero are those `seen`. */
    ghost predicate Counts(inDegree: map<string, int>, seen: seq<string>, order: seq<string>, rest: seq<string>) {
      && inDegree.Keys == Elements(Ids())
      && Distinct(seen)
      && (forall x :: x in Ids() ==> inDegree[x] == Pending(dependencies, x, Elements(order)) + multiset(rest)[x])
      && forall x :: x in seen <==> x in Ids() && inDegree[x] == 0
    }

    lemma CountsAtStart(node: string, done: seq<string>, order: seq<string>, inDegree: map<string, int>,
                        queue: seq<string>)
      requires inDegree.Keys == Elements(Ids()) && order == done + [node] && node !in done
      requires Distinct(order + queue)
      requires forall x :: x in Ids() ==> inDegree[x] == Pending(dependencies, x, Elements(done))
      requires forall x :: x in order + queue <==> x in Ids() && inDegree[x] == 0
      ensures Counts(inDegree, order + queue, order, DownstreamIds(node))
    {
      assert Elements(order) == Elements(done) + {node};
      forall x | x in Ids()
        ensures inDegree[x] == Pending(dependencies, x, Elements(order)) + multiset(DownstreamIds(node))[x]
      {
        PendingSplits(dependencies, x, Elements(done), node);
      }
    }

    /** Taking off one edge puts its downstream among the ids at zero exactly if it was the last one. */
    lemma CountsStep(inDegree: map<string, int>, seen: seq<string>, order: seq<string>, rest: seq<string>)
      requires Counts(inDegree, seen, order, rest) && rest != [] && rest[0] in Ids()
      ensures rest[0] !in seen
      ensures var d := rest[0];
              var next := inDegree[d := inDegree[d] - 1];
              Counts(next, if next[d] == 0 then seen + [d] else seen, order, rest[1..])
    {
      TailMultiplicity(rest, 0);
      assert rest[0..] == rest;
      assert multiset(rest)[rest[0]] > 0;
    }

    lemma UpstreamsFirstExtends(order: seq<string>, node: string)
      requires UpstreamsFirst(order)
      requires forall d :: d in dependencies && d.downstreamId == node ==> d.upstreamId in order
      ensures UpstreamsFirst(order + [node])
    {
      forall d, j | d in dependencies && 0 <= j < |order + [node]| && (order + [node])[j] == d.downstreamId
        ensures d.upstreamId in (order + [node])[..j]
      {
        if j < |order| {
          assert (order + [node])[..j] == order[..j];
        } else {
          assert (order + [node])[..j] == order;
        }
      }
    }

    /** When the queue runs dry the order is complete exactly for well-formed acyclic graphs. */
    lemma FinishedOrder(order: seq<string>)
      requires DownstreamsKnown()
      requires Distinct(order) && UpstreamsFirst(order)
      requires forall x :: x in order <==> x in Ids() && Pending(dependencies, x, Elements(order)) == 0
      ensures |order| == |operators| <==> UpstreamsKnown() && Distinct(Ids()) && Acyclic()
      ensures |order| == |operators| ==> TopologicalOrderOf(order)
    {
      var ids := Ids();
      DistinctCardinality(order);
      DistinctCardinality(ids);
      assert Elements(order) <= Elements(ids);
      SubsetCardinality(Elements(order), Elements(ids));
      if |order| == |operators| {
        assert Elements(order) == Elements(ids);
        DistinctSameElements(order, ids);
        forall d | d in dependencies
          ensures d.upstreamId in ids
        {
          assert d.downstreamId in Elements(ids);
          var j :| 0 <= j < |order| && order[j] == d.downstreamId;
          assert d.upstreamId in order[..j];
          assert d.upstreamId in Elements(order);
        }
        OrderedIsAcyclic(order);
      } else if UpstreamsKnown() && Distinct(ids) {
        var rest := Elements(ids) - Elements(order);
        assert Elements(ids) == Elements(order) + rest;
        forall x | x in rest
          ensures HasUpstreamIn(rest, x)
        {
          assert x in ids && x !in order;
          var u := PendingWitness(dependencies, x, Elements(order));
          assert Dependency(u, x) in dependencies;
          assert HasEdge(u, x) && u in rest;
        }
        assert Blocked(rest);
        var p := BlockedGivesCycle(rest);
        assert Cycle(p);
      }
    }

    lemma OrderedIsAcyclic(order: seq<string>)
      requires Distinct(order) && UpstreamsFirst(order)
      requires DownstreamsKnown() && Elements(order) == Elements(Ids())
      ensures Acyclic()
    {
      forall p
        ensures !Cycle(p)
      {
        if Cycle(p) {
          assert HasEdge(p[|p| - 2], p[|p| - 1]);
          var last := p[|p| - 1];
          assert last in Elements(Ids());
          var j :| 0 <= j < |order| && order[j] == last;
          var i := WalkMovesForward(order, p, |p| - 1, j);
        }
      }
    }

    /** Walking an edge always moves to a later position of the order. */
    lemma {:induction false} WalkMovesForward(order: seq<string>, p: seq<string>, k: nat, j: nat) returns (i: nat)
      requires Distinct(order) && UpstreamsFirst(order) && Walk(p)
      requires 1 <= k < |p| && j < |order| && order[j] == p[k]
      ensures i < j && order[i] == p[0]
      decreases k
    {
      var d := Dependency(p[k - 1], p[k]);
      assert HasEdge(p[k - 1], p[k - 1 + 1]);
      assert d.upstreamId in order[..j];
      var h :| 0 <= h < j && order[..j][h] == p[k - 1];
      assert order[h] == p[k - 1];
      if k == 1 {
        i := h;
      } else {
        i := WalkMovesForward(order, p, k - 1, h);
      }
    }

    /** Every node of the set waits for another node of the set. */
    ghost predicate Blocked(rest: set<string>) {
      forall x {:trigger HasUpstreamIn(rest, x)} :: x in rest ==> HasUpstreamIn(rest, x)
    }

    ghost predicate HasUpstreamIn(nodes: set<string>, x: string) {
      exists u :: u in nodes && HasEdge(u, x)
    }

    lemma WaitsFor(rest: set<string>, x: string) returns (u: string)
      requires Blocked(rest) && x in rest
      ensures u in rest && HasEdge(u, x)
    {
      assert HasUpstreamIn(rest, x);
      u :| u in rest && HasEdge(u, x);
    }

    /** If every remaining node waits for another remaining node, there is a cycle. */
    lemma BlockedGivesCycle(rest: set<string>) returns (c: seq<string>)
      requires rest != {} && Blocked(rest)
      ensures Cycle(c)
    {
      var p := BackwardWalk(rest, |rest|);
      var i, j := Pigeonhole(p, rest);
      c := p[i..j + 1];
      forall k | 0 <= k < |c| - 1
        ensures HasEdge(c[k], c[k + 1])
      {
        assert HasEdge(p[i + k], p[i + k + 1]);
      }
    }

    lemma {:induction false} BackwardWalk(rest: set<string>, n: nat) returns (p: seq<string>)
      requires rest != {} && Blocked(rest)
      ensures |p| == n + 1 && Walk(p)
      ensures forall x :: x in p ==> x in rest
    {
      if n == 0 {
        var x :| x in rest;
        p := [x];
      } else {
        var q := BackwardWalk(rest, n - 1);
        assert q[0] in rest;
        var u := WaitsFor(rest, q[0]);
        p := [u] + q;
        forall k | 0 <= k < |p| - 1
          ensures HasEdge(p[k], p[k + 1])
        {
          if k > 0 {
            assert HasEdge(q[k - 1], q[k - 1 + 1]);
          }
        }
      }
    }
  }

  function Downstreams(deps: seq<Dependency>, id: string): seq<string> {
    if deps == [] then []
    else
      var rest := Downstreams(deps[..|deps| - 1], id);
      var d := deps[|deps| - 1];
      if d.upstreamId == id then rest + [d.downstreamId] else rest
  }

  /** Number of edges into `x` whose upstream has not been emitted yet. */
  ghost function Pending(deps: seq<Dependency>, x: string, done: set<string>): nat {
    if deps == [] then 0
    else
      var d := deps[|deps| - 1];
      Pending(deps[..|deps| - 1], x, done) + if d.downstreamId == x && d.upstreamId !in done then 1 else 0
  }

  lemma {:induction false} PendingZero(deps: seq<Dependency>, x: string, done: set<string>)
    requires Pending(deps, x, done) == 0
    ensures forall d :: d in deps && d.downstreamId == x ==> d.upstreamId in done
  {
    if deps != [] {
      PendingZero(deps[..|deps| - 1], x, done);
      assert deps == deps[..|deps| - 1] + [deps[|deps| - 1]];
    }
  }

  lemma {:induction false} PendingWitness(deps: seq<Dependency>, x: string, done: set<string>) returns (u: string)
    requires Pending(deps, x, done) != 0
    ensures Dependency(u, x) in deps && u !in done
  {
    var d := deps[|deps| - 1];
    if d.downstreamId == x && d.upstreamId !in done {
      u := d.upstreamId;
    } else {
      u := PendingWitness(deps[..|deps| - 1], x, done);
    }
  }

  lemma {:induction false} PendingSplits(deps: seq<Dependency>, x: string, done: set<string>, node: string)
    requires node !in done
    ensures Pending(deps, x, done) == Pending(deps, x, done + {node}) + multiset(Downstreams(deps, node))[x]
  {
    if deps != [] {
      PendingSplits(deps[..|deps| - 1], x, done, node);
    }
  }

  lemma {:induction false} DownstreamsAreEdges(deps: seq<Dependency>, id: string, x: string)
    requires x in Downstreams(deps, id)
    ensures Dependency(id, x) in deps
  {
    var d := deps[|deps| - 1];
    if !(d.upstreamId == id && d.downstreamId == x) {
      DownstreamsAreEdges(deps[..|deps| - 1], id, x);
    }
  }

  /** Places in the list of downstreams follow the places of the edges. */
  lemma {:induction false} PlacesFollowEdges(deps: seq<Dependency>, u: string, x: string, y: string)
    requires forall i :: 0 <= i < |Downstreams(deps, u)| && Downstreams(deps, u)[i] == x
               ==> exists j :: i < j < |Downstreams(deps, u)| && Downstreams(deps, u)[j] == y
    ensures forall i :: 0 <= i < |deps| && deps[i] == Dependency(u, x)
              ==> exists j :: i < j < |deps| && deps[j] == Dependency(u, y)
  {
    if deps != [] {
      var n := |deps| - 1;
      var downs, init := Downstreams(deps, u), Downstreams(deps[..n], u);
      if deps[n] != Dependency(u, y) && deps[n] != Dependency(u, x) {
        forall i | 0 <= i < |init| && init[i] == x
          ensures exists j :: i < j < |init| && init[j] == y
        {
          assert downs[i] == x;
          var j :| i < j < |downs| && downs[j] == y;
          assert j < |init|;
        }
        PlacesFollowEdges(deps[..n], u, x, y);
        forall i | 0 <= i < |deps| && deps[i] == Dependency(u, x)
          ensures exists j :: i < j < |deps| && deps[j] == Dependency(u, y)
        {
          assert deps[..n][i] == Dependency(u, x);
          var j :| i < j < n && deps[..n][j] == Dependency(u, y);
          assert deps[j] == Dependency(u, y);
        }
      } else {
        NotLastPlace(deps, u, x, y);
      }
    }
  }

  lemma NotLastPlace(deps: seq<Dependency>, u: string, x: string, y: string)
    requires deps != [] && deps[|deps| - 1].upstreamId == u
    requires forall i :: 0 <= i < |Downstreams(deps, u)| && Downstreams(deps, u)[i] == x
               ==> exists j :: i < j < |Downstreams(deps, u)| && Downstreams(deps, u)[j] == y
    ensures deps[|deps| - 1] != Dependency(u, x)
  {
    var downs := Downstreams(deps, u);
    assert downs[|downs| - 1] == deps[|deps| - 1].downstreamId;
  }

  lemma PopFresh(order: seq<string>, queue: seq<string>, node: string)
    requires queue != [] && node == queue[0] && Distinct(order + queue)
    ensures node in order + queue && node !in order
  {
    assert (order + queue)[|order|] == node;
    forall i | 0 <= i < |order|
      ensures order[i] != node
    {
      assert (order + queue)[i] == order[i];
    }
  }

  lemma TailMultiplicity(xs: seq<string>, k: nat)
    requires k < |xs|
    ensures forall x :: multiset(xs[k..])[x] == multiset(xs[k + 1..])[x] + if x == xs[k] then 1 else 0
  {
    assert xs[k..] == [xs[k]] + xs[k + 1..];
  }

  lemma OrderFits(order: seq<string>, ids: seq<string>, seen: seq<string>)
    requires order <= seen && Distinct(seen)
    requires forall x :: x in seen ==> x in ids
    ensures |order| <= |ids|
  {
    DistinctCardinality(seen);
    DistinctCardinality(ids);
    assert Elements(seen) <= Elements(ids);
    SubsetCardinality(Elements(seen), Elements(ids));
  }

  lemma {:induction false} DistinctSameElements(a: seq<string>, b: seq<string>)
    requires Distinct(a) && Distinct(b) && Elements(a) == Elements(b)
    ensures multiset(a) == multiset(b)
  {
    forall x
      ensures multiset(a)[x] == multiset(b)[x]
    {
      DistinctMultiplicity(a, x);
      DistinctMultiplicity(b, x);
      assert x in a <==> x in Elements(a);
      assert x in b <==> x in Elements(b);
    }
  }

  lemma {:induction false} DistinctMultiplicity(a: seq<string>, x: string)
    requires Distinct(a)
    ensures multiset(a)[x] == if x in a then 1 else 0
  {
    if a != [] {
      var init, last := a[..|a| - 1], a[|a| - 1];
      DistinctMultiplicity(init, x);
      assert a == init + [last];
      assert last !in init;
    }
  }
}
