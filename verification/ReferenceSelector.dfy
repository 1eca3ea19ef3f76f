/** The reference context selector (dagr_mcp/amnesiac_native.py): one pass that
    filters claims with a reason each, a stable bytewise order by claim id, and
    an item budget. */
module ReferenceSelector {
  import opened Prelude

  datatype ClaimNode = ClaimNode(claimId: string, admitted: bool, profileScope: string, createdAt: string)

  datatype Reason = NotAdmitted | OutsideScope | OutsideAsOf | OverBudget

  datatype ExcludedItem = ExcludedItem(claimId: string, reason: Reason)

  datatype Request = Request(recordScope: seq<string>, asOf: Option<string>, itemBudget: Option<int>)

  // Bytewise order of texts.
  predicate AtMost(a: string, b: string)
  {
    if |a| == 0 then true
    else if |b| == 0 then false
    else if a[0] != b[0] then a[0] < b[0]
    else AtMost(a[1..], b[1..])
  }

  lemma {:induction false} AtMostTotal(a: string, b: string)
    ensures AtMost(a, b) || AtMost(b, a)
    ensures AtMost(a, b) && AtMost(b, a) ==> a == b
  {
    if |a| > 0 && |b| > 0 && a[0] == b[0] {
      AtMostTotal(a[1..], b[1..]);
      assert a == [a[0]] + a[1..] && b == [b[0]] + b[1..];
    }
  }

  lemma {:induction false} AtMostTransitive(a: string, b: string, c: string)
    requires AtMost(a, b) && AtMost(b, c)
    ensures AtMost(a, c)
  {
    if |a| > 0 && |b| > 0 && |c| > 0 && a[0] == b[0] == c[0] {
      AtMostTransitive(a[1..], b[1..], c[1..]);
    }
  }

  // Why a claim is passed over, if it is; the first reason counts.
  function Rejection(request: Request, node: ClaimNode): Option<Reason>
  {
    if !node.admitted then Some(NotAdmitted)
    else if |request.recordScope| > 0 && node.profileScope !in request.recordScope then Some(OutsideScope)
    else if request.asOf.Some? && request.asOf.value != "" && node.createdAt != ""
        && !AtMost(node.createdAt, request.asOf.value)
    then Some(OutsideAsOf)
    else None
  }

  function Eligible(request: Request, nodes: seq<ClaimNode>): seq<ClaimNode>
  {
    if |nodes| == 0 then []
    else
      var last := nodes[|nodes| - 1];
      Eligible(request, nodes[..|nodes| - 1]) + if Rejection(request, last).None? then [last] else []
  }

  function Rejected(request: Request, nodes: seq<ClaimNode>): seq<ExcludedItem>
  {
    if |nodes| == 0 then []
    else
      var last := nodes[|nodes| - 1];
      Rejected(request, nodes[..|nodes| - 1])
      + match Rejection(request, last) case None => [] case Some(reason) => [ExcludedItem(last.claimId, reason)]
  }

  function Insert(node: ClaimNode, sorted: seq<ClaimNode>): seq<ClaimNode>
  {
    if |sorted| == 0 then [node]
    else if AtMost(node.claimId, sorted[0].claimId) then [node] + sorted
    else [sorted[0]] + Insert(node, sorted[1..])
  }

  // sort(key=claim_id)
  function SortById(nodes: seq<ClaimNode>): seq<ClaimNode>
  {
    if |nodes| == 0 then [] else Insert(nodes[0], SortById(nodes[1..]))
  }

  function Ids(nodes: seq<ClaimNode>): seq<string>
  {
    if |nodes| == 0 then [] else [nodes[0].claimId] + Ids(nodes[1..])
  }

  function ExcludedIds(items: seq<ExcludedItem>): seq<string>
  {
    if |items| == 0 then [] else [items[0].claimId] + ExcludedIds(items[1..])
  }

  // How many eligible claims the budget lets through.
  function Kept(request: Request, eligible: nat): nat
  {
    if request.itemBudget.Some? && 0 <= request.itemBudget.value < eligible then request.itemBudget.value else eligible
  }

  function OverBudgetItems(nodes: seq<ClaimNode>): seq<ExcludedItem>
  {
    if |nodes| == 0 then [] else [ExcludedItem(nodes[0].claimId, OverBudget)] + OverBudgetItems(nodes[1..])
  }

  /** The selection: the first claims of the sorted eligible ones, and every
      other claim with its reason. */
  function Select(request: Request, nodes: seq<ClaimNode>): (seq<string>, seq<ExcludedItem>)
  {
    var sorted := SortById(Eligible(request, nodes));
    var kept := Kept(request, |sorted|);
    (Ids(sorted[..kept]), Rejected(request, nodes) + OverBudgetItems(sorted[kept..]))
  }

  /** _reference_select */
  method ReferenceSelect(
    request: Request, nodes: seq<ClaimNode>) returns (selected: seq<string>, excluded: seq<ExcludedItem>)
    ensures (selected, excluded) == Select(request, nodes)
  {
    excluded := [];
    var eligible: seq<ClaimNode> := [];
    var i := 0;
    while i < |nodes|
      invariant 0 <= i <= |nodes|
      invariant eligible == Eligible(request, nodes[..i]) && excluded == Rejected(request, nodes[..i])
    {
      assert nodes[..i + 1][..i] == nodes[..i];
      var rejection := Rejection(request, nodes[i]);
      if rejection.Some? {
        excluded := excluded + [ExcludedItem(nodes[i].claimId, rejection.value)];
      } else {
        eligible := eligible + [nodes[i]];
      }
      i := i + 1;
    }
    assert nodes[..i] == nodes;
    var sorted := SortById(eligible);
    var kept := |sorted|;
    if request.itemBudget.Some? && request.itemBudget.value >= 0 && request.itemBudget.value < |sorted| {
      kept := request.itemBudget.value;
    }
    excluded := excluded + OverBudgetItems(sorted[kept..]);
    selected := Ids(sorted[..kept]);
  }

  // ---- Order and partition -------------------------------------------------

  predicate SortedById(nodes: seq<ClaimNode>)
  {
    forall i, j | 0 <= i < j < |nodes| :: AtMost(nodes[i].claimId, nodes[j].claimId)
  }

  lemma {:induction false} InsertKeeps(node: ClaimNode, sorted: seq<ClaimNode>)
    ensures multiset(Insert(node, sorted)) == multiset(sorted) + multiset{node}
  {
    if |sorted| > 0 {
      assert sorted == [sorted[0]] + sorted[1..];
      if !AtMost(node.claimId, sorted[0].claimId) {
        InsertKeeps(node, sorted[1..]);
      }
    }
  }

  lemma {:induction false} InsertSorts(node: ClaimNode, sorted: seq<ClaimNode>)
    requires SortedById(sorted)
    ensures SortedById(Insert(node, sorted))
  {
    if |sorted| > 0 {
      if AtMost(node.claimId, sorted[0].claimId) {
        forall j | 0 <= j < |sorted| ensures AtMost(node.claimId, sorted[j].claimId) {
          if j > 0 {
            AtMostTransitive(node.claimId, sorted[0].claimId, sorted[j].claimId);
          }
        }
      } else {
        InsertSorts(node, sorted[1..]);
        AtMostTotal(node.claimId, sorted[0].claimId);
        var rest := Insert(node, sorted[1..]);
        InsertKeeps(node, sorted[1..]);
        forall j | 0 <= j < |rest| ensures AtMost(sorted[0].claimId, rest[j].claimId) {
          assert rest[j] in multiset(rest);
          assert rest[j] == node || rest[j] in sorted[1..];
        }
      }
    }
  }

  lemma {:induction false} SortByIdSorts(nodes: seq<ClaimNode>)
    ensures SortedById(SortById(nodes)) && multiset(SortById(nodes)) == multiset(nodes)
  {
    if |nodes| > 0 {
      SortByIdSorts(nodes[1..]);
      InsertSorts(nodes[0], SortById(nodes[1..]));
      InsertKeeps(nodes[0], SortById(nodes[1..]));
      assert nodes == [nodes[0]] + nodes[1..];
    }
  }

  lemma {:induction false} IdsAt(nodes: seq<ClaimNode>)
    ensures |Ids(nodes)| == |nodes| && forall i | 0 <= i < |nodes| :: Ids(nodes)[i] == nodes[i].claimId
  {
    if |nodes| > 0 {
      IdsAt(nodes[1..]);
    }
  }

  lemma {:induction false} IdsAppend(a: seq<ClaimNode>, b: seq<ClaimNode>)
    ensures Ids(a + b) == Ids(a) + Ids(b)
  {
    if |a| == 0 {
      assert a + b == b;
    } else {
      IdsAppend(a[1..], b);
      assert (a + b)[1..] == a[1..] + b;
    }
  }

  lemma HeadFirst(head: seq<string>, a: seq<string>, b: seq<string>)
    ensures head + (a + b) == head + a + b
  {}

  lemma {:induction false} ExcludedIdsAppend(a: seq<ExcludedItem>, b: seq<ExcludedItem>)
    ensures ExcludedIds(a + b) == ExcludedIds(a) + ExcludedIds(b)
  {
    if |a| == 0 {
      assert a + b == b;
    } else {
      ExcludedIdsAppend(a[1..], b);
      assert (a + b)[1..] == a[1..] + b && (a + b)[0] == a[0];
      HeadFirst([a[0].claimId], ExcludedIds(a[1..]), ExcludedIds(b));
    }
  }

  lemma {:induction false} OverBudgetIds(nodes: seq<ClaimNode>)
    ensures ExcludedIds(OverBudgetItems(nodes)) == Ids(nodes)
  {
    if |nodes| > 0 {
      OverBudgetIds(nodes[1..]);
      assert OverBudgetItems(nodes)[1..] == OverBudgetItems(nodes[1..]);
    }
  }

  function IdIf(wanted: bool, node: ClaimNode): seq<string>
  {
    if wanted then [node.claimId] else []
  }

  lemma EligibleStep(request: Request, nodes: seq<ClaimNode>)
    requires |nodes| > 0
    ensures var n := |nodes| - 1;
            Ids(Eligible(request, nodes)) ==
                Ids(Eligible(request, nodes[..n])) + IdIf(Rejection(request, nodes[n]).None?, nodes[n])
  {
    var last := nodes[|nodes| - 1];
    IdsAppend(Eligible(request, nodes[..|nodes| - 1]), if Rejection(request, last).None? then [last] else []);
    assert Ids([last]) == [last.claimId];
  }

  lemma RejectedStep(request: Request, nodes: seq<ClaimNode>)
    requires |nodes| > 0
    ensures var n := |nodes| - 1;
            ExcludedIds(Rejected(request, nodes)) ==
            ExcludedIds(Rejected(request, nodes[..n])) + IdIf(Rejection(request, nodes[n]).Some?, nodes[n])
  {
    var last := nodes[|nodes| - 1];
    var rejection := Rejection(request, last);
    ExcludedIdsAppend(Rejected(request, nodes[..|nodes| - 1]),
                      match rejection case None => [] case Some(reason) => [ExcludedItem(last.claimId, reason)]);
    if rejection.Some? {
      assert ExcludedIds([ExcludedItem(last.claimId, rejection.value)]) == [last.claimId];
    }
  }

  lemma IdsStep(nodes: seq<ClaimNode>)
    requires |nodes| > 0
    ensures Ids(nodes) == Ids(nodes[..|nodes| - 1]) + [nodes[|nodes| - 1].claimId]
  {
    var last := nodes[|nodes| - 1];
    IdsAppend(nodes[..|nodes| - 1], [last]);
    assert nodes == nodes[..|nodes| - 1] + [last];
    assert Ids([last]) == [last.claimId];
  }

  // Filtering sends each claim to exactly one side.
  lemma {:induction false} FilterPartitions(request: Request, nodes: seq<ClaimNode>)
    ensures multiset(Ids(Eligible(request, nodes))) + multiset(ExcludedIds(Rejected(request, nodes))) ==
            multiset(Ids(nodes))
  {
    if |nodes| > 0 {
      FilterPartitions(request, nodes[..|nodes| - 1]);
      EligibleStep(request, nodes);
      RejectedStep(request, nodes);
      IdsStep(nodes);
    }
  }

  // Sorting permutes the identifiers.
  lemma {:induction false} InsertIds(node: ClaimNode, sorted: seq<ClaimNode>)
    ensures multiset(Ids(Insert(node, sorted))) == multiset(Ids(sorted)) + multiset{node.claimId}
  {
    if |sorted| > 0 && !AtMost(node.claimId, sorted[0].claimId) {
      InsertIds(node, sorted[1..]);
      assert Insert(node, sorted)[1..] == Insert(node, sorted[1..]);
    } else {
      assert Insert(node, sorted)[1..] == sorted;
    }
  }

  lemma {:induction false} SortIds(nodes: seq<ClaimNode>)
    ensures multiset(Ids(SortById(nodes))) == multiset(Ids(nodes))
  {
    if |nodes| > 0 {
      SortIds(nodes[1..]);
      InsertIds(nodes[0], SortById(nodes[1..]));
    }
  }

  lemma SelectedAndRest(request: Request, nodes: seq<ClaimNode>)
    ensures var (selected, excluded) := Select(request, nodes);
            var sorted := SortById(Eligible(request, nodes));
            var rest := Ids(sorted[Kept(request, |sorted|)..]);
            Ids(sorted) == selected + rest && ExcludedIds(excluded) == ExcludedIds(Rejected(request, nodes)) + rest
  {
    var sorted := SortById(Eligible(request, nodes));
    var kept := Kept(request, |sorted|);
    IdsAppend(sorted[..kept], sorted[kept..]);
    assert sorted == sorted[..kept] + sorted[kept..];
    ExcludedIdsAppend(Rejected(request, nodes), OverBudgetItems(sorted[kept..]));
    OverBudgetIds(sorted[kept..]);
  }

  lemma Regroup(selected: seq<string>, rest: seq<string>, rejected: seq<string>)
    ensures multiset(selected) + multiset(rejected + rest) == multiset(selected + rest) + multiset(rejected)
  {}

  /** Selector partition: selected and excluded identifiers together are those of
      the claims, counted exactly; with distinct claims no identifier is on both
      sides or twice on one. */
  lemma SelectionPartitions(request: Request, nodes: seq<ClaimNode>)
    ensures var (selected, excluded) := Select(request, nodes);
            multiset(selected) + multiset(ExcludedIds(excluded)) == multiset(Ids(nodes))
  {
    var sorted := SortById(Eligible(request, nodes));
    var rest := Ids(sorted[Kept(request, |sorted|)..]);
    FilterPartitions(request, nodes);
    SortIds(Eligible(request, nodes));
    SelectedAndRest(request, nodes);
    Regroup(Select(request, nodes).0, rest, ExcludedIds(Rejected(request, nodes)));
  }

  lemma PartitionIsDisjoint(request: Request, nodes: seq<ClaimNode>, id: string)
    requires forall i, j | 0 <= i < j < |nodes| :: nodes[i].claimId != nodes[j].claimId
    ensures var (selected, excluded) := Select(request, nodes);
            && multiset(selected)[id] + multiset(ExcludedIds(excluded))[id] <= 1
            && (multiset(selected)[id] + multiset(ExcludedIds(excluded))[id] == 1 <==>
                exists i | 0 <= i < |nodes| :: nodes[i].claimId == id)
  {
    SelectionPartitions(request, nodes);
    DistinctIds(nodes, id);
  }

  lemma {:induction false} DistinctIds(nodes: seq<ClaimNode>, id: string)
    requires forall i, j | 0 <= i < j < |nodes| :: nodes[i].claimId != nodes[j].claimId
    ensures multiset(Ids(nodes))[id] <= 1
    ensures multiset(Ids(nodes))[id] == 1 <==> exists i | 0 <= i < |nodes| :: nodes[i].claimId == id
  {
    if |nodes| > 0 {
      DistinctIds(nodes[1..], id);
      assert Ids(nodes) == [nodes[0].claimId] + Ids(nodes[1..]);
      if nodes[0].claimId == id {
        assert forall i | 0 <= i < |nodes[1..]| :: nodes[1..][i] == nodes[i + 1];
      }
    }
  }

  /** What is selected is eligible, in bytewise order, and before every eligible
      claim that is not selected; there are as many as the budget allows. */
  lemma SelectsTheFirst(request: Request, nodes: seq<ClaimNode>)
    ensures var eligible := SortById(Eligible(request, nodes));
            var selected := Select(request, nodes).0;
            && SortedById(eligible) && multiset(eligible) == multiset(Eligible(request, nodes))
            && |selected| <= |eligible| == |Eligible(request, nodes)|
            && |selected| == (match request.itemBudget
                              case Some(budget) => if 0 <= budget < |eligible| then budget else |eligible|
                              case None => |eligible|)
            && forall i | 0 <= i < |selected| :: selected[i] == eligible[i].claimId
  {
    var eligible := SortById(Eligible(request, nodes));
    SortByIdSorts(Eligible(request, nodes));
    assert |eligible| == |multiset(eligible)| == |Eligible(request, nodes)|;
    IdsAt(eligible[..Kept(request, |eligible|)]);
  }

  /** A larger budget, or none, only extends the selection. */
  lemma LargerBudgetExtends(request: Request, nodes: seq<ClaimNode>, larger: Option<int>)
    requires request.itemBudget.Some? && request.itemBudget.value >= 0
    requires larger.None? || larger.value >= request.itemBudget.value
    ensures Select(request, nodes).0 <= Select(request.(itemBudget := larger), nodes).0
  {
    var more := request.(itemBudget := larger);
    SameEligible(request, more, nodes);
    var sorted := SortById(Eligible(request, nodes));
    var few, many := Kept(request, |sorted|), Kept(more, |sorted|);
    assert sorted[..many] == sorted[..few] + sorted[few..many];
    IdsAppend(sorted[..few], sorted[few..many]);
  }

  lemma {:induction false} SameEligible(a: Request, b: Request, nodes: seq<ClaimNode>)
    requires a.recordScope == b.recordScope && a.asOf == b.asOf
    ensures Eligible(a, nodes) == Eligible(b, nodes)
  {
    if |nodes| > 0 {
      SameEligible(a, b, nodes[..|nodes| - 1]);
    }
  }

  // ---- Reasons -------------------------------------------------------------

  // The texts agree up to n, where the first ends or is smaller.
  predicate BeforeAt(a: string, b: string, n: nat)
  {
    n <= |a| && n < |b| && a[..n] == b[..n] && (n == |a| || a[n] < b[n])
  }

  // The first text comes before the second: it is a proper prefix, or smaller at
  // the first place where they differ.
  ghost predicate Before(a: string, b: string)
  {
    exists n :: BeforeAt(a, b, n)
  }

  lemma BeforeAtBelow(a: string, b: string, n: nat)
    requires |a| > 0 && |b| > 0 && BeforeAt(a, b, n) && a[0] == b[0]
    ensures n > 0 && BeforeAt(a[1..], b[1..], n - 1)
  {
    assert a[1..][..n - 1] == a[..n][1..] && b[1..][..n - 1] == b[..n][1..];
  }

  lemma BeforeAtAbove(c: char, a: string, b: string, n: nat)
    requires BeforeAt(a, b, n)
    ensures BeforeAt([c] + a, [c] + b, n + 1)
  {
    assert ([c] + a)[..n + 1] == [c] + a[..n] && ([c] + b)[..n + 1] == [c] + b[..n];
  }

  lemma PrefixHead(a: string, b: string, n: nat)
    requires 0 < n <= |a| && n <= |b| && a[..n] == b[..n]
    ensures a[0] == b[0]
  {
    assert a[0] == a[..n][0] && b[0] == b[..n][0];
  }

  lemma BeforeHead(a: string, b: string)
    requires |a| > 0 && |b| > 0 && a[0] == b[0]
    ensures Before(a, b) <==> Before(a[1..], b[1..])
  {
    if Before(a, b) {
      var n :| BeforeAt(a, b, n);
      BeforeAtBelow(a, b, n);
    }
    if Before(a[1..], b[1..]) {
      var n :| BeforeAt(a[1..], b[1..], n);
      BeforeAtAbove(a[0], a[1..], b[1..], n);
      assert a == [a[0]] + a[1..] && b == [a[0]] + b[1..];
    }
  }

  lemma HeadsDecide(a: string, b: string)
    requires |a| > 0 && |b| > 0 && a[0] != b[0]
    ensures Before(a, b) <==> a[0] < b[0]
  {
    if Before(a, b) {
      var n :| BeforeAt(a, b, n);
      if n > 0 {
        PrefixHead(a, b, n);
      }
    }
    if a[0] < b[0] {
      assert BeforeAt(a, b, 0);
    }
  }

  /** The order is the lexicographic one. */
  lemma {:induction false} AtMostIsLexicographic(a: string, b: string)
    ensures AtMost(a, b) <==> a == b || Before(a, b)
  {
    if |a| == 0 {
      assert |b| > 0 ==> BeforeAt(a, b, 0);
    } else if |b| > 0 && a[0] == b[0] {
      AtMostIsLexicographic(a[1..], b[1..]);
      BeforeHead(a, b);
      assert a == [a[0]] + a[1..] && b == [b[0]] + b[1..];
    } else if |b| > 0 {
      HeadsDecide(a, b);
    }
  }

  predicate InScope(request: Request, node: ClaimNode)
  {
    request.recordScope == [] || node.profileScope in request.recordScope
  }

  // The claim and the request are dated, and the claim is the later one.
  ghost predicate TooLate(request: Request, node: ClaimNode)
  {
    match request.asOf
    case Some(asOf) => asOf != "" && node.createdAt != "" && Before(asOf, node.createdAt)
    case None => false
  }

  ghost predicate Qualifies(request: Request, node: ClaimNode)
  {
    node.admitted && InScope(request, node) && !TooLate(request, node)
  }

  // The first reason against a claim.
  ghost predicate FailsFor(request: Request, node: ClaimNode, reason: Reason)
  {
    match reason
    case NotAdmitted => !node.admitted
    case OutsideScope => node.admitted && !InScope(request, node)
    case OutsideAsOf => node.admitted && InScope(request, node) && TooLate(request, node)
    case OverBudget => false
  }

  lemma RejectionIsTold(request: Request, node: ClaimNode)
    ensures Rejection(request, node).None? <==> Qualifies(request, node)
    ensures forall reason :: Rejection(request, node) == Some(reason) <==> FailsFor(request, node, reason)
  {
    if request.asOf.Some? {
      AtMostIsLexicographic(node.createdAt, request.asOf.value);
      AtMostIsLexicographic(request.asOf.value, node.createdAt);
      AtMostTotal(node.createdAt, request.asOf.value);
    }
  }

  lemma {:induction false} EligibleQualify(request: Request, nodes: seq<ClaimNode>, node: ClaimNode)
    ensures multiset(Eligible(request, nodes))[node] == if Qualifies(request, node) then multiset(nodes)[node] else 0
  {
    if |nodes| > 0 {
      EligibleQualify(request, nodes[..|nodes| - 1], node);
      RejectionIsTold(request, nodes[|nodes| - 1]);
      assert nodes == nodes[..|nodes| - 1] + [nodes[|nodes| - 1]];
    }
  }

  lemma {:induction false} RejectedFail(request: Request, nodes: seq<ClaimNode>, item: ExcludedItem)
    ensures item in Rejected(request, nodes) <==>
            exists node | node in nodes :: node.claimId == item.claimId && FailsFor(request, node, item.reason)
  {
    if |nodes| > 0 {
      var before, last := nodes[..|nodes| - 1], nodes[|nodes| - 1];
      RejectedFail(request, before, item);
      RejectionIsTold(request, last);
      assert nodes == before + [last];
    }
  }

  lemma {:induction false} OverBudgetMeans(nodes: seq<ClaimNode>, item: ExcludedItem)
    ensures item in OverBudgetItems(nodes) <==>
            item.reason == OverBudget && exists node | node in nodes :: node.claimId == item.claimId
  {
    if |nodes| > 0 {
      OverBudgetMeans(nodes[1..], item);
      assert nodes == [nodes[0]] + nodes[1..];
    }
  }

  /** Every exclusion has its reason, and every reason excludes: a claim that is
      not admitted, out of scope or later than the request asks is excluded for
      the first of these, and one that qualifies only when it comes after the
      budget in the order of identifiers. */
  lemma ExclusionIsTold(request: Request, nodes: seq<ClaimNode>, item: ExcludedItem)
    ensures var (selected, excluded) := Select(request, nodes);
            var sorted := SortById(Eligible(request, nodes));
            var rest := sorted[Kept(request, |sorted|)..];
            && Ids(sorted[..Kept(request, |sorted|)]) == selected
            && (item in excluded <==>
                  || (exists node | node in nodes ::
                        node.claimId == item.claimId && FailsFor(request, node, item.reason))
                  || (item.reason == OverBudget && exists node | node in rest :: node.claimId == item.claimId))
    ensures forall node | node in SortById(Eligible(request, nodes)) :: node in nodes && Qualifies(request, node)
    ensures forall node | node in nodes && Qualifies(request, node) :: node in SortById(Eligible(request, nodes))
  {
    SelectsTheFirst(request, nodes);
    var sorted := SortById(Eligible(request, nodes));
    RejectedFail(request, nodes, item);
    OverBudgetMeans(sorted[Kept(request, |sorted|)..], item);
    forall node
      ensures node in sorted <==> node in nodes && Qualifies(request, node)
    {
      EligibleQualify(request, nodes, node);
      assert node in sorted <==> node in multiset(sorted);
      assert node in nodes <==> node in multiset(nodes);
    }
  }
}
