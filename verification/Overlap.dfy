/**
  Reconciliation of a multi-photo receipt: adjacent photos may show the same
  printed rows, the model proposes pairs of indices for them, and `reconciled`
  removes the repeats that it can verify at a photo boundary.
 */
module Overlap {
  import opened Prelude
  import opened ReceiptModel
  import opened Duplicates
  import opened Sorting
  import opened TextKeys

  datatype SourceLine = SourceLine(item: LineItem, sourceImage: nat)

  /** A proposed pair: the earlier and the repeated index of one printed row. */
  datatype Candidate = Candidate(first: nat, second: nat)

  datatype Fault = NotGrouped | BadIndices | NotAdjacent | NotBoundary

  function Before(a: Candidate, b: Candidate): bool
  {
    a.first < b.first || (a.first == b.first && a.second < b.second)
  }

  function Smaller(a: nat, b: nat): bool
  {
    a < b
  }

  predicate Grouped(sources: seq<nat>)
  {
    forall i, j :: 0 <= i < j < |sources| ==> sources[i] <= sources[j]
  }

  /** The number of rows of earlier photos: where photo `p` starts once rows are grouped. */
  function Start(sources: seq<nat>, p: nat): (r: nat)
    ensures r <= |sources|
  {
    if sources == [] then 0
    else
      var last := |sources| - 1;
      Start(sources[..last], p) + if sources[last] < p then 1 else 0
  }

  /** `[i for i, value in enumerate(sources) if value == p]` */
  function IndicesOf(sources: seq<nat>, p: nat): seq<nat>
  {
    if sources == [] then []
    else
      var last := |sources| - 1;
      IndicesOf(sources[..last], p) + if sources[last] == p then [last] else []
  }

  function Range(lo: nat, hi: nat): (r: seq<nat>)
    requires lo <= hi
    ensures |r| == hi - lo
    ensures forall k :: 0 <= k < |r| ==> r[k] == lo + k
  {
    seq(hi - lo, k requires 0 <= k < hi - lo => lo + k)
  }

  /** `s[-n:]` for a positive `n` */
  function LastN(s: seq<nat>, n: nat): seq<nat>
  {
    if n >= |s| then s else s[|s| - n..]
  }

  /** `s[:n]` */
  function FirstN(s: seq<nat>, n: nat): seq<nat>
  {
    if n >= |s| then s else s[..n]
  }

  /** `list(zip(a, b, strict=False))` */
  function Zip(a: seq<nat>, b: seq<nat>): seq<Candidate>
  {
    seq(if |a| < |b| then |a| else |b|, i requires 0 <= i < |a| && i < |b| => Candidate(a[i], b[i]))
  }

  /** The candidates whose earlier row lies on photo `p`, in the order proposed. */
  function CandidatesFrom(candidates: seq<Candidate>, sources: seq<nat>, p: nat): seq<Candidate>
  {
    if candidates == [] then []
    else
      var last := |candidates| - 1;
      var c := candidates[last];
      CandidatesFrom(candidates[..last], sources, p)
      + if c.first < |sources| && sources[c.first] == p then [c] else []
  }

  /** The ordered pairing of the last `k` rows before index `edge` with the `k` rows from it on. */
  function Pairing(edge: nat, k: nat): (r: seq<Candidate>)
    requires k <= edge
    ensures |r| == k
  {
    seq(k, i requires 0 <= i < k => Candidate(edge - k + i, edge + i))
  }

  function Items(lines: seq<SourceLine>): (r: seq<LineItem>)
    ensures |r| == |lines|
  {
    seq(|lines|, i requires 0 <= i < |lines| => lines[i].item)
  }

  function Keys(items: seq<LineItem>): (r: seq<RowKey>)
    ensures |r| == |items|
  {
    seq(|items|, i requires 0 <= i < |items| => KeyOf(items[i]))
  }

  /** The rows before index `n` whose index is not in `removed`. */
  function Kept(lines: seq<SourceLine>, removed: set<nat>, n: nat): seq<LineItem>
    requires n <= |lines|
  {
    if n == 0 then []
    else Kept(lines, removed, n - 1) + if n - 1 in removed then [] else [lines[n - 1].item]
  }

  datatype MultiImageReceipt = MultiImageReceipt(
    header: Receipt, lines: seq<SourceLine>, candidates: seq<Candidate>)
  {
    function Sources(): (r: seq<nat>)
      ensures |r| == |lines|
    {
      seq(|lines|, i requires 0 <= i < |lines| => lines[i].sourceImage)
    }

    function Edge(p: nat): (r: nat)
      ensures r <= |lines|
    {
      Start(Sources(), p)
    }

    function Proposed(p: nat): seq<Candidate>
    {
      CandidatesFrom(candidates, Sources(), p)
    }

    predicate InRange(c: Candidate)
    {
      c.first < c.second < |lines|
    }

    predicate Adjacent(c: Candidate)
      requires InRange(c)
    {
      lines[c.second].sourceImage == lines[c.first].sourceImage + 1
    }

    /** The candidates that leave photo `p` are, without repeats, the ordered pairing
        of a suffix of `p` with an equally long prefix of the next photo. */
    ghost predicate BoundaryOk(p: nat)
    {
      var k := |Proposed(p)|;
      && k <= Edge(p + 1) - Edge(p)
      && k <= Edge(p + 2) - Edge(p + 1)
      && k <= Edge(p + 1)
      && multiset(Proposed(p)) == multiset(Pairing(Edge(p + 1), k))
    }

    ghost predicate Accepts(imageCount: nat)
    {
      && Grouped(Sources())
      && (forall i :: 0 <= i < |lines| ==> lines[i].sourceImage < imageCount)
      && (forall c :: c in candidates ==> InRange(c) && Adjacent(c))
      && (forall p: nat :: BoundaryOk(p))
    }

    predicate RowRepeats(j: nat, k: nat)
      requires k <= j < |lines|
    {
      SameRow(lines[j - k].item, lines[j].item)
    }

    /** The last `k` rows before `edge` repeat as the `k` rows from `edge` on. */
    predicate Repeats(edge: nat, k: nat)
    {
      && k <= edge
      && edge + k <= |lines|
      && forall j: nat :: edge <= j < edge + k ==> RowRepeats(j, k)
    }

    /** How many rows are dropped from the head of photo `q`. */
    function Drop(q: nat): (d: nat)
      ensures Edge(q) <= Edge(q + 1) ==> Edge(q) + d <= Edge(q + 1)
    {
      if q == 0 then 0
      else
        var k := |Proposed(q - 1)|;
        if k <= Edge(q + 1) - Edge(q) && Repeats(Edge(q), k) then k else 0
    }

    predicate Dropped(i: nat)
    {
      i < |lines| && i < Edge(lines[i].sourceImage) + Drop(lines[i].sourceImage)
    }

    function Photo(q: nat): seq<LineItem>
      requires Edge(q) <= Edge(q + 1)
    {
      Items(lines[Edge(q)..Edge(q + 1)])
    }

    /** Photo `q` without its verified prefix. */
    function Block(q: nat): seq<LineItem>
      requires Edge(q) <= Edge(q + 1)
    {
      Items(lines[Edge(q) + Drop(q)..Edge(q + 1)])
    }

    /** The blocks of the first `n` photos, concatenated in order. */
    function Blocks(n: nat): seq<LineItem>
      requires Grouped(Sources())
    {
      if n == 0 then []
      else
        EdgesAscend(Sources(), n - 1, n);
        Blocks(n - 1) + Block(n - 1)
    }

    /** The first reason to refuse, in the order in which the checks are made. */
    ghost function FirstFault(imageCount: nat): Fault
    {
      if !Grouped(Sources()) || exists i :: 0 <= i < |lines| && lines[i].sourceImage >= imageCount then
        NotGrouped
      else if exists n :: 0 <= n < |candidates| && FirstBad(n) then
        var n :| 0 <= n < |candidates| && FirstBad(n);
        FaultAt(n)
      else NotBoundary
    }

    function FaultAt(n: nat): Fault
      requires n < |candidates|
    {
      if !InRange(candidates[n]) then BadIndices else NotAdjacent
    }

    predicate Good(c: Candidate)
    {
      InRange(c) && Adjacent(c)
    }

    ghost predicate FirstBad(n: nat)
    {
      && n < |candidates|
      && !Good(candidates[n])
      && forall m :: 0 <= m < n ==> Good(candidates[m])
    }

    /** The row of an earlier photo that a dropped row repeats, followed to a row that is kept. */
    function Origin(i: nat): (r: nat)
      requires i < |lines|
    {
      var d := Drop(lines[i].sourceImage);
      if Dropped(i) && 0 < d <= i then Origin(i - d) else i
    }
  }

  // ----- positions of grouped rows

  lemma {:induction false} EdgeOfLastPhoto(sources: seq<nat>, n: nat)
    requires forall i :: 0 <= i < |sources| ==> sources[i] < n
    ensures Start(sources, n) == |sources|
  {
    if sources != [] {
      EdgeOfLastPhoto(sources[..|sources| - 1], n);
    }
  }

  lemma {:induction false} EdgesAscend(sources: seq<nat>, p: nat, q: nat)
    requires p <= q
    ensures Start(sources, p) <= Start(sources, q)
  {
    if sources != [] {
      EdgesAscend(sources[..|sources| - 1], p, q);
    }
  }

  lemma {:induction false} FirstEdge(sources: seq<nat>)
    ensures Start(sources, 0) == 0
  {
    if sources != [] {
      FirstEdge(sources[..|sources| - 1]);
    }
  }

  /** In grouped rows the edge of photo `p` separates the earlier photos from the rest. */
  lemma {:induction false} StartSplits(sources: seq<nat>, p: nat)
    requires Grouped(sources)
    ensures forall i :: 0 <= i < |sources| ==> (sources[i] < p <==> i < Start(sources, p))
  {
    if sources != [] {
      var last := |sources| - 1;
      var rest := sources[..last];
      StartSplits(rest, p);
      assert forall i :: 0 <= i < last ==> rest[i] == sources[i];
      if sources[last] < p {
        EdgeOfLastPhoto(rest, p);
      }
    }
  }

  lemma {:induction false} IndicesAreRange(sources: seq<nat>, p: nat)
    requires Grouped(sources)
    ensures Start(sources, p) <= Start(sources, p + 1)
    ensures IndicesOf(sources, p) == Range(Start(sources, p), Start(sources, p + 1))
  {
    EdgesAscend(sources, p, p + 1);
    if sources != [] {
      var last := |sources| - 1;
      var rest := sources[..last];
      IndicesAreRange(rest, p);
      var lo, hi := Start(rest, p), Start(rest, p + 1);
      if sources[last] == p {
        EdgeOfLastPhoto(rest, p + 1);
        assert Range(lo, hi) + [hi] == Range(lo, hi + 1);
      } else if sources[last] < p {
        EdgeOfLastPhoto(rest, p);
        EdgeOfLastPhoto(rest, p + 1);
        assert Range(last, last) == Range(last + 1, last + 1);
      }
    }
  }

  /** The list the code expects is the pairing, when both photos have enough rows, and has
      the wrong length otherwise. */
  lemma ExpectedPairs(sources: seq<nat>, p: nat, count: nat)
    requires Grouped(sources) && 0 < count
    ensures var lo, edge, hi := Start(sources, p), Start(sources, p + 1), Start(sources, p + 2);
            var expected := Zip(LastN(IndicesOf(sources, p), count), FirstN(IndicesOf(sources, p + 1), count));
            && lo <= edge <= hi
            && (if count <= edge - lo && count <= hi - edge then expected == Pairing(edge, count)
                else |expected| < count)
  {
    IndicesAreRange(sources, p);
    IndicesAreRange(sources, p + 1);
  }

  // ----- candidates of one boundary

  lemma {:induction false} CountOfCandidates(cs: seq<Candidate>, sources: seq<nat>, p: nat, c: Candidate)
    ensures multiset(CandidatesFrom(cs, sources, p))[c]
         == if c.first < |sources| && sources[c.first] == p then multiset(cs)[c] else 0
  {
    if cs != [] {
      var last := |cs| - 1;
      CountOfCandidates(cs[..last], sources, p, c);
      InitMultiset(cs);
    }
  }

  lemma CandidatesIgnoreOrder(cs: seq<Candidate>, ds: seq<Candidate>, sources: seq<nat>, p: nat)
    requires multiset(cs) == multiset(ds)
    ensures multiset(CandidatesFrom(cs, sources, p)) == multiset(CandidatesFrom(ds, sources, p))
    ensures |CandidatesFrom(cs, sources, p)| == |CandidatesFrom(ds, sources, p)|
  {
    forall c
      ensures multiset(CandidatesFrom(cs, sources, p))[c] == multiset(CandidatesFrom(ds, sources, p))[c]
    {
      CountOfCandidates(cs, sources, p, c);
      CountOfCandidates(ds, sources, p, c);
    }
    assert |multiset(CandidatesFrom(cs, sources, p))| == |CandidatesFrom(cs, sources, p)|;
    assert |multiset(CandidatesFrom(ds, sources, p))| == |CandidatesFrom(ds, sources, p)|;
  }

  lemma PairsAreTotallyOrdered()
    ensures StrictTotal(Before)
    ensures StrictTotal(Smaller)
  {
  }

  lemma SortedPairing(edge: nat, k: nat)
    requires k <= edge
    ensures Sorted(Pairing(edge, k), Before)
  {
  }

  /** Comparing the sorted candidates with the expected list decides the boundary condition. */
  lemma BoundaryDecided(x: MultiImageReceipt, p: nat)
    requires Grouped(x.Sources()) && x.Proposed(p) != []
    ensures var pairs := Sort(x.Proposed(p), Before);
            var count := |pairs|;
            var s := x.Sources();
            && 0 < count == |x.Proposed(p)|
            && (pairs == Zip(LastN(IndicesOf(s, p), count), FirstN(IndicesOf(s, p + 1), count))
                <==> x.BoundaryOk(p))
            && (x.BoundaryOk(p) ==> pairs == Pairing(x.Edge(p + 1), count))
  {
    var mine := x.Proposed(p);
    var pairs := Sort(mine, Before);
    SortPermutes(mine, Before);
    PairsAreTotallyOrdered();
    ExpectedPairs(x.Sources(), p, |pairs|);
    if x.BoundaryOk(p) {
      SortedPairing(x.Edge(p + 1), |mine|);
      SortFinds(mine, Pairing(x.Edge(p + 1), |mine|), Before);
    }
  }

  // ----- the rows that survive

  lemma PhotoOfRow(x: MultiImageReceipt, i: nat)
    requires Grouped(x.Sources()) && i < |x.lines|
    ensures var q := x.lines[i].sourceImage;
            && x.Edge(q) <= i < x.Edge(q + 1)
            && x.Edge(q) + x.Drop(q) <= x.Edge(q + 1)
  {
    var q := x.lines[i].sourceImage;
    assert x.Sources()[i] == q;
    StartSplits(x.Sources(), q);
    StartSplits(x.Sources(), q + 1);
  }

  lemma RowOfPhoto(x: MultiImageReceipt, q: nat, i: nat)
    requires Grouped(x.Sources()) && x.Edge(q) <= i < x.Edge(q + 1)
    ensures x.lines[i].sourceImage == q
  {
    assert x.Sources()[i] == x.lines[i].sourceImage;
    StartSplits(x.Sources(), q);
    StartSplits(x.Sources(), q + 1);
  }

  lemma KeptNone(lines: seq<SourceLine>, removed: set<nat>)
    ensures Kept(lines, removed, 0) == []
  {
  }

  lemma ItemsOfExtended(lines: seq<SourceLine>, from: nat, n: nat)
    requires from < n <= |lines|
    ensures Items(lines[from..n]) == Items(lines[from..n - 1]) + [lines[n - 1].item]
  {
    assert lines[from..n] == lines[from..n - 1] + [lines[n - 1]];
  }

  lemma KeptStep(lines: seq<SourceLine>, removed: set<nat>, n: nat)
    requires 0 < n <= |lines|
    ensures n - 1 in removed ==> Kept(lines, removed, n) == Kept(lines, removed, n - 1)
    ensures n - 1 !in removed ==> Kept(lines, removed, n) == Kept(lines, removed, n - 1) + [lines[n - 1].item]
  {
  }

  lemma {:induction false} KeptRange(lines: seq<SourceLine>, removed: set<nat>, lo: nat, from: nat, n: nat)
    requires lo <= from && lo <= n <= |lines|
    requires forall i: nat :: lo <= i < n ==> (i in removed <==> i < from)
    ensures n <= from ==> Kept(lines, removed, n) == Kept(lines, removed, lo)
    ensures n > from ==> Kept(lines, removed, n) == Kept(lines, removed, lo) + Items(lines[from..n])
  {
    hide Kept, Items;
    if n > lo {
      KeptRange(lines, removed, lo, from, n - 1);
      KeptStep(lines, removed, n);
      if from < n {
        ItemsOfExtended(lines, from, n);
        if n - 1 == from {
          ItemsOfNone(lines, from);
        }
      }
    }
  }

  lemma ItemsOfNone(lines: seq<SourceLine>, from: nat)
    requires from <= |lines|
    ensures Items(lines[from..from]) == []
  {
  }

  lemma RemovedFromPhoto(x: MultiImageReceipt, removed: set<nat>, q: nat)
    requires Grouped(x.Sources())
    requires forall i: nat :: i in removed <==> x.Dropped(i)
    ensures forall i: nat :: x.Edge(q) <= i < x.Edge(q + 1) ==> (i in removed <==> i < x.Edge(q) + x.Drop(q))
  {
    forall i: nat | x.Edge(q) <= i < x.Edge(q + 1) ensures i in removed <==> i < x.Edge(q) + x.Drop(q) {
      RowOfPhoto(x, q, i);
    }
  }

  /** Filtering row by row and concatenating photo by photo give the same list. */
  lemma {:induction false} KeptAreBlocks(x: MultiImageReceipt, removed: set<nat>, n: nat)
    requires Grouped(x.Sources())
    requires forall i: nat :: i in removed <==> x.Dropped(i)
    ensures Kept(x.lines, removed, x.Edge(n)) == x.Blocks(n)
  {
    hide Start, Kept, MultiImageReceipt.Drop;
    if n == 0 {
      assert Kept(x.lines, removed, 0) == [] by { KeptNone(x.lines, removed); }
      FirstEdge(x.Sources());
    } else {
      var q := n - 1;
      KeptAreBlocks(x, removed, q);
      EdgesAscend(x.Sources(), q, n);
      var lo, from, hi := x.Edge(q), x.Edge(q) + x.Drop(q), x.Edge(n);
      RemovedFromPhoto(x, removed, q);
      KeptRange(x.lines, removed, lo, from, hi);
      assert x.Block(q) == if hi <= from then [] else Items(x.lines[from..hi]);
    }
  }

  lemma DropAtBoundary(x: MultiImageReceipt, p: nat)
    requires |x.Proposed(p)| <= x.Edge(p + 2) - x.Edge(p + 1)
    ensures x.Drop(p + 1) == if x.Repeats(x.Edge(p + 1), |x.Proposed(p)|) then |x.Proposed(p)| else 0
  {
  }

  lemma DroppedInPhoto(x: MultiImageReceipt, q: nat, i: nat)
    requires Grouped(x.Sources()) && x.Edge(q) + x.Drop(q) <= x.Edge(q + 1)
    ensures (i < |x.lines| && x.lines[i].sourceImage == q && x.Dropped(i))
            <==> x.Edge(q) <= i < x.Edge(q) + x.Drop(q)
  {
    if x.Edge(q) <= i < x.Edge(q + 1) {
      RowOfPhoto(x, q, i);
    } else if i < |x.lines| && x.lines[i].sourceImage == q {
      PhotoOfRow(x, i);
    }
  }

  /** Which rows one accepted boundary drops: all of its repeated rows or none. */
  lemma DroppedAtBoundary(x: MultiImageReceipt, p: nat, k: nat, edge: nat)
    requires Grouped(x.Sources())
    requires k == |x.Proposed(p)| && edge == x.Edge(p + 1) && k <= x.Edge(p + 2) - edge
    ensures forall i: nat :: (i < |x.lines| && x.lines[i].sourceImage == p + 1 && x.Dropped(i))
                             <==> (x.Repeats(edge, k) && edge <= i < edge + k)
  {
    DropAtBoundary(x, p);
    forall i: nat
      ensures (i < |x.lines| && x.lines[i].sourceImage == p + 1 && x.Dropped(i))
              <==> (x.Repeats(edge, k) && edge <= i < edge + k)
    {
      DroppedInPhoto(x, p + 1, i);
    }
  }

  lemma DropNeedsProposal(x: MultiImageReceipt, i: nat)
    requires Grouped(x.Sources()) && x.Dropped(i)
    ensures var q := x.lines[i].sourceImage; q > 0 && x.Proposed(q - 1) != []
  {
    PhotoOfRow(x, i);
  }

  lemma UnproposedBoundary(x: MultiImageReceipt, p: nat)
    requires x.Proposed(p) == []
    ensures x.BoundaryOk(p)
  {
    EdgesAscend(x.Sources(), p, p + 1);
    EdgesAscend(x.Sources(), p + 1, p + 2);
    assert Pairing(x.Edge(p + 1), 0) == [];
  }

  /** `sources == sorted(sources)` */
  method IsSorted(sources: seq<nat>) returns (b: bool)
    ensures b <==> Grouped(sources)
  {
    PairsAreTotallyOrdered();
    SortSorts(sources, Smaller);
    if Grouped(sources) {
      SortFinds(sources, sources, Smaller);
    }
    b := sources == Sort(sources, Smaller);
  }

  lemma FirstFaultIs(x: MultiImageReceipt, imageCount: nat, n: nat)
    requires Grouped(x.Sources())
    requires forall i :: 0 <= i < |x.lines| ==> x.Sources()[i] < imageCount
    requires x.FirstBad(n)
    ensures x.FirstFault(imageCount) == x.FaultAt(n)
    ensures !x.Accepts(imageCount)
  {
    assert forall i :: 0 <= i < |x.lines| ==> x.Sources()[i] == x.lines[i].sourceImage;
    assert x.candidates[n] in x.candidates;
    forall m | 0 <= m < |x.candidates| && x.FirstBad(m) ensures m == n {
    }
  }

  /** The dictionary built from the candidates `cs`: one entry per photo that has any. */
  ghost predicate GroupsOf(groups: map<nat, seq<Candidate>>, cs: seq<Candidate>, sources: seq<nat>)
  {
    forall p: nat :: (p in groups <==> CandidatesFrom(cs, sources, p) != [])
                     && (p in groups ==> groups[p] == CandidatesFrom(cs, sources, p))
  }

  lemma NoGroups(sources: seq<nat>)
    ensures GroupsOf(map[], [], sources)
  {
  }

  lemma AddToGroup(groups: map<nat, seq<Candidate>>, cs: seq<Candidate>, sources: seq<nat>, c: Candidate)
    requires GroupsOf(groups, cs, sources) && c.first < |sources|
    ensures var p := sources[c.first];
            GroupsOf(groups[p := (if p in groups then groups[p] else []) + [c]], cs + [c], sources)
  {
    assert (cs + [c])[..|cs|] == cs;
  }

  method GroupByPhoto(x: MultiImageReceipt)
    returns (fault: Option<Fault>, groups: map<nat, seq<Candidate>>, order: seq<nat>, at: nat)
    ensures fault.None? ==> forall c :: c in x.candidates ==> x.Good(c)
    ensures fault.Some? ==> x.FirstBad(at) && fault.value == x.FaultAt(at)
    ensures fault.None? ==> GroupsOf(groups, x.candidates, x.Sources())
    ensures forall p :: p in order <==> p in groups
  {
    hide GroupsOf, CandidatesFrom;
    var sources := x.Sources();
    groups, order, fault := map[], [], None;
    NoGroups(sources);
    for n := 0 to |x.candidates|
      invariant forall m :: 0 <= m < n ==> x.Good(x.candidates[m])
      invariant GroupsOf(groups, x.candidates[..n], sources)
      invariant forall p :: p in order <==> p in groups
    {
      var c := x.candidates[n];
      if !(c.first < c.second < |x.lines|) {
        return Some(BadIndices), groups, order, n;
      }
      if sources[c.second] != sources[c.first] + 1 {
        return Some(NotAdjacent), groups, order, n;
      }
      AddToGroup(groups, x.candidates[..n], sources, c);
      assert x.candidates[..n + 1] == x.candidates[..n] + [c];
      var p := sources[c.first];
      order := if p in groups then order else order + [p];
      groups := groups[p := (if p in groups then groups[p] else []) + [c]];
    }
    assert x.candidates[..|x.candidates|] == x.candidates;
    at := 0;
  }

  method AllVerified(x: MultiImageReceipt, pairs: seq<Candidate>, ratio: (string, string) -> real)
    returns (all: bool)
    requires IsSimilarity(ratio)
    requires forall c :: c in pairs ==> c.first < |x.lines| && c.second < |x.lines|
    ensures all <==> forall c :: c in pairs ==> SameRow(x.lines[c.first].item, x.lines[c.second].item)
  {
    all := true;
    for j := 0 to |pairs|
      invariant all
      invariant forall m :: 0 <= m < j ==> SameRow(x.lines[pairs[m].first].item, x.lines[pairs[m].second].item)
    {
      DefaultsMeanSameRow(x.lines[pairs[j].first].item, x.lines[pairs[j].second].item, ratio);
      var verdict := VerifyDuplicate(x.lines[pairs[j].first].item, x.lines[pairs[j].second].item, ratio);
      if verdict != Ok(true) {
        assert pairs[j] in pairs;
        return false;
      }
    }
  }

  lemma PairsRepeat(x: MultiImageReceipt, edge: nat, k: nat)
    requires k <= edge && edge + k <= |x.lines|
    ensures x.Repeats(edge, k) <==>
            forall c :: c in Pairing(edge, k) ==> SameRow(x.lines[c.first].item, x.lines[c.second].item)
  {
    var pairs := Pairing(edge, k);
    if forall c :: c in pairs ==> SameRow(x.lines[c.first].item, x.lines[c.second].item) {
      forall j: nat | edge <= j < edge + k
        ensures x.RowRepeats(j, k)
      {
        assert pairs[j - edge] == Candidate(j - k, j);
        assert pairs[j - edge] in pairs;
      }
    } else {
      var i :| 0 <= i < k && !SameRow(x.lines[pairs[i].first].item, x.lines[pairs[i].second].item);
      assert !x.RowRepeats(edge + i, k);
    }
  }

  /** One photo boundary: checked against the expected pairing, then verified row by row. */
  method CheckBoundary(x: MultiImageReceipt, p: nat, mine: seq<Candidate>, ratio: (string, string) -> real)
    returns (ok: bool, gone: set<nat>)
    requires IsSimilarity(ratio)
    requires Grouped(x.Sources()) && mine == x.Proposed(p) != []
    ensures ok <==> x.BoundaryOk(p)
    ensures ok ==> forall i: nat :: i in gone <==>
                     (i < |x.lines| && x.lines[i].sourceImage == p + 1 && x.Dropped(i))
  {
    gone := {};
    BoundaryDecided(x, p);
    var pairs := Sort(mine, Before);
    var count := |pairs|;
    var earlier, later := IndicesOf(x.Sources(), p), IndicesOf(x.Sources(), p + 1);
    ok := pairs == Zip(LastN(earlier, count), FirstN(later, count));
    if ok {
      ghost var edge := x.Edge(p + 1);
      DroppedAtBoundary(x, p, count, edge);
      PairsRepeat(x, edge, count);
      var verified := AllVerified(x, pairs, ratio);
      if verified {
        gone := SecondsOf(pairs);
        SecondsOfPairing(edge, count);
      }
    }
  }

  function SecondsOf(pairs: seq<Candidate>): set<nat>
  {
    set c | c in pairs :: c.second
  }

  lemma SecondsOfPairing(edge: nat, k: nat)
    requires k <= edge
    ensures forall i: nat :: i in SecondsOf(Pairing(edge, k)) <==> edge <= i < edge + k
  {
    forall i: nat
      ensures i in SecondsOf(Pairing(edge, k)) <==> edge <= i < edge + k
    {
      if edge <= i < edge + k {
        assert Pairing(edge, k)[i - edge].second == i;
      }
    }
  }

  /** The rows that the checked boundaries of the photos `ps` drop. */
  ghost predicate DropsAfter(x: MultiImageReceipt, ps: seq<nat>, removed: set<nat>)
  {
    forall i: nat :: i in removed <==>
      i < |x.lines| && x.Dropped(i) && x.lines[i].sourceImage > 0 && x.lines[i].sourceImage - 1 in ps
  }

  lemma DropsAfterStep(x: MultiImageReceipt, ps: seq<nat>, removed: set<nat>, p: nat, gone: set<nat>)
    requires DropsAfter(x, ps, removed)
    requires forall i: nat :: i in gone <==>
               (i < |x.lines| && x.lines[i].sourceImage == p + 1 && x.Dropped(i))
    ensures DropsAfter(x, ps + [p], removed + gone)
  {
  }

  method CheckBoundaries(
    x: MultiImageReceipt, groups: map<nat, seq<Candidate>>, order: seq<nat>, ratio: (string, string) -> real)
    returns (ok: bool, removed: set<nat>)
    requires IsSimilarity(ratio)
    requires Grouped(x.Sources())
    requires GroupsOf(groups, x.candidates, x.Sources())
    requires forall p :: p in order <==> p in groups
    ensures ok <==> forall p: nat :: x.BoundaryOk(p)
    ensures ok ==> DropsAfter(x, order, removed)
  {
    hide MultiImageReceipt.BoundaryOk;
    removed := {};
    for g := 0 to |order|
      invariant forall p :: p in order[..g] ==> x.BoundaryOk(p)
      invariant DropsAfter(x, order[..g], removed)
    {
      var p := order[g];
      var fine, gone := CheckBoundary(x, p, groups[p], ratio);
      if !fine {
        return false, removed;
      }
      DropsAfterStep(x, order[..g], removed, p, gone);
      removed := removed + gone;
      assert order[..g + 1] == order[..g] + [p];
    }
    assert order[..|order|] == order;
    AllBoundariesOk(x, order);
    return true, removed;
  }

  method KeepRows(lines: seq<SourceLine>, removed: set<nat>) returns (kept: seq<LineItem>)
    ensures kept == Kept(lines, removed, |lines|)
  {
    kept := [];
    for index := 0 to |lines|
      invariant kept == Kept(lines, removed, index)
    {
      if index !in removed {
        kept := kept + [lines[index].item];
      }
    }
  }

  lemma DropsAreDropped(
    x: MultiImageReceipt, groups: map<nat, seq<Candidate>>, order: seq<nat>, removed: set<nat>)
    requires Grouped(x.Sources())
    requires DropsAfter(x, order, removed)
    requires GroupsOf(groups, x.candidates, x.Sources())
    requires forall p :: p in order <==> p in groups
    ensures forall i: nat :: i in removed <==> x.Dropped(i)
  {
    forall i: nat ensures i in removed <==> x.Dropped(i) {
      if x.Dropped(i) {
        DropNeedsProposal(x, i);
      }
    }
  }

  lemma RefusedForGrouping(x: MultiImageReceipt, imageCount: nat)
    requires !Grouped(x.Sources()) || exists i :: 0 <= i < |x.lines| && x.Sources()[i] >= imageCount
    ensures !x.Accepts(imageCount) && x.FirstFault(imageCount) == NotGrouped
  {
    if i :| 0 <= i < |x.lines| && x.Sources()[i] >= imageCount {
      assert x.lines[i].sourceImage >= imageCount;
    }
  }

  /** Once the candidates are in range and adjacent, the boundaries decide. */
  lemma BoundariesDecide(x: MultiImageReceipt, imageCount: nat)
    requires Grouped(x.Sources())
    requires forall i :: 0 <= i < |x.lines| ==> x.Sources()[i] < imageCount
    requires forall c :: c in x.candidates ==> x.Good(c)
    ensures x.Accepts(imageCount) <==> forall p: nat :: x.BoundaryOk(p)
    ensures !x.Accepts(imageCount) ==> x.FirstFault(imageCount) == NotBoundary
  {
    hide MultiImageReceipt.BoundaryOk;
    assert forall i :: 0 <= i < |x.lines| ==> x.Sources()[i] == x.lines[i].sourceImage;
    assert forall n :: 0 <= n < |x.candidates| ==> x.candidates[n] in x.candidates;
  }

  /** `reconciled`: accepts exactly the well-formed extractions, returns the photos in order
      without their verified repeats, and otherwise reports the first failed check. */
  method Reconciled(x: MultiImageReceipt, imageCount: nat, ratio: (string, string) -> real)
    returns (r: Result<Receipt, Fault>)
    requires IsSimilarity(ratio)
    ensures r.Ok? <==> x.Accepts(imageCount)
    ensures r.Ok? ==> r.value == x.header.(lineItems := x.Blocks(imageCount))
    ensures r.Err? ==> r.error == x.FirstFault(imageCount)
  {
    hide MultiImageReceipt.BoundaryOk, MultiImageReceipt.Accepts, MultiImageReceipt.FirstFault, MultiImageReceipt.Dropped;
    hide Start, CandidatesFrom, DropsAfter, Kept, MultiImageReceipt.Blocks;
    var sources := x.Sources();
    var sorted := IsSorted(sources);
    if !sorted || exists i :: 0 <= i < |sources| && sources[i] >= imageCount {
      RefusedForGrouping(x, imageCount);
      return Err(NotGrouped);
    }
    var fault, groups, order, at := GroupByPhoto(x);
    if fault.Some? {
      FirstFaultIs(x, imageCount, at);
      return Err(fault.value);
    }
    BoundariesDecide(x, imageCount);
    var ok, removed := CheckBoundaries(x, groups, order, ratio);
    if !ok {
      return Err(NotBoundary);
    }
    DropsAreDropped(x, groups, order, removed);
    EdgeOfLastPhoto(sources, imageCount);
    KeptAreBlocks(x, removed, imageCount);
    var kept := KeepRows(x.lines, removed);
    return Ok(x.header.(lineItems := kept));
  }

  lemma AllBoundariesOk(x: MultiImageReceipt, order: seq<nat>)
    requires forall p: nat :: p in order <==> x.Proposed(p) != []
    requires forall p :: p in order ==> x.BoundaryOk(p)
    ensures forall p: nat :: x.BoundaryOk(p)
  {
    forall p: nat ensures x.BoundaryOk(p) {
      if x.Proposed(p) == [] {
        UnproposedBoundary(x, p);
      }
    }
  }
}
