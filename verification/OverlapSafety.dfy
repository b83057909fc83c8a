/**
  What reconciliation guarantees: the order of the proposals is irrelevant, every photo
  can still be read off the result, and a row is only ever dropped because an earlier
  photo keeps an equal one, a different one for each row of a photo.
 */
module OverlapSafety {
  import opened ReceiptModel
  import opened Duplicates
  import opened Overlap

  /** Acceptance and result depend on the proposed pairs, not on their order. */
  lemma ProposalOrderIsIrrelevant(x: MultiImageReceipt, candidates: seq<Candidate>, imageCount: nat)
    requires multiset(x.candidates) == multiset(candidates)
    ensures var y := x.(candidates := candidates);
            && (y.Accepts(imageCount) <==> x.Accepts(imageCount))
            && (x.Accepts(imageCount) ==> y.Blocks(imageCount) == x.Blocks(imageCount))
  {
    hide MultiImageReceipt.BoundaryOk, CandidatesFrom, Start, Grouped;
    var y := x.(candidates := candidates);
    assert y.Sources() == x.Sources();
    forall p: nat ensures y.BoundaryOk(p) <==> x.BoundaryOk(p) {
      BoundaryIgnoresOrder(x, y, p);
    }
    forall c ensures c in y.candidates <==> c in x.candidates {
      Sorting.MemberOfPermutation(y.candidates, x.candidates, c);
    }
    assert forall c :: x.InRange(c) <==> y.InRange(c);
    assert forall c :: x.InRange(c) ==> (x.Adjacent(c) <==> y.Adjacent(c));
    if x.Accepts(imageCount) {
      BlocksIgnoreOrder(x, y, imageCount);
    }
  }

  lemma BoundaryIgnoresOrder(x: MultiImageReceipt, y: MultiImageReceipt, p: nat)
    requires y.lines == x.lines && multiset(x.candidates) == multiset(y.candidates)
    ensures y.BoundaryOk(p) <==> x.BoundaryOk(p)
    ensures |y.Proposed(p)| == |x.Proposed(p)|
  {
    hide CandidatesFrom, Start;
    assert y.Sources() == x.Sources();
    CandidatesIgnoreOrder(x.candidates, y.candidates, x.Sources(), p);
  }

  lemma DropIgnoresOrder(x: MultiImageReceipt, y: MultiImageReceipt, q: nat)
    requires y.lines == x.lines && multiset(x.candidates) == multiset(y.candidates)
    ensures y.Drop(q) == x.Drop(q)
  {
    hide CandidatesFrom, Start, MultiImageReceipt.BoundaryOk;
    assert y.Sources() == x.Sources();
    if q > 0 {
      BoundaryIgnoresOrder(x, y, q - 1);
      RepeatsAlike(x, y, x.Edge(q), |x.Proposed(q - 1)|);
    }
  }

  lemma {:induction false} BlocksIgnoreOrder(x: MultiImageReceipt, y: MultiImageReceipt, n: nat)
    requires y.lines == x.lines && multiset(x.candidates) == multiset(y.candidates)
    requires Grouped(x.Sources())
    ensures y.Sources() == x.Sources() && y.Blocks(n) == x.Blocks(n)
  {
    hide Start, MultiImageReceipt.Drop;
    assert y.Sources() == x.Sources();
    if n > 0 {
      var q := n - 1;
      BlocksIgnoreOrder(x, y, q);
      EdgesAscend(x.Sources(), q, n);
      DropIgnoresOrder(x, y, q);
    }
  }

  lemma RepeatsAlike(x: MultiImageReceipt, y: MultiImageReceipt, edge: nat, k: nat)
    requires y.lines == x.lines
    ensures y.Repeats(edge, k) <==> x.Repeats(edge, k)
  {
    if k <= edge && edge + k <= |x.lines| {
      assert forall j: nat :: edge <= j < edge + k ==> (y.RowRepeats(j, k) <==> x.RowRepeats(j, k));
    }
  }

  // ----- every photo is a contiguous stretch of the result

  lemma EdgesOfPhoto(x: MultiImageReceipt, q: nat)
    requires Grouped(x.Sources())
    ensures x.Edge(q) <= x.Edge(q + 1)
    ensures x.Edge(q) + x.Drop(q) <= x.Edge(q + 1)
    ensures |x.Photo(q)| == x.Edge(q + 1) - x.Edge(q)
  {
    hide Start, MultiImageReceipt.Drop;
    EdgesAscend(x.Sources(), q, q + 1);
  }

  /** The dropped rows are read, key by key, at the end of the previous photo. */
  lemma DroppedRowsRepeat(x: MultiImageReceipt, q: nat, i: nat)
    requires Grouped(x.Sources()) && x.BoundaryOk(q) && i < x.Drop(q + 1)
    ensures x.Drop(q + 1) <= x.Edge(q + 1) - x.Edge(q)
    ensures x.Edge(q + 1) + i < |x.lines|
    ensures KeyOf(x.lines[x.Edge(q + 1) + i - x.Drop(q + 1)].item) == KeyOf(x.lines[x.Edge(q + 1) + i].item)
  {
    hide CandidatesFrom, Start;
    var j, k := x.Edge(q + 1) + i, x.Drop(q + 1);
    assert x.RowRepeats(j, k);
  }

  lemma PhotoAt(x: MultiImageReceipt, q: nat, i: nat)
    requires x.Edge(q) <= x.Edge(q + 1) && i < x.Edge(q + 1) - x.Edge(q)
    ensures Keys(x.Photo(q))[i] == KeyOf(x.lines[x.Edge(q) + i].item)
  {
    hide Start;
  }

  lemma BlockAt(x: MultiImageReceipt, q: nat, i: nat)
    requires x.Edge(q) <= x.Edge(q + 1) && x.Drop(q) <= i < x.Edge(q + 1) - x.Edge(q)
    ensures |x.Block(q)| == x.Edge(q + 1) - x.Edge(q) - x.Drop(q)
    ensures Keys(x.Block(q))[i - x.Drop(q)] == KeyOf(x.lines[x.Edge(q) + i].item)
  {
    hide Start, MultiImageReceipt.Drop;
  }

  /** `s` ends with `t`. */
  predicate EndsWith<T(==)>(s: seq<T>, t: seq<T>)
  {
    |t| <= |s| && s[|s| - |t|..] == t
  }

  /** Replacing a prefix of `photo` that repeats the end of `sofar` by nothing leaves
      `photo` readable at the end. */
  lemma ReadBack<T>(sofar: seq<T>, previous: seq<T>, photo: seq<T>, d: nat)
    requires EndsWith(sofar, previous)
    requires d <= |photo| && d <= |previous|
    requires forall i :: 0 <= i < d ==> photo[i] == previous[|previous| - d + i]
    ensures EndsWith(sofar + photo[d..], photo)
  {
    var all := sofar + photo[d..];
    var at := |all| - |photo|;
    assert at == |sofar| - d;
    forall i | 0 <= i < |photo| ensures all[at + i] == photo[i] {
      if i < d {
        var tail := sofar[|sofar| - |previous|..];
        assert tail[|previous| - d + i] == sofar[at + i];
      }
    }
    assert all[at..] == photo;
  }

  lemma KeysOfBlock(x: MultiImageReceipt, q: nat)
    requires Grouped(x.Sources())
    ensures x.Edge(q) <= x.Edge(q + 1) && x.Drop(q) <= |x.Photo(q)|
    ensures Keys(x.Block(q)) == Keys(x.Photo(q))[x.Drop(q)..]
  {
    EdgesOfPhoto(x, q);
    hide Start, MultiImageReceipt.Drop, Keys;
    var block, photo, d := Keys(x.Block(q)), Keys(x.Photo(q)), x.Drop(q);
    assert |block| == |photo| - d;
    forall i | d <= i < |photo| ensures block[i - d] == photo[i] {
      PhotoAt(x, q, i);
      BlockAt(x, q, i);
    }
  }

  lemma KeysOfConcat(a: seq<LineItem>, b: seq<LineItem>)
    ensures Keys(a + b) == Keys(a) + Keys(b)
  {
  }

  lemma FirstPhotoIsWhole(x: MultiImageReceipt)
    ensures x.Drop(0) == 0
  {
  }

  lemma HeadRepeatsTail(x: MultiImageReceipt, q: nat)
    requires Grouped(x.Sources()) && q > 0 && x.BoundaryOk(q - 1)
    ensures x.Edge(q - 1) <= x.Edge(q) <= x.Edge(q + 1)
    ensures var d, previous, photo := x.Drop(q), Keys(x.Photo(q - 1)), Keys(x.Photo(q));
            && d <= |previous| && d <= |photo|
            && forall i :: 0 <= i < d ==> photo[i] == previous[|previous| - d + i]
  {
    hide Start, CandidatesFrom, MultiImageReceipt.BoundaryOk, MultiImageReceipt.Drop, Keys, Items;
    EdgesOfPhoto(x, q - 1);
    EdgesOfPhoto(x, q);
    var d, previous, photo := x.Drop(q), Keys(x.Photo(q - 1)), Keys(x.Photo(q));
    if d > 0 {
      DroppedRowsRepeat(x, q - 1, 0);
    }
    forall i | 0 <= i < d ensures photo[i] == previous[|previous| - d + i] {
      DroppedRowsRepeat(x, q - 1, i);
      PhotoAt(x, q, i);
      PhotoAt(x, q - 1, |previous| - d + i);
    }
  }

  /** Even where overlaps chain through photos that are dropped entirely, the rows kept so
      far end with the whole latest photo. */
  lemma {:induction false} LatestPhotoIsReadable(x: MultiImageReceipt, q: nat)
    requires Grouped(x.Sources())
    requires forall p: nat :: x.BoundaryOk(p)
    ensures x.Edge(q) <= x.Edge(q + 1)
    ensures EndsWith(Keys(x.Blocks(q + 1)), Keys(x.Photo(q)))
  {
    hide Start, CandidatesFrom, MultiImageReceipt.BoundaryOk, MultiImageReceipt.Drop, Keys, Items;
    EdgesOfPhoto(x, q);
    KeysOfBlock(x, q);
    KeysOfConcat(x.Blocks(q), x.Block(q));
    var sofar, photo, d := Keys(x.Blocks(q)), Keys(x.Photo(q)), x.Drop(q);
    assert Keys(x.Blocks(q + 1)) == sofar + photo[d..];
    if q == 0 {
      FirstPhotoIsWhole(x);
      ReadBack(sofar, [], photo, 0);
    } else {
      LatestPhotoIsReadable(x, q - 1);
      HeadRepeatsTail(x, q);
      ReadBack(sofar, Keys(x.Photo(q - 1)), photo, d);
    }
  }

  lemma {:induction false} BlocksGrow(x: MultiImageReceipt, m: nat, n: nat)
    requires Grouped(x.Sources()) && m <= n
    ensures x.Blocks(m) <= x.Blocks(n)
  {
    hide Start, MultiImageReceipt.Drop;
    if m < n {
      BlocksGrow(x, m, n - 1);
      EdgesOfPhoto(x, n - 1);
    }
  }

  /** Where photo `q` can be read in the result. */
  ghost predicate ReadableAt(result: seq<LineItem>, photo: seq<LineItem>, at: nat)
  {
    at + |photo| <= |result| && Keys(result)[at..at + |photo|] == Keys(photo)
  }

  /** Every photo of an accepted extraction appears, in order and without gaps, in the result. */
  lemma PhotoSurvives(x: MultiImageReceipt, imageCount: nat, q: nat)
    requires x.Accepts(imageCount) && q < imageCount
    ensures x.Edge(q) <= x.Edge(q + 1)
    ensures exists at: nat :: ReadableAt(x.Blocks(imageCount), x.Photo(q), at)
  {
    hide Start, MultiImageReceipt.BoundaryOk;
    LatestPhotoIsReadable(x, q);
    BlocksGrow(x, q + 1, imageCount);
    var prefix, result, photo := x.Blocks(q + 1), x.Blocks(imageCount), x.Photo(q);
    var at := |prefix| - |photo|;
    ReadInPrefix(prefix, result, photo);
    assert ReadableAt(result, photo, at);
  }

  lemma ReadInPrefix(prefix: seq<LineItem>, result: seq<LineItem>, photo: seq<LineItem>)
    requires prefix <= result && EndsWith(Keys(prefix), Keys(photo))
    ensures ReadableAt(result, photo, |prefix| - |photo|)
  {
    assert Keys(prefix) == Keys(result)[..|prefix|];
  }

  /** No genuine repeat purchase is lost: within one photo, every key survives at least as
      often as it was read. */
  lemma RepeatPurchasesSurvive(x: MultiImageReceipt, imageCount: nat, q: nat)
    requires x.Accepts(imageCount) && q < imageCount
    ensures x.Edge(q) <= x.Edge(q + 1)
    ensures multiset(Keys(x.Photo(q))) <= multiset(Keys(x.Blocks(imageCount)))
  {
    hide Start, MultiImageReceipt.BoundaryOk;
    PhotoSurvives(x, imageCount, q);
    var keys, photo := Keys(x.Blocks(imageCount)), x.Photo(q);
    var at: nat :| ReadableAt(x.Blocks(imageCount), photo, at);
    assert keys == keys[..at] + keys[at..at + |photo|] + keys[at + |photo|..];
  }

  // ----- every dropped row has an equal row that is kept

  lemma {:induction false} StepToOrigin(x: MultiImageReceipt, i: nat)
    requires Grouped(x.Sources()) && (forall p: nat :: x.BoundaryOk(p))
    requires i < |x.lines| && x.Dropped(i)
    ensures var d := x.Drop(x.lines[i].sourceImage);
            && 0 < d <= i
            && x.lines[i - d].sourceImage + 1 == x.lines[i].sourceImage
            && Candidate(i - d, i) in x.candidates
            && SameRow(x.lines[i - d].item, x.lines[i].item)
  {
    hide Start, CandidatesFrom;
    PhotoOfRow(x, i);
    DropNeedsProposal(x, i);
    var q, d := x.lines[i].sourceImage, x.Drop(x.lines[i].sourceImage);
    assert x.BoundaryOk(q - 1);
    assert x.RowRepeats(i, d);
    RowOfPhoto(x, q - 1, i - d);
    var pairs := Pairing(x.Edge(q), d);
    assert pairs[i - x.Edge(q)] == Candidate(i - d, i);
    assert Candidate(i - d, i) in multiset(pairs);
    assert Candidate(i - d, i) in multiset(x.Proposed(q - 1));
    CountOfCandidates(x.candidates, x.Sources(), q - 1, Candidate(i - d, i));
  }

  /** The origin of a row is kept and has the same key; for a dropped row it lies on an
      earlier photo. */
  lemma {:induction false} OriginIsKept(x: MultiImageReceipt, i: nat)
    requires Grouped(x.Sources()) && (forall p: nat :: x.BoundaryOk(p))
    requires i < |x.lines|
    ensures x.Origin(i) <= i && !x.Dropped(x.Origin(i))
    ensures KeyOf(x.lines[x.Origin(i)].item) == KeyOf(x.lines[i].item)
    ensures x.Dropped(i) ==> x.lines[x.Origin(i)].sourceImage < x.lines[i].sourceImage
  {
    hide Start, MultiImageReceipt.Drop, MultiImageReceipt.BoundaryOk;
    if x.Dropped(i) {
      StepToOrigin(x, i);
      OriginIsKept(x, i - x.Drop(x.lines[i].sourceImage));
    }
  }

  /** Different rows of one photo are represented by different kept rows, in the same order. */
  lemma {:induction false} OriginIsInjective(x: MultiImageReceipt, i: nat, j: nat)
    requires Grouped(x.Sources()) && (forall p: nat :: x.BoundaryOk(p))
    requires i < j < |x.lines| && x.lines[i].sourceImage == x.lines[j].sourceImage
    ensures x.Origin(i) < x.Origin(j)
    decreases j
  {
    hide Start, MultiImageReceipt.Drop, MultiImageReceipt.BoundaryOk;
    if x.Dropped(j) {
      StepToOrigin(x, j);
      StepToOrigin(x, i);
      var d := x.Drop(x.lines[j].sourceImage);
      OriginIsInjective(x, i - d, j - d);
    } else {
      OriginIsKept(x, i);
    }
  }
}
