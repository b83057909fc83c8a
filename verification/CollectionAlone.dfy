/**
  A job that nothing interrupts does what the method of the service does: the protocol and
  the code describe the same operations.
 */
module CollectionAlone {
  import opened Prelude
  import opened CollectionTables
  import opened CollectionProtocol

  /** `n` statements of one job in a row */
  function Gos(id: JobId, n: nat): (steps: seq<Step>)
    ensures |steps| == n
  {
    if n == 0 then [] else [Go(id)] + Gos(id, n - 1)
  }

  lemma OneMoreGo(s: State, id: JobId, n: nat, end: State)
    requires Enabled(s, Go(id))
    requires Run(Apply(s, Go(id), true), Gos(id, n), true) && After(Apply(s, Go(id), true), Gos(id, n), true) == end
    ensures Run(s, Gos(id, n + 1), true) && After(s, Gos(id, n + 1), true) == end
  {
    hide Apply, Enabled;
    assert Gos(id, n + 1)[0] == Go(id) && Gos(id, n + 1)[1..] == Gos(id, n);
  }

  lemma NoGo(s: State, id: JobId)
    ensures Run(s, Gos(id, 0), true) && After(s, Gos(id, 0), true) == s
  {
  }

  /** The inserts of a job whose targets exist */
  lemma {:induction false} LinkAllAlone(s: State, id: JobId, caller: Caller, r: ReceiptId, targets: seq<CollectionId>)
    requires id in s.jobs && s.jobs[id] == LinkAll(caller, r, targets)
    requires r in s.receipts && forall i :: 0 <= i < |targets| ==> targets[i] in s.collections
    ensures var n := |targets| + 1;
            && Run(s, Gos(id, n), true)
            && After(s, Gos(id, n), true) == s.(links := s.links + LinksTo(r, targets), jobs := s.jobs - {id})
    decreases |targets|
  {
    hide Run, After, Gos;
    var t := Apply(s, Go(id), true);
    var end := s.(links := s.links + LinksTo(r, targets), jobs := s.jobs - {id});
    if targets == [] {
      assert s.links + LinksTo(r, targets) == s.links;
      NoGo(t, id);
      OneMoreGo(s, id, 0, end);
    } else {
      LinkAllAlone(t, id, caller, r, targets[1..]);
      assert targets == [targets[0]] + targets[1..];
      assert s.links + LinksTo(r, targets) == t.links + LinksTo(r, targets[1..]);
      assert t.jobs - {id} == s.jobs - {id};
      OneMoreGo(s, id, |targets|, end);
    }
  }

  /** What `set_receipt_collections` leaves: the receipt's links replaced if the caller sees
      the receipt and all targets, and nothing changed otherwise. */
  function Replaced(s: State, id: JobId, caller: Caller, r: ReceiptId, targets: seq<CollectionId>): State
  {
    if SeesReceipt(caller, r, s.receipts) && forall i :: 0 <= i < |targets| ==> Sees(caller, targets[i], s.collections) then
      s.(links := LinksWithout(s.links, r) + LinksTo(r, targets), jobs := s.jobs - {id})
    else s.(jobs := s.jobs - {id})
  }

  lemma ClearLinksAlone(s: State, id: JobId, caller: Caller, r: ReceiptId, targets: seq<CollectionId>)
    requires id in s.jobs && s.jobs[id] == ClearLinks(caller, r, targets)
    requires SeesReceipt(caller, r, s.receipts)
    requires forall i :: 0 <= i < |targets| ==> Sees(caller, targets[i], s.collections)
    ensures var n := |targets| + 2;
            Run(s, Gos(id, n), true) && After(s, Gos(id, n), true) == Replaced(s, id, caller, r, targets)
  {
    hide Run, After, Gos, LinksWithout;
    var t := Apply(s, Go(id), true);
    LinkAllAlone(t, id, caller, r, targets);
    assert t.jobs - {id} == s.jobs - {id};
    OneMoreGo(s, id, |targets| + 1, Replaced(s, id, caller, r, targets));
  }

  lemma {:induction false} CheckTargetsAlone(
    s: State, id: JobId, caller: Caller, r: ReceiptId, targets: seq<CollectionId>, k: nat) returns (n: nat)
    requires id in s.jobs && s.jobs[id] == CheckTargets(caller, r, targets, k) && k <= |targets|
    requires SeesReceipt(caller, r, s.receipts)
    requires forall i :: 0 <= i < k ==> Sees(caller, targets[i], s.collections)
    ensures Run(s, Gos(id, n), true) && After(s, Gos(id, n), true) == Replaced(s, id, caller, r, targets)
    decreases |targets| - k
  {
    hide Run, After, Gos, LinksWithout, LinksTo, SeesReceipt;
    var t := Apply(s, Go(id), true);
    assert Replaced(t, id, caller, r, targets) == Replaced(s, id, caller, r, targets) by {
      assert t.jobs - {id} == s.jobs - {id};
    }
    if k == |targets| {
      ClearLinksAlone(t, id, caller, r, targets);
      n := |targets| + 2;
    } else if Sees(caller, targets[k], s.collections) {
      n := CheckTargetsAlone(t, id, caller, r, targets, k + 1);
    } else {
      NoGo(t, id);
      n := 0;
    }
    OneMoreGo(s, id, n, Replaced(s, id, caller, r, targets));
    n := n + 1;
  }

  /** `set_receipt_collections`, from its first check to its last insert. */
  lemma SetCollectionsAlone(s: State, id: JobId, caller: Caller, r: ReceiptId, targets: seq<CollectionId>) returns (n: nat)
    requires id in s.jobs && s.jobs[id] == CheckOwnReceipt(caller, r, targets)
    ensures Run(s, Gos(id, n), true) && After(s, Gos(id, n), true) == Replaced(s, id, caller, r, targets)
  {
    hide Run, After, Gos, LinksWithout, LinksTo, Sees;
    var t := Apply(s, Go(id), true);
    assert t.jobs - {id} == s.jobs - {id};
    if SeesReceipt(caller, r, s.receipts) {
      n := CheckTargetsAlone(t, id, caller, r, targets, 0);
      assert Replaced(t, id, caller, r, targets) == Replaced(s, id, caller, r, targets);
    } else {
      NoGo(t, id);
      n := 0;
    }
    OneMoreGo(s, id, n, Replaced(s, id, caller, r, targets));
    n := n + 1;
  }

  /** `activate`, from its owner check to its last update; the index never refuses. */
  lemma ActivateAlone(s: State, id: JobId, user: UserId, c: CollectionId) returns (n: nat)
    requires id in s.jobs && s.jobs[id] == CheckOwner(user, c)
    ensures Run(s, Gos(id, n), true)
    ensures After(s, Gos(id, n), true)
         == s.(collections := Activated(s.collections, user, c), jobs := s.jobs - {id})
  {
    hide Run, After, Gos;
    var end := s.(collections := Activated(s.collections, user, c), jobs := s.jobs - {id});
    var t := Apply(s, Go(id), true);
    if Sees(Owner(user), c, s.collections) {
      n := SetAlone(t, id, user, c);
      assert t.jobs - {id} == s.jobs - {id};
    } else {
      NoGo(t, id);
      n := 0;
    }
    OneMoreGo(s, id, n, end);
    n := n + 1;
  }

  lemma SetAlone(s: State, id: JobId, user: UserId, c: CollectionId) returns (n: nat)
    requires id in s.jobs && s.jobs[id] == ClearThenSet(user, c) && Sees(Owner(user), c, s.collections)
    ensures Run(s, Gos(id, n), true)
    ensures After(s, Gos(id, n), true)
         == s.(collections := Activated(s.collections, user, c), jobs := s.jobs - {id})
  {
    hide Run, After, Gos;
    var t := Apply(s, Go(id), true);
    var u := Apply(t, Go(id), true);
    DeactivatedIsAllowed(s.collections, user, c);
    assert u.collections == Activated(s.collections, user, c);
    assert u.jobs == s.jobs - {id};
    NoGo(u, id);
    OneMoreGo(t, id, 0, u);
    OneMoreGo(s, id, 1, u);
    n := 2;
  }

  /** `activate` by a caller who sees all rows is one statement, which the index may refuse. */
  lemma SeeAllActivateAlone(s: State, id: JobId, c: CollectionId)
    requires id in s.jobs && s.jobs[id] == SetActive(SeesAll, c)
    ensures Run(s, Gos(id, 1), true)
    ensures After(s, Gos(id, 1), true)
         == s.(collections := if c in s.collections && IndexAllows(s.collections, c, s.collections[c].owner)
                              then WithActive(s.collections, c, true) else s.collections,
               jobs := s.jobs - {id})
  {
    var t := Apply(s, Go(id), true);
    hide Run, After, Gos;
    NoGo(t, id);
    OneMoreGo(s, id, 0, t);
  }

  /** `assign`: linked if the caller sees the collection and the receipt. */
  lemma AssignAlone(s: State, id: JobId, caller: Caller, c: CollectionId, r: ReceiptId) returns (n: nat)
    requires id in s.jobs && s.jobs[id] == CheckCollection(caller, c, r)
    ensures Run(s, Gos(id, n), true)
    ensures After(s, Gos(id, n), true)
         == s.(links := if Sees(caller, c, s.collections) && SeesReceipt(caller, r, s.receipts)
                        then s.links + {(r, c)} else s.links,
               jobs := s.jobs - {id})
  {
    hide Run, After, Gos, LinksTo;
    var t := Apply(s, Go(id), true);
    n := 0;
    if Sees(caller, c, s.collections) {
      n := AssignReceiptAlone(t, id, caller, c, r);
      assert t.jobs - {id} == s.jobs - {id};
      OneMoreGo(s, id, n, After(t, Gos(id, n), true));
    } else {
      NoGo(t, id);
      OneMoreGo(s, id, 0, t);
    }
    n := n + 1;
  }

  lemma AssignReceiptAlone(s: State, id: JobId, caller: Caller, c: CollectionId, r: ReceiptId) returns (n: nat)
    requires id in s.jobs && s.jobs[id] == CheckReceipt(caller, c, r) && c in s.collections
    ensures Run(s, Gos(id, n), true)
    ensures After(s, Gos(id, n), true)
         == s.(links := if SeesReceipt(caller, r, s.receipts) then s.links + {(r, c)} else s.links, jobs := s.jobs - {id})
  {
    hide Run, After, Gos;
    var t := Apply(s, Go(id), true);
    n := 0;
    if SeesReceipt(caller, r, s.receipts) {
      LinkAllAlone(t, id, caller, r, [c]);
      assert LinksTo(r, [c]) == {(r, c)};
      assert t.jobs - {id} == s.jobs - {id};
      n := 2;
      OneMoreGo(s, id, n, After(t, Gos(id, n), true));
    } else {
      NoGo(t, id);
      OneMoreGo(s, id, 0, t);
    }
    n := n + 1;
  }

  /** `unassign`: unlinked if the caller sees the collection. */
  lemma UnassignAlone(s: State, id: JobId, caller: Caller, c: CollectionId, r: ReceiptId) returns (n: nat)
    requires id in s.jobs && s.jobs[id] == CheckBeforeUnlink(caller, c, r)
    ensures Run(s, Gos(id, n), true)
    ensures After(s, Gos(id, n), true)
         == s.(links := if Sees(caller, c, s.collections) then s.links - {(r, c)} else s.links, jobs := s.jobs - {id})
  {
    hide Run, After, Gos;
    var t := Apply(s, Go(id), true);
    if Sees(caller, c, s.collections) {
      var u := Apply(t, Go(id), true);
      assert u.jobs == s.jobs - {id};
      NoGo(u, id);
      OneMoreGo(t, id, 0, u);
      OneMoreGo(s, id, 1, u);
      n := 2;
    } else {
      NoGo(t, id);
      OneMoreGo(s, id, 0, t);
      n := 1;
    }
  }

  lemma FirstStep(s: State, step: Step, rest: seq<Step>)
    requires Enabled(s, step) && Run(Apply(s, step, true), rest, true)
    ensures Run(s, [step] + rest, true)
    ensures After(s, [step] + rest, true) == After(Apply(s, step, true), rest, true)
  {
    hide Apply, Enabled;
    assert ([step] + rest)[1..] == rest;
  }

  /** `create`, of an active collection after its owner's others were deactivated; the index
      does not refuse. */
  lemma CreateAlone(s: State, id: JobId, user: UserId, active: bool, c: CollectionId) returns (steps: seq<Step>)
    requires id in s.jobs && s.jobs[id] == (if active then ClearThenInsert(user) else InsertNew(user, false))
    requires c >= s.nextCollection
    ensures Run(s, steps, true)
    ensures After(s, steps, true)
         == s.(collections := Created(s.collections, user, active, c), nextCollection := c + 1, jobs := s.jobs - {id})
  {
    hide Run, After, Gos;
    var insert := Insert(id, c);
    var t := if active then Apply(s, Go(id), true) else s;
    DeactivatedIsAllowed(s.collections, user, c);
    var u := Apply(t, insert, true);
    assert u.jobs == s.jobs - {id};
    NoGo(u, id);
    FirstStep(t, insert, Gos(id, 0));
    steps := [insert] + Gos(id, 0);
    if active {
      FirstStep(s, Go(id), steps);
      steps := [Go(id)] + steps;
    }
  }

  /** Auto-capture: the receipt joins the active collection found, if it still exists. */
  lemma CaptureAlone(s: State, id: JobId, user: UserId, r: ReceiptId, found: Option<CollectionId>)
    returns (steps: seq<Step>)
    requires id in s.jobs && s.jobs[id] == ReadActive(user, r) && IsActiveOf(s.collections, user, found)
    ensures Run(s, steps, true)
    ensures After(s, steps, true)
         == s.(links := if found.Some? && r in s.receipts then s.links + {(r, found.value)} else s.links,
               jobs := s.jobs - {id})
  {
    hide Run, After, Gos;
    var capture := Capture(id, found);
    var t := Apply(s, capture, true);
    var n := 0;
    if found.Some? {
      assert t.jobs - {id} == s.jobs - {id};
      if r in s.receipts {
        LinkAllAlone(t, id, Owner(user), r, [found.value]);
        assert LinksTo(r, [found.value]) == {(r, found.value)};
        n := 2;
      } else {
        var u := Apply(t, Go(id), true);
        NoGo(u, id);
        OneMoreGo(t, id, 0, u);
        n := 1;
      }
    } else {
      NoGo(t, id);
    }
    steps := [capture] + Gos(id, n);
    FirstStep(s, capture, Gos(id, n));
  }
}
