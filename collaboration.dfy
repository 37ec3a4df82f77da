// Collaborative signals: a primary author and co-authors split a signal's
// contribution 10000 basis points between them; every co-author must approve
// before the collaboration is Approved, and fees and returns are shared out by
// contribution.

module Collaboration {
  import opened Base
  import opened RegistryTypes

  const FULL_CONTRIBUTION: nat := 10000

  datatype CollaborationStatus = PendingApproval | Approved | Rejected

  datatype Author = Author(address: Address, contributionPct: nat, hasApproved: bool)

  /** The sum of a percentage list. */
  function Total(pcts: seq<nat>): nat
  {
    if |pcts| == 0 then 0 else Total(pcts[..|pcts| - 1]) + pcts[|pcts| - 1]
  }

  /** The sum of the authors' contributions. */
  function PctTotal(authors: seq<Author>): nat
  {
    if |authors| == 0 then 0 else PctTotal(authors[..|authors| - 1]) + authors[|authors| - 1].contributionPct
  }

  /** How many authors have approved. */
  function ApprovedCount(authors: seq<Author>): (n: nat)
    ensures n <= |authors|
  {
    if |authors| == 0 then 0
    else ApprovedCount(authors[..|authors| - 1]) + if authors[|authors| - 1].hasApproved then 1 else 0
  }

  predicate AllApproved(authors: seq<Author>)
  {
    forall i :: 0 <= i < |authors| ==> authors[i].hasApproved
  }

  /** The author list a creation stores: the primary author first, approved, then
      each co-author in order, unapproved, each with their own percentage. */
  function NewAuthors(primary: Address, coAuthors: seq<Address>, pcts: seq<nat>): (r: Result<seq<Author>, AdminError>)
    ensures r.Err? <==> Total(pcts) != FULL_CONTRIBUTION || |coAuthors| + 1 != |pcts|
    ensures r.Err? ==> r.error == InvalidParameter
    ensures r.Ok? ==> |r.value| == |coAuthors| + 1 && r.value[0] == Author(primary, pcts[0], true)
    ensures r.Ok? ==> forall i :: 1 <= i < |r.value| ==> r.value[i] == Author(coAuthors[i - 1], pcts[i], false)
  {
    if Total(pcts) != FULL_CONTRIBUTION then Err(InvalidParameter)
    else if |coAuthors| + 1 != |pcts| then Err(InvalidParameter)
    else Ok(seq(|pcts|, i requires 0 <= i < |pcts| => Author(if i == 0 then primary else coAuthors[i - 1], pcts[i], i == 0)))
  }

  /** Authors carrying the percentages `pcts`, in order, contribute their total. */
  lemma {:induction false} PctTotalOf(authors: seq<Author>, pcts: seq<nat>)
    requires |authors| == |pcts| && forall i :: 0 <= i < |pcts| ==> authors[i].contributionPct == pcts[i]
    ensures PctTotal(authors) == Total(pcts)
  {
    if |pcts| > 0 {
      PctTotalOf(authors[..|authors| - 1], pcts[..|pcts| - 1]);
    }
  }

  /** Only the primary author of a fresh collaboration has approved. */
  lemma {:induction false} PrimaryOnly(authors: seq<Author>)
    requires |authors| >= 1 && authors[0].hasApproved
    requires forall i :: 1 <= i < |authors| ==> !authors[i].hasApproved
    ensures ApprovedCount(authors) == 1
  {
    if |authors| > 1 {
      PrimaryOnly(authors[..|authors| - 1]);
    }
  }

  /** A created collaboration's contributions total exactly 10000; only the primary
      author has approved, so it is Approved at once exactly when there are no
      co-authors. */
  lemma CreatedMeaning(primary: Address, coAuthors: seq<Address>, pcts: seq<nat>)
    requires NewAuthors(primary, coAuthors, pcts).Ok?
    ensures var authors := NewAuthors(primary, coAuthors, pcts).value;
            && PctTotal(authors) == FULL_CONTRIBUTION
            && ApprovedCount(authors) == 1
            && (GetCollaborationStatus(authors) == Approved <==> coAuthors == [])
  {
    var authors := NewAuthors(primary, coAuthors, pcts).value;
    PctTotalOf(authors, pcts);
    PrimaryOnly(authors);
    if coAuthors != [] {
      assert !authors[1].hasApproved;
    }
  }

  /** `get_collaboration_status`: Approved once every author has approved; never Rejected. */
  function GetCollaborationStatus(authors: seq<Author>): (s: CollaborationStatus)
    ensures s == Approved <==> AllApproved(authors)
    ensures s != Rejected
  {
    if AllApproved(authors) then Approved else PendingApproval
  }

  /** All authors have approved exactly when the approval count is the author count. */
  lemma {:induction false} AllApprovedCount(authors: seq<Author>)
    ensures AllApproved(authors) <==> ApprovedCount(authors) == |authors|
  {
    if |authors| > 0 {
      var init := authors[..|authors| - 1];
      AllApprovedCount(init);
      if AllApproved(authors) {
        assert AllApproved(init);
      } else if ApprovedCount(authors) == |authors| {
        assert ApprovedCount(init) == |init| && authors[|authors| - 1].hasApproved;
        forall i | 0 <= i < |authors| ensures authors[i].hasApproved {
          if i < |init| {
            assert init[i] == authors[i];
          }
        }
      }
    }
  }

  /** The position of the first author with this address. */
  function FindAuthor(authors: seq<Author>, who: Address): (r: Option<nat>)
    ensures r.Some? ==> r.value < |authors| && authors[r.value].address == who
    ensures r.Some? ==> forall k :: 0 <= k < r.value ==> authors[k].address != who
    ensures r.None? ==> forall k :: 0 <= k < |authors| ==> authors[k].address != who
  {
    if |authors| == 0 then None
    else if authors[0].address == who then Some(0)
    else match FindAuthor(authors[1..], who)
      case None => None
      case Some(k) => Some(k + 1)
  }

  /** The approval of one author: the first entry with the approver's address. */
  function Approve(authors: seq<Author>, approver: Address): (r: Result<seq<Author>, AdminError>)
    ensures r.Ok? ==> |r.value| == |authors|
  {
    match FindAuthor(authors, approver)
    case None => Err(Unauthorized)
    case Some(i) =>
      if authors[i].hasApproved then Err(InvalidParameter)
      else Ok(authors[i := authors[i].(hasApproved := true)])
  }

  /** Flipping one unapproved author raises the approval count by one. */
  lemma {:induction false} FlipCount(authors: seq<Author>, i: nat)
    requires i < |authors| && !authors[i].hasApproved
    ensures ApprovedCount(authors[i := authors[i].(hasApproved := true)]) == ApprovedCount(authors) + 1
  {
    var after := authors[i := authors[i].(hasApproved := true)];
    var n := |authors| - 1;
    assert after[..n] == if i < n then authors[..n][i := authors[i].(hasApproved := true)] else authors[..n];
    if i < n {
      FlipCount(authors[..n], i);
    }
  }

  /** Approval fails for a non-author with Unauthorized and for a repeat with
      InvalidParameter; otherwise exactly the approver's first entry becomes
      approved, nothing else changes, and one more author has approved. */
  lemma ApproveMeaning(authors: seq<Author>, approver: Address)
    ensures Approve(authors, approver) == Err(Unauthorized) <==> forall k :: 0 <= k < |authors| ==> authors[k].address != approver
    ensures Approve(authors, approver).Ok? ==>
              exists i :: 0 <= i < |authors| && authors[i].address == approver && !authors[i].hasApproved
                          && (forall k :: 0 <= k < i ==> authors[k].address != approver)
                          && Approve(authors, approver).value == authors[i := authors[i].(hasApproved := true)]
    ensures Approve(authors, approver).Ok? ==> ApprovedCount(Approve(authors, approver).value) == ApprovedCount(authors) + 1
    ensures AllApproved(authors) ==> Approve(authors, approver).Err?
  {
    match FindAuthor(authors, approver)
    case None =>
    case Some(i) =>
      if !authors[i].hasApproved {
        FlipCount(authors, i);
      }
  }

  /** The approvals in `approvers`, made one after another; the first failure stops them. */
  function ApproveInTurn(authors: seq<Author>, approvers: seq<Address>): (r: Result<seq<Author>, AdminError>)
    ensures r.Ok? ==> |r.value| == |authors|
  {
    if approvers == [] then Ok(authors)
    else match ApproveInTurn(authors, approvers[..|approvers| - 1])
      case Err(e) => Err(e)
      case Ok(a) => Approve(a, approvers[|approvers| - 1])
  }

  /** In a fresh collaboration whose authors are distinct, the co-authors can
      approve in order: after the first `i` of them exactly the primary author and
      those `i` have approved, and everyone has approved exactly when the last
      co-author has. */
  lemma ApprovalsInTurn(primary: Address, coAuthors: seq<Address>, pcts: seq<nat>, i: nat)
    requires NewAuthors(primary, coAuthors, pcts).Ok?
    requires NoDup([primary] + coAuthors)
    requires i <= |coAuthors|
    ensures var authors := NewAuthors(primary, coAuthors, pcts).value;
            var r := ApproveInTurn(authors, coAuthors[..i]);
            && r.Ok?
            && (forall k :: 0 <= k < |authors| ==> r.value[k] == authors[k].(hasApproved := k <= i))
            && (AllApproved(r.value) <==> i == |coAuthors|)
  {
    ApprovedAfter(primary, coAuthors, pcts, i);
    var authors := NewAuthors(primary, coAuthors, pcts).value;
    var r := ApproveInTurn(authors, coAuthors[..i]).value;
    if i < |coAuthors| {
      assert !r[i + 1].hasApproved;
    }
  }

  /** After the first `i` co-authors have approved in order, exactly the primary
      author and those `i` have approved. */
  lemma {:induction false} ApprovedAfter(primary: Address, coAuthors: seq<Address>, pcts: seq<nat>, i: nat)
    requires NewAuthors(primary, coAuthors, pcts).Ok?
    requires NoDup([primary] + coAuthors)
    requires i <= |coAuthors|
    ensures var authors := NewAuthors(primary, coAuthors, pcts).value;
            var r := ApproveInTurn(authors, coAuthors[..i]);
            && r.Ok?
            && (forall k :: 0 <= k < |authors| ==> r.value[k] == authors[k].(hasApproved := k <= i))
  {
    var authors := NewAuthors(primary, coAuthors, pcts).value;
    var all := [primary] + coAuthors;
    if i > 0 {
      ApprovedAfter(primary, coAuthors, pcts, i - 1);
      assert coAuthors[..i][..i - 1] == coAuthors[..i - 1];
      var prev := ApproveInTurn(authors, coAuthors[..i - 1]).value;
      var who := coAuthors[i - 1];
      assert forall k :: 0 <= k < |prev| ==> prev[k].address == all[k];
      assert prev[i].address == who && all[i] == who;
      forall k | 0 <= k < i
        ensures prev[k].address != who
      {
        assert all[k] != all[i];
      }
      ApproveFirst(prev, who, i);
    } else {
      assert coAuthors[..0] == [];
    }
  }

  /** The approver's first entry, if not yet approved, is the one approval flips. */
  lemma ApproveFirst(authors: seq<Author>, who: Address, i: nat)
    requires i < |authors| && authors[i].address == who && !authors[i].hasApproved
    requires forall k :: 0 <= k < i ==> authors[k].address != who
    ensures Approve(authors, who) == Ok(authors[i := authors[i].(hasApproved := true)])
  {
    assert FindAuthor(authors, who) == Some(i);
  }

  /** The stored collaborations, by signal id. */
  class CollaborationStore {
    var collaborations: map<nat, seq<Author>>

    constructor ()
      ensures collaborations == map[]
    {
      collaborations := map[];
    }

    /** `is_collaborative_signal`. */
    function IsCollaborative(signalId: nat): (b: bool)
      reads this
      ensures b <==> signalId in collaborations
    {
      signalId in collaborations
    }

    /** `create_collaborative_signal`. */
    method CreateCollaborativeSignal(signalId: nat, primary: Address, coAuthors: seq<Address>, pcts: seq<nat>)
      returns (r: Result<seq<Author>, AdminError>)
      modifies this
      ensures r == NewAuthors(primary, coAuthors, pcts)
      ensures r.Ok? ==> collaborations == old(collaborations)[signalId := r.value]
      ensures r.Err? ==> collaborations == old(collaborations)
    {
      if Total(pcts) != FULL_CONTRIBUTION {
        return Err(InvalidParameter);
      }
      if |coAuthors| + 1 != |pcts| {
        return Err(InvalidParameter);
      }
      var authors := [Author(primary, pcts[0], true)];
      var i := 0;
      while i < |coAuthors|
        invariant 0 <= i <= |coAuthors|
        invariant |authors| == i + 1 && authors[0] == Author(primary, pcts[0], true)
        invariant forall k :: 1 <= k <= i ==> authors[k] == Author(coAuthors[k - 1], pcts[k], false)
      {
        authors := authors + [Author(coAuthors[i], pcts[i + 1], false)];
        i := i + 1;
      }
      assert authors == NewAuthors(primary, coAuthors, pcts).value;
      collaborations := collaborations[signalId := authors];
      r := Ok(authors);
    }

    /** `approve_collaborative_signal`: whether every author has now approved. */
    method ApproveCollaborativeSignal(signalId: nat, approver: Address) returns (r: Result<bool, AdminError>)
      modifies this
      ensures signalId !in old(collaborations) ==> r == Err(InvalidParameter) && collaborations == old(collaborations)
      ensures signalId in old(collaborations) && Approve(old(collaborations)[signalId], approver).Err? ==>
                r == Err(Approve(old(collaborations)[signalId], approver).error) && collaborations == old(collaborations)
      ensures signalId in old(collaborations) && Approve(old(collaborations)[signalId], approver).Ok? ==>
                var after := Approve(old(collaborations)[signalId], approver).value;
                r == Ok(AllApproved(after)) && collaborations == old(collaborations)[signalId := after]
    {
      if signalId !in collaborations {
        return Err(InvalidParameter);
      }
      var original := collaborations[signalId];
      var authors := original;
      var found := false;
      var i := 0;
      while i < |authors|
        invariant 0 <= i <= |authors|
        invariant authors == original
        invariant forall k :: 0 <= k < i ==> authors[k].address != approver
      {
        var author := authors[i];
        if author.address == approver {
          if author.hasApproved {
            return Err(InvalidParameter);
          }
          authors := authors[i := author.(hasApproved := true)];
          found := true;
          break;
        }
        i := i + 1;
      }
      if !found {
        return Err(Unauthorized);
      }
      collaborations := collaborations[signalId := authors];
      r := Ok(AllApproved(authors));
    }
  }

  /** The sum of each author's share of `total`. */
  function ShareTotal(authors: seq<Author>, total: int): int
  {
    if |authors| == 0 then 0
    else ShareTotal(authors[..|authors| - 1], total) + Share(total, authors[|authors| - 1].contributionPct)
  }

  /** For a non-negative total the shares, each rounded down, add up to at most what
      the contributions allow and lose less than one unit per author. */
  lemma {:induction false} ShareTotalBounds(authors: seq<Author>, total: int)
    requires total >= 0
    ensures ShareTotal(authors, total) * 10000 <= total * PctTotal(authors)
    ensures total * PctTotal(authors) < (ShareTotal(authors, total) + |authors|) * 10000 || authors == []
  {
    if |authors| > 0 {
      var init := authors[..|authors| - 1];
      var p := authors[|authors| - 1].contributionPct;
      ShareTotalBounds(init, total);
      assert total * p >= 0;
      QuotNonNegative(total * p, 10000);
      var q := Share(total, p);
      assert q * 10000 <= total * p < (q + 1) * 10000;
      assert total * PctTotal(authors) == total * PctTotal(init) + total * p;
    }
  }

  /** With contributions totalling 10000, the shares of a non-negative total add up
      to at most the total, and to more than the total minus one per author. */
  lemma SharesWithinTotal(authors: seq<Author>, total: int)
    requires total >= 0 && PctTotal(authors) == FULL_CONTRIBUTION
    ensures total - |authors| < ShareTotal(authors, total) <= total
  {
    ShareTotalBounds(authors, total);
  }

  /** `distribute_collaborative_rewards`: each author's share of the fees and of the
      return, in author order. */
  method DistributeCollaborativeRewards(authors: seq<Author>, totalFees: int, totalRoi: int)
    returns (distributions: seq<(Address, int, int)>)
    ensures |distributions| == |authors|
    ensures forall i :: 0 <= i < |authors| ==>
              distributions[i] == (authors[i].address, Share(totalFees, authors[i].contributionPct),
                                   Share(totalRoi, authors[i].contributionPct))
  {
    distributions := [];
    var i := 0;
    while i < |authors|
      invariant 0 <= i <= |authors|
      invariant |distributions| == i
      invariant forall k :: 0 <= k < i ==>
                  distributions[k] == (authors[k].address, Share(totalFees, authors[k].contributionPct),
                                       Share(totalRoi, authors[k].contributionPct))
    {
      var author := authors[i];
      var feeShare := Quot(totalFees * author.contributionPct, 10000);
      var roiShare := Quot(totalRoi * author.contributionPct, 10000);
      distributions := distributions + [(author.address, feeShare, roiShare)];
      i := i + 1;
    }
  }

  /** `split_provider_fee`: each author's position and share of the provider fee. */
  method SplitProviderFee(authors: seq<Author>, providerFee: int) returns (splits: seq<(nat, int)>)
    ensures |splits| == |authors|
    ensures forall i :: 0 <= i < |authors| ==> splits[i] == (i, Share(providerFee, authors[i].contributionPct))
  {
    splits := [];
    var i := 0;
    while i < |authors|
      invariant 0 <= i <= |authors|
      invariant |splits| == i
      invariant forall k :: 0 <= k < i ==> splits[k] == (k, Share(providerFee, authors[k].contributionPct))
    {
      var authorShare := Quot(providerFee * authors[i].contributionPct, 10000);
      splits := splits + [(i, authorShare)];
      i := i + 1;
    }
  }

  /** The collaboration tests: 60/40 creation, a wrong total, a missing
      percentage, and a 70/30 split of 1000. */
  lemma CollaborationExamples(a: Address, b: Address)
    requires a != b
    ensures NewAuthors(a, [b], [6000, 4000]) == Ok([Author(a, 6000, true), Author(b, 4000, false)])
    ensures NewAuthors(a, [b], [6000, 3000]) == Err(InvalidParameter)
    ensures NewAuthors(a, [b], [10000]) == Err(InvalidParameter)
    ensures Approve([Author(a, 6000, true), Author(b, 4000, false)], b) == Ok([Author(a, 6000, true), Author(b, 4000, true)])
    ensures Approve([Author(a, 6000, true), Author(b, 4000, false)], a) == Err(InvalidParameter)
    ensures Share(1000, 7000) == 700 && Share(1000, 3000) == 300
  {
    var ok := NewAuthors(a, [b], [6000, 4000]);
    assert Total([6000, 4000]) == 10000 by {
      assert [6000, 4000][..1] == [6000];
    }
    assert ok.value == [Author(a, 6000, true), Author(b, 4000, false)];
    assert Total([6000, 3000]) == 9000 by {
      assert [6000, 3000][..1] == [6000];
    }
    assert Total([10000]) == 10000 by {
      assert [10000][..0] == [];
    }
    var pending := [Author(a, 6000, true), Author(b, 4000, false)];
    assert pending[1..] == [Author(b, 4000, false)];
    assert FindAuthor(pending[1..], b) == Some(0);
    assert FindAuthor(pending, b) == Some(1);
    assert pending[1 := pending[1].(hasApproved := true)] == [Author(a, 6000, true), Author(b, 4000, true)];
  }
}
