/**
 Rarest-first selection (piece_picker.cpp): the availability histogram and `pick_piece`.

 The random engine is a stream `rng`; the k-th draw from n choices is `rng(k) % n`, so every sequence of
 random choices is some stream. Sets of indices stand for bitfields; the class reads packed ones.
 */
module Picker {
  import opened Bytes
  import opened Bitfields

  function WrapAdd(v: uint32): uint32 {
    ToUint32(v + 1)
  }

  /** The histogram after counting every piece of `pieces` once. */
  function Added(h: seq<uint32>, pieces: set<nat>): (r: seq<uint32>)
    ensures |r| == |h|
  {
    seq(|h|, i requires 0 <= i < |h| => if i in pieces then WrapAdd(h[i]) else h[i])
  }

  lemma AddedAt(h: seq<uint32>, pieces: set<nat>)
    ensures forall i | 0 <= i < |h| :: Added(h, pieces)[i] == if i in pieces then WrapAdd(h[i]) else h[i]
  {
  }

  /** The histogram after removing every piece of `pieces` once; a cell at zero stays. */
  function Removed(h: seq<uint32>, pieces: set<nat>): (r: seq<uint32>)
    ensures |r| == |h|
  {
    seq(|h|, i requires 0 <= i < |h| => if i in pieces && h[i] > 0 then h[i] - 1 else h[i])
  }

  lemma RemovedAt(h: seq<uint32>, pieces: set<nat>, i: nat)
    requires i < |h|
    ensures Removed(h, pieces)[i] == if i in pieces && h[i] > 0 then h[i] - 1 else h[i]
  {
  }

  lemma NoWrap(v: uint32)
    ensures WrapAdd(v) == if v < UINT32_MAX then v + 1 else 0
  {
  }

  /** Pieces below `n` the peer has and `ours` has not, ascending. */
  function Candidates(n: nat, peer: set<nat>, ours: set<nat>): (c: seq<nat>)
    ensures forall k | 0 <= k < |c| :: c[k] < n && c[k] in peer && c[k] !in ours
    ensures forall i: nat | i < n && i in peer && i !in ours :: i in c
  {
    if n == 0 then [] else Candidates(n - 1, peer, ours) + if n - 1 in peer && n - 1 !in ours then [n - 1] else []
  }

  /** The smallest availability among the candidates. */
  function Least(h: seq<uint32>, candidates: seq<nat>): (v: uint32)
    requires forall k | 0 <= k < |candidates| :: candidates[k] < |h|
    ensures forall k | 0 <= k < |candidates| :: v <= h[candidates[k]]
    ensures candidates == [] ==> v == UINT32_MAX
    ensures candidates != [] ==> exists k :: 0 <= k < |candidates| && h[candidates[k]] == v
  {
    if candidates == [] then UINT32_MAX
    else
      var n := |candidates| - 1;
      var rest := Least(h, candidates[..n]);
      if h[candidates[n]] < rest then h[candidates[n]]
      else
        assert candidates[..n] == [] ==> h[candidates[n]] == rest;
        rest
  }

  /** The candidates whose availability is `v`, in order. */
  function WithAvailability(h: seq<uint32>, candidates: seq<nat>, v: uint32): (c: seq<nat>)
    requires forall k | 0 <= k < |candidates| :: candidates[k] < |h|
    ensures forall k | 0 <= k < |c| :: c[k] in candidates && h[c[k]] == v
    ensures forall k | 0 <= k < |candidates| :: h[candidates[k]] == v ==> candidates[k] in c
  {
    if candidates == [] then []
    else
      var n := |candidates| - 1;
      WithAvailability(h, candidates[..n], v) + if h[candidates[n]] == v then [candidates[n]] else []
  }

  /** `pick_piece`, given the value drawn. */
  function Pick(h: seq<uint32>, peer: set<nat>, ours: set<nat>, draw: nat): Option<nat> {
    var candidates := Candidates(|h|, peer, ours);
    if candidates == [] then None
    else if |ours| < 4 then Some(candidates[draw % |candidates|])
    else
      var rarest := WithAvailability(h, candidates, Least(h, candidates));
      if rarest == [] then None else Some(rarest[draw % |rarest|])
  }

  /** A piece is picked exactly when one is on offer, and it is one the peer has and we lack. */
  lemma PickIffCandidate(h: seq<uint32>, peer: set<nat>, ours: set<nat>, draw: nat)
    ensures Pick(h, peer, ours, draw).Some? <==> exists i: nat :: i < |h| && i in peer && i !in ours
    ensures Pick(h, peer, ours, draw).Some? ==>
              var i := Pick(h, peer, ours, draw).value; i < |h| && i in peer && i !in ours
  {
    var candidates := Candidates(|h|, peer, ours);
    if candidates != [] {
      assert candidates[0] < |h| && candidates[0] in peer && candidates[0] !in ours;
      var rarest := WithAvailability(h, candidates, Least(h, candidates));
      assert rarest != [];
    }
  }

  /** With four or more pieces excluded, no piece on offer is rarer than the one picked. */
  lemma PickIsRarest(h: seq<uint32>, peer: set<nat>, ours: set<nat>, draw: nat, other: nat)
    requires |ours| >= 4 && Pick(h, peer, ours, draw).Some?
    requires other < |h| && other in peer && other !in ours
    ensures h[Pick(h, peer, ours, draw).value] <= h[other]
  {
    var candidates := Candidates(|h|, peer, ours);
    assert other in candidates;
    PickIffCandidate(h, peer, ours, draw);
  }

  /** The values a draw chooses from: every candidate while bootstrapping, the rarest ones afterwards. */
  function Pool(h: seq<uint32>, peer: set<nat>, ours: set<nat>): (c: seq<nat>) {
    var candidates := Candidates(|h|, peer, ours);
    if |ours| < 4 then candidates else WithAvailability(h, candidates, Least(h, candidates))
  }

  lemma PoolIs(h: seq<uint32>, peer: set<nat>, ours: set<nat>, i: nat)
    requires i < |h| && i in peer && i !in ours
    requires |ours| >= 4 ==> forall other: nat | other < |h| && other in peer && other !in ours :: h[i] <= h[other]
    ensures i in Pool(h, peer, ours)
  {
    var candidates := Candidates(|h|, peer, ours);
    assert i in candidates;
    if |ours| >= 4 {
      var k :| 0 <= k < |candidates| && h[candidates[k]] == Least(h, candidates);
      assert h[i] == Least(h, candidates);
    }
  }

  /** Every candidate can be drawn while bootstrapping, and every rarest one afterwards. */
  lemma EveryChoicePossible(h: seq<uint32>, peer: set<nat>, ours: set<nat>, i: nat) returns (draw: nat)
    requires i < |h| && i in peer && i !in ours
    requires |ours| >= 4 ==> forall other: nat | other < |h| && other in peer && other !in ours :: h[i] <= h[other]
    ensures Pick(h, peer, ours, draw) == Some(i)
  {
    hide WithAvailability, Least, Candidates;
    PoolIs(h, peer, ours, i);
    var pool := Pool(h, peer, ours);
    draw :| 0 <= draw < |pool| && pool[draw] == i;
    SmallMod(draw, |pool|);
  }

  lemma SmallMod(a: nat, n: nat)
    requires a < n
    ensures a % n == a
  {
  }

  /** What a draw chooses from: every piece we lack while bootstrapping, none rarer than another afterwards. */
  ghost function OnOffer(h: seq<uint32>, peer: set<nat>, ours: set<nat>): set<nat> {
    set i: nat | i < |h| && i in peer && i !in ours
      && (|ours| >= 4 ==> forall other: nat | other < |h| && other in peer && other !in ours :: h[i] <= h[other])
  }

  ghost predicate Rising(c: seq<nat>) {
    forall j, k | 0 <= j < k < |c| :: c[j] < c[k]
  }

  lemma {:induction false} CandidatesRise(n: nat, peer: set<nat>, ours: set<nat>)
    ensures Rising(Candidates(n, peer, ours))
  {
    if n > 0 {
      CandidatesRise(n - 1, peer, ours);
    }
  }

  lemma {:induction false} RarestRise(h: seq<uint32>, candidates: seq<nat>, v: uint32)
    requires (forall k | 0 <= k < |candidates| :: candidates[k] < |h|) && Rising(candidates)
    ensures Rising(WithAvailability(h, candidates, v))
  {
    if candidates != [] {
      var n := |candidates| - 1;
      RarestRise(h, candidates[..n], v);
      assert forall i | i in candidates[..n] :: i < candidates[n];
    }
  }

  ghost function Elements(c: seq<nat>): set<nat> {
    set i | i in c
  }

  ghost function Below(offer: set<nat>, k: nat): set<nat> {
    set i | i in offer && i < k
  }

  lemma {:induction false} ElementCount(c: seq<nat>)
    requires Rising(c)
    ensures |Elements(c)| == |c|
  {
    if c != [] {
      var n := |c| - 1;
      ElementCount(c[..n]);
      assert c == c[..n] + [c[n]];
      assert forall i | i in c[..n] :: i < c[n];
      assert Elements(c) == Elements(c[..n]) + {c[n]};
    }
  }

  /** The element at `k` of a rising sequence has `k` below it. */
  lemma RankOf(c: seq<nat>, k: nat)
    requires Rising(c) && k < |c|
    ensures |Below(Elements(c), c[k])| == k
  {
    ElementCount(c[..k]);
    forall i | i in c && i < c[k] ensures i in c[..k] {
      var j :| 0 <= j < |c| && c[j] == i;
      assert j < k;
    }
    assert Below(Elements(c), c[k]) == Elements(c[..k]);
  }

  lemma PoolIsOnOffer(h: seq<uint32>, peer: set<nat>, ours: set<nat>)
    ensures Rising(Pool(h, peer, ours)) && OnOffer(h, peer, ours) == Elements(Pool(h, peer, ours))
  {
    hide Least, WithAvailability, Candidates;
    var candidates, pool := Candidates(|h|, peer, ours), Pool(h, peer, ours);
    CandidatesRise(|h|, peer, ours);
    RarestRise(h, candidates, Least(h, candidates));
    forall i | i in OnOffer(h, peer, ours) ensures i in pool {
      PoolIs(h, peer, ours, i);
    }
    forall i | i in pool ensures i in OnOffer(h, peer, ours) {
      assert i in candidates;
      forall other: nat | |ours| >= 4 && other < |h| && other in peer && other !in ours ensures h[i] <= h[other] {
        assert other in candidates;
      }
    }
  }

  /** Numbering the pieces on offer in ascending order, the draw taken modulo their number is the one picked. */
  lemma PickIsDrawn(h: seq<uint32>, peer: set<nat>, ours: set<nat>, draw: nat)
    requires OnOffer(h, peer, ours) != {}
    ensures
      var offer := OnOffer(h, peer, ours);
      var picked := Pick(h, peer, ours, draw);
      picked.Some? && picked.value in offer && |Below(offer, picked.value)| == draw % |offer|
  {
    var pool := Pool(h, peer, ours);
    PoolIsOnOffer(h, peer, ours);
    ElementCount(pool);
    assert pool != [];
    PickFromPool(h, peer, ours, draw);
    hide Candidates, WithAvailability, Least, OnOffer, Rising, Pick, Pool, Below;
    RankOf(pool, draw % |pool|);
  }

  lemma PickFromPool(h: seq<uint32>, peer: set<nat>, ours: set<nat>, draw: nat)
    requires Pool(h, peer, ours) != []
    ensures Pick(h, peer, ours, draw) == Some(Pool(h, peer, ours)[draw % |Pool(h, peer, ours)|])
  {
    hide Least;
  }

  lemma {:induction false} NoneAtLower(h: seq<uint32>, candidates: seq<nat>, v: uint32)
    requires forall k | 0 <= k < |candidates| :: candidates[k] < |h|
    requires v < Least(h, candidates)
    ensures WithAvailability(h, candidates, v) == []
  {
    if candidates != [] {
      NoneAtLower(h, candidates[..|candidates| - 1], v);
    }
  }

  lemma OneMoreCandidate(h: seq<uint32>, candidates: seq<nat>, k: nat, v: uint32)
    requires forall j | 0 <= j < |candidates| :: candidates[j] < |h|
    requires k < |candidates|
    ensures Least(h, candidates[..k + 1]) == Min(Least(h, candidates[..k]), h[candidates[k]])
    ensures WithAvailability(h, candidates[..k + 1], v)
         == WithAvailability(h, candidates[..k], v) + if h[candidates[k]] == v then [candidates[k]] else []
  {
    assert candidates[..k + 1][..k] == candidates[..k];
  }

  /** One round of the minimum search. */
  lemma RarestStep(h: seq<uint32>, candidates: seq<nat>, k: nat)
    requires forall j | 0 <= j < |candidates| :: candidates[j] < |h|
    requires k < |candidates|
    ensures
      var before, after, avail := candidates[..k], candidates[..k + 1], h[candidates[k]];
      && (avail < Least(h, before) ==>
            Least(h, after) == avail && WithAvailability(h, after, avail) == [candidates[k]])
      && (avail == Least(h, before) ==>
            && Least(h, after) == avail
            && WithAvailability(h, after, avail) == WithAvailability(h, before, avail) + [candidates[k]])
      && (avail > Least(h, before) ==>
            && Least(h, after) == Least(h, before)
            && WithAvailability(h, after, Least(h, before)) == WithAvailability(h, before, Least(h, before)))
  {
    hide Least, WithAvailability;
    var before, avail := candidates[..k], h[candidates[k]];
    if avail < Least(h, before) {
      NoneAtLower(h, before, avail);
      OneMoreCandidate(h, candidates, k, avail);
    } else {
      OneMoreCandidate(h, candidates, k, Least(h, before));
    }
  }

  /** The minimum search of `pick_piece`. */
  method Rarest(h: seq<uint32>, candidates: seq<nat>) returns (rarest: seq<nat>)
    requires forall k | 0 <= k < |candidates| :: candidates[k] < |h|
    ensures rarest == WithAvailability(h, candidates, Least(h, candidates))
  {
    hide WithAvailability, Least;
    var minAvail: uint32 := UINT32_MAX;
    rarest := [];
    StartRarest(h);
    for k := 0 to |candidates|
      invariant minAvail == Least(h, candidates[..k])
      invariant rarest == WithAvailability(h, candidates[..k], minAvail)
    {
      var idx := candidates[k];
      var avail := h[idx];
      RarestStep(h, candidates, k);
      if avail < minAvail {
        minAvail := avail;
        rarest := [idx];
      } else if avail == minAvail {
        rarest := rarest + [idx];
      }
    }
    assert candidates[..|candidates|] == candidates;
  }

  lemma StartRarest(h: seq<uint32>)
    ensures Least(h, []) == UINT32_MAX && WithAvailability(h, [], UINT32_MAX) == []
  {
  }

  class PiecePicker {
    const numPieces: nat
    const rng: nat -> nat
    var histogram: seq<uint32>
    var draws: nat

    ghost predicate Valid()
      reads this
    {
      |histogram| == numPieces
    }

    constructor (numPieces: nat, rng: nat -> nat)
      ensures Valid()
      ensures this.numPieces == numPieces && this.rng == rng && draws == 0
      ensures histogram == seq(numPieces, _ => 0)
    {
      this.numPieces := numPieces;
      this.rng := rng;
      draws := 0;
      histogram := seq(numPieces, _ => 0);
    }

    method AddAvailability(i: nat)
      requires Valid()
      modifies this`histogram
      ensures Valid() && histogram == Added(old(histogram), {i})
    {
      if i >= numPieces {
        return;
      }
      histogram := histogram[i := WrapAdd(histogram[i])];
    }

    /** The compare-exchange loop, which runs once in a single thread. */
    method RemoveAvailability(i: nat)
      requires Valid()
      modifies this`histogram
      ensures Valid() && histogram == Removed(old(histogram), {i})
    {
      if i >= numPieces {
        return;
      }
      if histogram[i] > 0 {
        histogram := histogram[i := histogram[i] - 1];
      }
    }

    method AddPeerBitfield(bits: Bitfield)
      requires Valid() && bits.Valid()
      modifies this`histogram
      ensures Valid() && histogram == Added(old(histogram), Members(bits.Value()))
    {
      hide Members, WrapAdd, Added;
      ghost var all, target := Members(bits.Value()), Added(histogram, Members(bits.Value()));
      InMembers(bits.Value());
      AddedAt(histogram, all);
      var i := 0;
      while i < numPieces && i < bits.numBits
        invariant |histogram| == numPieces && 0 <= i <= numPieces
        invariant forall j | 0 <= j < i :: histogram[j] == target[j]
        invariant forall j | i <= j < numPieces :: histogram[j] == old(histogram)[j]
      {
        var has := bits.Has(i);
        if has {
          histogram := histogram[i := WrapAdd(histogram[i])];
        }
        i := i + 1;
      }
    }

    method RemovePeerBitfield(bits: Bitfield)
      requires Valid() && bits.Valid()
      modifies this`histogram
      ensures Valid() && histogram == Removed(old(histogram), Members(bits.Value()))
    {
      ghost var all := Members(bits.Value());
      InMembers(bits.Value());
      hide Members;
      var i := 0;
      while i < numPieces && i < bits.numBits
        invariant Valid() && 0 <= i <= numPieces
        invariant forall j | 0 <= j < i :: histogram[j] == Removed(old(histogram), all)[j]
        invariant forall j | i <= j < numPieces :: histogram[j] == old(histogram)[j]
      {
        var has := bits.Has(i);
        if has && histogram[i] > 0 {
          histogram := histogram[i := histogram[i] - 1];
        }
        i := i + 1;
      }
    }

    method Collect(peer: Bitfield, ours: Bitfield) returns (candidates: seq<nat>)
      requires Valid() && peer.Valid() && ours.Valid()
      ensures candidates == Candidates(numPieces, Members(peer.Value()), Members(ours.Value()))
    {
      hide Members;
      candidates := [];
      for i := 0 to numPieces
        invariant candidates == Candidates(i, Members(peer.Value()), Members(ours.Value()))
      {
        var theirs := peer.Has(i);
        var have := ours.Has(i);
        if theirs && !have {
          candidates := candidates + [i];
        }
      }
    }

    /** A draw is made exactly when a piece is returned. */
    method PickPiece(peer: Bitfield, ours: Bitfield) returns (r: Option<nat>)
      requires Valid() && peer.Valid() && ours.Valid()
      modifies this`draws
      ensures r == Pick(histogram, Members(peer.Value()), Members(ours.Value()), rng(old(draws)))
      ensures draws == if r.Some? then old(draws) + 1 else old(draws)
    {
      hide Members, Candidates, WithAvailability, Least;
      var candidates := Collect(peer, ours);
      if candidates == [] {
        return None;
      }
      var held := ours.Count();
      if held < 4 {
        r := Some(candidates[rng(draws) % |candidates|]);
        draws := draws + 1;
        return;
      }
      var rarest := Rarest(histogram, candidates);
      if rarest == [] {
        return None;
      }
      r := Some(rarest[rng(draws) % |rarest|]);
      draws := draws + 1;
    }
  }
}
