/** The load balancer of a cluster: clients with a weight, picked by smooth
    weighted round robin. */
module RoundRobins {
  import opened Smooth

  class Client {
    var weight: int
    var currentWeight: int

    constructor (weight: int)
      ensures this.weight == weight && currentWeight == 0
    {
      this.weight, currentWeight := weight, 0;
    }
  }

  /** A single server pays at once what it gains. */
  lemma OnlyOne(w: seq<int>, c: seq<int>)
    requires |w| == |c| == 1
    ensures Step(w, c) == c && Choice(w, c) == 0
  {
    assert w[..0] == [] && Sum(w) == w[0];
  }

  /** How the first of the largest changes when one more number is looked at. */
  lemma BestNext(b: seq<int>, i: nat, at: nat)
    requires i < |b| && if i == 0 then at == 0 else IsBest(b[..i], at)
    ensures IsBest(b[..i + 1], if b[i] > b[at] then i else at)
  {
    forall j | 0 <= j < i ensures b[j] <= b[at] && (j < at ==> b[j] < b[at]) {
      assert b[..i][j] == b[j] && b[..i][at] == b[at];
    }
  }

  class RoundRobin {
    var elements: seq<Client>

    /** No client object is in the list twice. */
    ghost predicate Valid()
      reads this
    {
      forall i, j :: 0 <= i < j < |elements| ==> elements[i] != elements[j]
    }

    ghost function Weights(): (w: seq<int>)
      reads this, elements
      ensures |w| == |elements|
    {
      seq(|elements|, i requires 0 <= i < |elements| reads this, elements => elements[i].weight)
    }

    ghost function Currents(): (c: seq<int>)
      reads this, elements
      ensures |c| == |elements|
    {
      seq(|elements|, i requires 0 <= i < |elements| reads this, elements => elements[i].currentWeight)
    }

    constructor ()
      ensures Valid() && elements == []
    {
      elements := [];
    }

    method Add(t: Client)
      requires Valid() && t !in elements
      modifies this
      ensures Valid()
      ensures elements == old(elements) + [t]
    {
      elements := elements + [t];
    }

    /** The loop of a pick: everybody gains the own weight; the total, and the
        first of the heaviest, are found on the way. */
    method GainAll(ghost w: seq<int>, ghost b: seq<int>) returns (total: int, p: Client, ghost at: nat)
      requires Valid() && elements != [] && |w| == |b| == |elements|
      requires forall k :: 0 <= k < |elements| ==>
                 elements[k].weight == w[k] && elements[k].currentWeight == b[k] - w[k]
      modifies elements
      ensures forall k :: 0 <= k < |elements| ==> elements[k].weight == w[k] && elements[k].currentWeight == b[k]
      ensures total == Sum(w)
      ensures IsBest(b, at) && p == elements[at]
    {
      total := 0;
      p := elements[0];
      at := 0;
      var i := 0;
      while i < |elements|
        invariant 0 <= i <= |elements|
        invariant total == Sum(w[..i])
        invariant at < |elements| && p == elements[at] && (if i == 0 then at == 0 else IsBest(b[..i], at))
        invariant forall k :: 0 <= k < |elements| ==> elements[k].weight == w[k]
        invariant forall k :: 0 <= k < i ==> elements[k].currentWeight == b[k]
        invariant forall k :: i <= k < |elements| ==> elements[k].currentWeight == b[k] - w[k]
      {
        assert w[..i + 1][..i] == w[..i];
        BestNext(b, i, at);
        assert forall k :: 0 <= k < |elements| && k != i ==> elements[k] != elements[i];
        total := total + elements[i].weight;
        elements[i].currentWeight := elements[i].currentWeight + elements[i].weight;
        assert elements[i].currentWeight == b[i] && p.currentWeight == b[at];
        if elements[i].currentWeight > p.currentWeight {
          p := elements[i];
          at := i;
        }
        i := i + 1;
      }
      assert w[..i] == w && b[..i] == b;
    }

    /** Everybody gains; the heaviest is picked and pays the total. */
    method Pick(ghost w: seq<int>, ghost c: seq<int>) returns (p: Client)
      requires Valid() && elements != [] && |w| == |c| == |elements|
      requires forall k :: 0 <= k < |elements| ==> elements[k].weight == w[k] && elements[k].currentWeight == c[k]
      modifies elements
      ensures forall k :: 0 <= k < |elements| ==>
                elements[k].weight == w[k] && elements[k].currentWeight == Step(w, c)[k]
      ensures p == elements[Choice(w, c)]
    {
      var total;
      ghost var at;
      total, p, at := GainAll(w, Bump(w, c));
      BestUnique(Bump(w, c), at, Choice(w, c));
      p.currentWeight := p.currentWeight - total;
    }

    /** One step of smooth weighted round robin; null when there is nobody to pick. */
    method Next() returns (r: Client?)
      requires Valid()
      modifies elements
      ensures Weights() == old(Weights())
      ensures elements == [] ==> r == null
      ensures elements != [] ==> Currents() == Step(old(Weights()), old(Currents()))
      ensures elements != [] ==> r == elements[Choice(old(Weights()), old(Currents()))]
    {
      if elements == [] {
        return null;
      }
      ghost var w, c := Weights(), Currents();
      if |elements| == 1 {
        OnlyOne(w, c);
        return elements[0];
      }
      r := Pick(w, c);
    }
  }
}
