/** The input of the pair-scoring network: both rosters padded or truncated to four slots,
    every id mapped to a feature index, and each roster turned into a multi-hot vector.
    The network itself (layers, sigmoid calibration) is a function value `score`. */
module OracleInput {
  import opened Common

  /** The id that fills the empty slots of a short roster. It is a real monster's id. */
  const Filler: int := 23711
  /** Slots per roster. */
  const RosterSlots: nat := 4

  datatype ModelError =
    | KeyError(id: int)   // an id without a feature index
    | IndexError          // a feature index outside the vector

  /** Python's `xs * n`: `n` copies of `xs`, nothing when `n` is zero or negative. */
  function ListTimes(xs: seq<int>, n: int): (r: seq<int>)
    ensures |r| == if n <= 0 then 0 else n * |xs|
    decreases if n <= 0 then 0 else n
  {
    if n <= 0 then [] else xs + ListTimes(xs, n - 1)
  }

  lemma {:induction false} ListTimesAll(x: int, n: int)
    ensures forall i :: 0 <= i < |ListTimes([x], n)| ==> ListTimes([x], n)[i] == x
    decreases if n <= 0 then 0 else n
  {
    if n > 0 {
      ListTimesAll(x, n - 1);
    }
  }

  /** `lst[:target] + [23711] * (target - len(lst))`. */
  function PadList(lst: seq<int>, target: nat): seq<int>
  {
    lst[..if |lst| < target then |lst| else target] + ListTimes([Filler], target - |lst|)
  }

  /** A padded roster has exactly `target` slots: the input's first ids, then the filler. */
  lemma PadListShape(lst: seq<int>, target: nat)
    ensures |PadList(lst, target)| == target
    ensures forall i :: 0 <= i < target ==>
      PadList(lst, target)[i] == if i < |lst| then lst[i] else Filler
  {
    ListTimesAll(Filler, target - |lst|);
  }

  /** A roster with at least `target` ids keeps only its first `target`. */
  lemma PadListTruncates(lst: seq<int>, target: nat)
    requires |lst| >= target
    ensures PadList(lst, target) == lst[..target]
  {
  }

  /** `[mapping[id] for id in ids]`: KeyError for the first id without an index. */
  function LookupAll(mapping: map<int, int>, ids: seq<int>): (r: Result<seq<int>, ModelError>)
    ensures r.Ok? <==> forall i :: 0 <= i < |ids| ==> ids[i] in mapping
    ensures r.Ok? ==> |r.value| == |ids| && forall i :: 0 <= i < |ids| ==> r.value[i] == mapping[ids[i]]
    ensures r.Err? ==> exists i :: 0 <= i < |ids| && r.error == KeyError(ids[i]) && ids[i] !in mapping &&
                                   forall j :: 0 <= j < i ==> ids[j] in mapping
  {
    if ids == [] then Ok([])
    else if ids[0] !in mapping then Err(KeyError(ids[0]))
    else
      match LookupAll(mapping, ids[1..])
      case Err(e) => Err(e)
      case Ok(rest) => Ok([mapping[ids[0]]] + rest)
  }

  /** The ids a roster holds. */
  function Elements(s: seq<int>): (r: set<int>)
    ensures forall x :: x in r <==> x in s
  {
    set x | x in s
  }

  /** A tensor index of a vector of length `dim`: negative ones count from the end. */
  predicate InRange(dim: nat, idx: int)
  {
    -(dim as int) <= idx < dim
  }

  predicate AllInRange(dim: nat, idxs: seq<int>)
  {
    forall i :: 0 <= i < |idxs| ==> InRange(dim, idxs[i])
  }

  function Slot(dim: nat, idx: int): (k: nat)
    requires InRange(dim, idx)
    ensures k < dim
  {
    if idx < 0 then idx + dim else idx
  }

  /** A vector of length `dim` holding 1 at every index of `idxs` and 0 elsewhere. */
  function HotVector(dim: nat, idxs: seq<int>): (v: seq<int>)
    requires AllInRange(dim, idxs)
  {
    seq(dim, k requires 0 <= k < dim => if exists i :: 0 <= i < |idxs| && Slot(dim, idxs[i]) == k then 1 else 0)
  }

  /** The slots a list of indices sets. */
  function SlotSet(dim: nat, idxs: seq<int>): set<nat>
    requires AllInRange(dim, idxs)
  {
    set i | 0 <= i < |idxs| :: Slot(dim, idxs[i])
  }

  /** A multi-hot vector has `dim` entries, each 0 or 1, and is 1 exactly at the slots set. */
  lemma HotVectorShape(dim: nat, idxs: seq<int>)
    requires AllInRange(dim, idxs)
    ensures |HotVector(dim, idxs)| == dim
    ensures forall k :: 0 <= k < dim ==>
      (HotVector(dim, idxs)[k] == 1 <==> k in SlotSet(dim, idxs)) &&
      (HotVector(dim, idxs)[k] == 0 <==> k !in SlotSet(dim, idxs))
  {
    forall k | 0 <= k < dim
      ensures HotVector(dim, idxs)[k] == 1 <==> k in SlotSet(dim, idxs)
    {
      if k in SlotSet(dim, idxs) {
        var i :| 0 <= i < |idxs| && Slot(dim, idxs[i]) == k;
      }
    }
  }

  /** Order and repetition of the indices do not matter, only the slots they set. */
  lemma HotVectorDependsOnSlots(dim: nat, a: seq<int>, b: seq<int>)
    requires AllInRange(dim, a) && AllInRange(dim, b)
    requires SlotSet(dim, a) == SlotSet(dim, b)
    ensures HotVector(dim, a) == HotVector(dim, b)
  {
    HotVectorShape(dim, a);
    HotVectorShape(dim, b);
  }

  /** `one_hot = zeros(dim); one_hot[idxs] = 1`. */
  method MultiHot(dim: nat, idxs: seq<int>) returns (r: Result<seq<int>, ModelError>)
    ensures AllInRange(dim, idxs) ==> r == Ok(HotVector(dim, idxs))
    ensures !AllInRange(dim, idxs) ==> r == Err(IndexError)
  {
    var v := new int[dim](_ => 0);
    for j := 0 to |idxs|
      invariant AllInRange(dim, idxs[..j])
      invariant forall k :: 0 <= k < dim ==>
        v[k] == if exists i :: 0 <= i < j && Slot(dim, idxs[i]) == k then 1 else 0
    {
      if !InRange(dim, idxs[j]) {
        return Err(IndexError);
      }
      v[Slot(dim, idxs[j])] := 1;
    }
    assert idxs[..|idxs|] == idxs;
    HotVectorShape(dim, idxs);
    forall k | 0 <= k < dim ensures v[k] == HotVector(dim, idxs)[k] {
      if v[k] == 1 {
        var i :| 0 <= i < |idxs| && Slot(dim, idxs[i]) == k;
        assert k in SlotSet(dim, idxs);
      } else {
        assert k !in SlotSet(dim, idxs);
      }
    }
    assert v[..] == HotVector(dim, idxs);
    return Ok(v[..]);
  }

  /** The network input: the padded ids of both rosters mapped to indices, the first four
      turned into A's vector and the last four into B's, concatenated. */
  function EncodeInput(mapping: map<int, int>, dim: nat, rosterA: seq<int>, rosterB: seq<int>)
    : Result<seq<int>, ModelError>
  {
    var ids := PadList(rosterA, RosterSlots) + PadList(rosterB, RosterSlots);
    match LookupAll(mapping, ids)
    case Err(e) => Err(e)
    case Ok(x) =>
      if !AllInRange(dim, x[..RosterSlots]) || !AllInRange(dim, x[RosterSlots..]) then Err(IndexError)
      else Ok(HotVector(dim, x[..RosterSlots]) + HotVector(dim, x[RosterSlots..]))
  }

  /** The score of the encoded rosters, or the error that encoding them raises. */
  function Prediction(score: seq<int> -> real, mapping: map<int, int>, dim: nat, rosterA: seq<int>, rosterB: seq<int>)
    : Result<real, ModelError>
  {
    var e := EncodeInput(mapping, dim, rosterA, rosterB);
    if e.Ok? then Ok(score(e.value)) else Err(e.error)
  }

  /** `predict`. */
  method Predict(score: seq<int> -> real, mapping: map<int, int>, dim: nat, rosterA: seq<int>, rosterB: seq<int>)
    returns (r: Result<real, ModelError>)
    ensures r == Prediction(score, mapping, dim, rosterA, rosterB)
  {
    PadListShape(rosterA, RosterSlots);
    PadListShape(rosterB, RosterSlots);
    var padA := PadList(rosterA, RosterSlots);
    var padB := PadList(rosterB, RosterSlots);
    var x := LookupAll(mapping, padA + padB);
    if x.Err? {
      return Err(x.error);
    }
    var hotA := MultiHot(dim, x.value[..RosterSlots]);
    if hotA.Err? {
      return Err(hotA.error);
    }
    var hotB := MultiHot(dim, x.value[RosterSlots..]);
    if hotB.Err? {
      return Err(hotB.error);
    }
    return Ok(score(hotA.value + hotB.value));
  }

  /** The input has two halves of `dim` entries; each half is 1 exactly at the indices of its
      roster's padded ids. */
  lemma EncodeInputShape(mapping: map<int, int>, dim: nat, rosterA: seq<int>, rosterB: seq<int>)
    requires EncodeInput(mapping, dim, rosterA, rosterB).Ok?
    ensures var v := EncodeInput(mapping, dim, rosterA, rosterB).value;
      var padA := PadList(rosterA, RosterSlots);
      var padB := PadList(rosterB, RosterSlots);
      && |v| == 2 * dim
      && (forall i :: 0 <= i < RosterSlots ==> padA[i] in mapping && padB[i] in mapping)
      && (forall k :: 0 <= k < dim ==>
            (v[..dim][k] == 1 <==> exists i :: 0 <= i < RosterSlots && InRange(dim, mapping[padA[i]]) &&
                                               Slot(dim, mapping[padA[i]]) == k))
      && (forall k :: 0 <= k < dim ==>
            (v[dim..][k] == 1 <==> exists i :: 0 <= i < RosterSlots && InRange(dim, mapping[padB[i]]) &&
                                               Slot(dim, mapping[padB[i]]) == k))
  {
    PadListShape(rosterA, RosterSlots);
    PadListShape(rosterB, RosterSlots);
    var padA := PadList(rosterA, RosterSlots);
    var padB := PadList(rosterB, RosterSlots);
    var ids := padA + padB;
    var x := LookupAll(mapping, ids).value;
    forall i | 0 <= i < RosterSlots
      ensures padA[i] in mapping && padB[i] in mapping
      ensures x[..RosterSlots][i] == mapping[padA[i]] && x[RosterSlots..][i] == mapping[padB[i]]
    {
      assert ids[i] == padA[i] && ids[RosterSlots + i] == padB[i];
    }
    HotVectorShape(dim, x[..RosterSlots]);
    HotVectorShape(dim, x[RosterSlots..]);
    var v := EncodeInput(mapping, dim, rosterA, rosterB).value;
    assert v[..dim] == HotVector(dim, x[..RosterSlots]);
    assert v[dim..] == HotVector(dim, x[RosterSlots..]);
  }

  /** The slots set by the indices of a list of ids depend only on the set of ids. */
  lemma SlotSetOfIds(mapping: map<int, int>, dim: nat, a: seq<int>, b: seq<int>)
    requires forall i :: 0 <= i < |a| ==> a[i] in mapping && InRange(dim, mapping[a[i]])
    requires Elements(a) == Elements(b)
    ensures forall i :: 0 <= i < |b| ==> b[i] in mapping && InRange(dim, mapping[b[i]])
    ensures var ma := seq(|a|, i requires 0 <= i < |a| => mapping[a[i]]);
      var mb := seq(|b|, i requires 0 <= i < |b| => mapping[b[i]]);
      AllInRange(dim, ma) && AllInRange(dim, mb) && SlotSet(dim, ma) == SlotSet(dim, mb)
  {
    forall j | 0 <= j < |b| ensures exists i :: 0 <= i < |a| && a[i] == b[j] {
      assert b[j] in Elements(b);
      assert b[j] in Elements(a);
    }
    forall i | 0 <= i < |a| ensures exists j :: 0 <= j < |b| && b[j] == a[i] {
      assert a[i] in Elements(a);
      assert a[i] in Elements(b);
    }
    forall j | 0 <= j < |b| ensures b[j] in mapping && InRange(dim, mapping[b[j]]) {
      var i :| 0 <= i < |a| && a[i] == b[j];
    }
    var ma := seq(|a|, i requires 0 <= i < |a| => mapping[a[i]]);
    var mb := seq(|b|, i requires 0 <= i < |b| => mapping[b[i]]);
    forall k | k in SlotSet(dim, ma) ensures k in SlotSet(dim, mb) {
      var i :| 0 <= i < |ma| && Slot(dim, ma[i]) == k;
      var j :| 0 <= j < |b| && b[j] == a[i];
      assert Slot(dim, mb[j]) == k;
    }
    forall k | k in SlotSet(dim, mb) ensures k in SlotSet(dim, ma) {
      var j :| 0 <= j < |mb| && Slot(dim, mb[j]) == k;
      var i :| 0 <= i < |a| && a[i] == b[j];
      assert Slot(dim, ma[i]) == k;
    }
  }

  /** Reordering or repeating ids inside a roster of at most four does not change the input,
      as long as the roster keeps its length and its set of ids. */
  lemma EncodeIgnoresRosterOrder(mapping: map<int, int>, dim: nat, rosterA: seq<int>, rosterA2: seq<int>,
                                 rosterB: seq<int>)
    requires |rosterA| == |rosterA2| <= RosterSlots
    requires Elements(rosterA) == Elements(rosterA2)
    requires EncodeInput(mapping, dim, rosterA, rosterB).Ok?
    ensures EncodeInput(mapping, dim, rosterA2, rosterB) == EncodeInput(mapping, dim, rosterA, rosterB)
  {
    PadListShape(rosterA, RosterSlots);
    PadListShape(rosterA2, RosterSlots);
    PadListShape(rosterB, RosterSlots);
    var padA := PadList(rosterA, RosterSlots);
    var padA2 := PadList(rosterA2, RosterSlots);
    var padB := PadList(rosterB, RosterSlots);
    var ids := padA + padB;
    var ids2 := padA2 + padB;
    var x := LookupAll(mapping, ids).value;
    assert forall i :: 0 <= i < RosterSlots ==> ids[i] == padA[i] && ids[RosterSlots + i] == padB[i];
    assert forall i :: 0 <= i < RosterSlots ==> ids2[i] == padA2[i] && ids2[RosterSlots + i] == padB[i];
    assert Elements(padA) == Elements(padA2) by {
      forall y | y in padA ensures y in padA2 {
        var i :| 0 <= i < |padA| && padA[i] == y;
        if i < |rosterA| {
          assert rosterA[i] in Elements(rosterA);
          assert rosterA[i] in Elements(rosterA2);
          var j :| 0 <= j < |rosterA2| && rosterA2[j] == rosterA[i];
          assert padA2[j] == y;
        } else {
          assert padA2[i] == y;
        }
      }
      forall y | y in padA2 ensures y in padA {
        var i :| 0 <= i < |padA2| && padA2[i] == y;
        if i < |rosterA2| {
          assert rosterA2[i] in Elements(rosterA2);
          assert rosterA2[i] in Elements(rosterA);
          var j :| 0 <= j < |rosterA| && rosterA[j] == rosterA2[i];
          assert padA[j] == y;
        } else {
          assert padA[i] == y;
        }
      }
    }
    assert x[..RosterSlots] == seq(|padA|, i requires 0 <= i < |padA| => mapping[padA[i]]);
    SlotSetOfIds(mapping, dim, padA, padA2);
    forall i | 0 <= i < |ids2| ensures ids2[i] in mapping {
      if i >= RosterSlots {
        assert ids2[i] == ids[i];
      }
    }
    var x2 := LookupAll(mapping, ids2).value;
    assert x2[..RosterSlots] == seq(|padA2|, i requires 0 <= i < |padA2| => mapping[padA2[i]]);
    assert x2[RosterSlots..] == x[RosterSlots..];
    HotVectorDependsOnSlots(dim, x[..RosterSlots], x2[..RosterSlots]);
  }

  /** A roster's ids after the fourth are never looked at: adding two ids to a roster of three
      or more scores at most the first of them, and to a roster of four or more neither. */
  lemma EncodeDropsExtraIds(mapping: map<int, int>, dim: nat, rosterA: seq<int>, a: int, b: int, rosterB: seq<int>)
    ensures |rosterA| >= RosterSlots - 1 ==>
      EncodeInput(mapping, dim, rosterA + [a, b], rosterB) == EncodeInput(mapping, dim, rosterA + [a], rosterB)
    ensures |rosterA| >= RosterSlots ==>
      EncodeInput(mapping, dim, rosterA + [a, b], rosterB) == EncodeInput(mapping, dim, rosterA, rosterB)
  {
    if |rosterA| >= RosterSlots - 1 {
      assert (rosterA + [a, b])[..RosterSlots] == (rosterA + [a])[..RosterSlots];
      if |rosterA| >= RosterSlots {
        assert (rosterA + [a, b])[..RosterSlots] == rosterA[..RosterSlots];
      }
    }
  }
}
