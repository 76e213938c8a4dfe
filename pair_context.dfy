/** The text context of the pair-scoring network: every unordered pair of player A's
    available monsters is a candidate, a random sample of them is scored with A's picks
    plus the pair against B's picks, and the scored pairs are listed from the lowest win
    probability to the highest, one line each under a header. The monster catalogue is a
    map from id to name; `fmt4` renders a probability with four decimals. */
module PairContext {
  import opened Common
  import OracleInput

  /** The header line of `backend/main.py`, written in pieces only so that the verifier can
      check each piece for line breaks. */
  const Header: string := "Info neural " + "network sur " + "le choix " + "des monstres " + "pour JA : "

  /** A scored candidate pair. */
  datatype Scored = Scored(a: int, b: int, proba: real)

  datatype ContextError =
    | Scoring(cause: OracleInput.ModelError)   // `predict` raised
    | UnknownMonster(id: int)                  // `monsters[id]` raised KeyError

  // ---------------------------------------------------------------------------
  // Candidate pairs
  // ---------------------------------------------------------------------------

  /** `itertools.combinations(xs, 2)`: every pair of positions i < j, in lexicographic order. */
  function Combinations(xs: seq<int>): seq<(int, int)>
  {
    if xs == [] then []
    else seq(|xs| - 1, k requires 0 <= k < |xs| - 1 => (xs[0], xs[k + 1])) + Combinations(xs[1..])
  }

  lemma TriangleStep(n: nat)
    requires n >= 1
    ensures n * (n - 1) / 2 == (n - 1) + (n - 1) * (n - 2) / 2
  {
    assert n * (n - 1) == (n - 1) * (n - 2) + 2 * (n - 1);
  }

  /** There are n(n-1)/2 pairs. */
  lemma {:induction false} CombinationsCount(xs: seq<int>)
    ensures |Combinations(xs)| == |xs| * (|xs| - 1) / 2
  {
    if xs != [] {
      CombinationsCount(xs[1..]);
      TriangleStep(|xs|);
    }
  }

  /** Every pair of positions i < j is listed. */
  lemma {:induction false} CombinationsComplete(xs: seq<int>)
    ensures forall i, j :: 0 <= i < j < |xs| ==> (xs[i], xs[j]) in Combinations(xs)
  {
    if xs != [] {
      var tail := xs[1..];
      var heads := seq(|xs| - 1, k requires 0 <= k < |xs| - 1 => (xs[0], xs[k + 1]));
      CombinationsComplete(tail);
      assert Combinations(xs) == heads + Combinations(tail);
      forall i, j | 0 <= i < j < |xs| ensures (xs[i], xs[j]) in Combinations(xs) {
        if i == 0 {
          assert heads[j - 1] == (xs[i], xs[j]);
        } else {
          assert tail[i - 1] == xs[i] && tail[j - 1] == xs[j];
        }
      }
    }
  }

  /** Only pairs of positions i < j are listed. */
  lemma {:induction false} CombinationsSound(xs: seq<int>)
    ensures forall p :: p in Combinations(xs) ==> exists i, j :: 0 <= i < j < |xs| && p == (xs[i], xs[j])
  {
    if xs != [] {
      var tail := xs[1..];
      var heads := seq(|xs| - 1, k requires 0 <= k < |xs| - 1 => (xs[0], xs[k + 1]));
      CombinationsSound(tail);
      assert Combinations(xs) == heads + Combinations(tail);
      forall p | p in Combinations(xs) ensures exists i, j :: 0 <= i < j < |xs| && p == (xs[i], xs[j]) {
        if p in heads {
          var k :| 0 <= k < |heads| && heads[k] == p;
          assert p == (xs[0], xs[k + 1]);
        } else {
          var i, j :| 0 <= i < j < |tail| && p == (tail[i], tail[j]);
          assert p == (xs[i + 1], xs[j + 1]);
        }
      }
    }
  }

  /** How many pairs are scored: `min(len(available), len(all_pairs))`. */
  function SampleSize(n: nat): nat
  {
    var pairs := n * (n - 1) / 2;
    if n < pairs then n else pairs
  }

  /** From three available monsters on, as many pairs are scored as there are monsters; with
      fewer, every pair is scored. */
  lemma SampleSizeCases(n: nat)
    ensures n >= 3 ==> SampleSize(n) == n
    ensures n < 3 ==> SampleSize(n) == n * (n - 1) / 2 && SampleSize(n) <= 1
  {
    if n >= 3 {
      assert n * (n - 1) >= 2 * n;
    }
  }

  /** `random.sample(range(m), k)`: k distinct positions below m, chosen arbitrarily. */
  method SamplePositions(m: nat, k: nat) returns (ps: seq<nat>)
    requires k <= m
    ensures |ps| == k && NoDuplicates(ps)
    ensures forall i :: 0 <= i < |ps| ==> ps[i] < m
  {
    var left: set<nat> := {};
    for i := 0 to m
      invariant |left| == i
      invariant forall x: nat :: x in left <==> x < i
    {
      left := left + {i};
    }
    ps := [];
    while |ps| < k
      invariant |ps| + |left| == m && |ps| <= k
      invariant NoDuplicates(ps)
      invariant forall x :: x in left ==> x < m
      invariant forall i :: 0 <= i < |ps| ==> ps[i] < m && ps[i] !in left
      decreases k - |ps|
    {
      var x :| x in left;
      ps := ps + [x];
      left := left - {x};
    }
  }

  // ---------------------------------------------------------------------------
  // Scoring
  // ---------------------------------------------------------------------------

  /** The scores of the sampled pairs, in sample order; the first failing `predict` ends it. */
  function ScorePairs(score: seq<int> -> real, mapping: map<int, int>, dim: nat,
                      picksA: seq<int>, picksB: seq<int>, pairs: seq<(int, int)>)
    : Result<seq<Scored>, ContextError>
    decreases |pairs|
  {
    if pairs == [] then Ok([])
    else
      var e := OracleInput.Prediction(score, mapping, dim, picksA + [pairs[0].0, pairs[0].1], picksB);
      if e.Err? then Err(Scoring(e.error))
      else
        Prefixed([Scored(pairs[0].0, pairs[0].1, e.value)], ScorePairs(score, mapping, dim, picksA, picksB, pairs[1..]))
  }

  // ---------------------------------------------------------------------------
  // Sorting by probability
  // ---------------------------------------------------------------------------

  predicate SortedByProba(s: seq<Scored>)
  {
    forall i, j :: 0 <= i < j < |s| ==> s[i].proba <= s[j].proba
  }

  /** Places `x` before the first entry whose probability is not lower. */
  function Insert(x: Scored, s: seq<Scored>): seq<Scored>
  {
    if s == [] || x.proba <= s[0].proba then [x] + s else [s[0]] + Insert(x, s[1..])
  }

  /** `scores.sort(key=lambda x: x[2])`: a stable sort by probability. */
  function SortByProba(s: seq<Scored>): seq<Scored>
  {
    if s == [] then [] else Insert(s[0], SortByProba(s[1..]))
  }

  /** The entries with probability `p`, in order. */
  function WithProba(s: seq<Scored>, p: real): seq<Scored>
  {
    Filter((x: Scored) => x.proba == p, s)
  }

  lemma {:induction false} InsertKeepsSorted(x: Scored, s: seq<Scored>)
    requires SortedByProba(s)
    ensures SortedByProba(Insert(x, s))
    ensures multiset(Insert(x, s)) == multiset(s) + multiset{x}
  {
    InsertPerm(x, s);
    if s == [] || x.proba <= s[0].proba {
      assert Insert(x, s) == [x] + s;
    } else {
      var rest := Insert(x, s[1..]);
      InsertKeepsSorted(x, s[1..]);
      InsertAbove(x, s[1..], s[0].proba);
      var r := [s[0]] + rest;
      assert Insert(x, s) == r;
      forall i, j | 0 <= i < j < |r| ensures r[i].proba <= r[j].proba {
        if i > 0 {
          assert r[i] == rest[i - 1] && r[j] == rest[j - 1];
        }
      }
    }
  }

  lemma {:induction false} InsertPerm(x: Scored, s: seq<Scored>)
    ensures multiset(Insert(x, s)) == multiset(s) + multiset{x}
  {
    if s != [] && x.proba > s[0].proba {
      InsertPerm(x, s[1..]);
      assert s == [s[0]] + s[1..];
    }
  }

  /** Inserting above a bound keeps every entry above it. */
  lemma {:induction false} InsertAbove(x: Scored, s: seq<Scored>, b: real)
    requires x.proba >= b
    requires forall i :: 0 <= i < |s| ==> s[i].proba >= b
    ensures forall i :: 0 <= i < |Insert(x, s)| ==> Insert(x, s)[i].proba >= b
  {
    if s != [] && x.proba > s[0].proba {
      InsertAbove(x, s[1..], b);
    }
  }

  /** Inserting `x` puts it before the entries of equal probability already there. */
  lemma {:induction false} InsertStable(x: Scored, s: seq<Scored>, p: real)
    requires SortedByProba(s)
    ensures WithProba(Insert(x, s), p) == if x.proba == p then [x] + WithProba(s, p) else WithProba(s, p)
  {
    if s != [] && x.proba > s[0].proba {
      InsertStable(x, s[1..], p);
      assert s == [s[0]] + s[1..];
      FilterAppend((y: Scored) => y.proba == p, [s[0]], Insert(x, s[1..]));
      FilterAppend((y: Scored) => y.proba == p, [s[0]], s[1..]);
    } else {
      FilterAppend((y: Scored) => y.proba == p, [x], s);
    }
  }

  /** The sort orders by probability, keeps every entry, and keeps entries of equal
      probability in their original relative order. */
  lemma {:induction false} SortByProbaCorrect(s: seq<Scored>)
    ensures SortedByProba(SortByProba(s))
    ensures multiset(SortByProba(s)) == multiset(s)
    ensures |SortByProba(s)| == |s|
  {
    if s != [] {
      SortByProbaCorrect(s[1..]);
      InsertKeepsSorted(s[0], SortByProba(s[1..]));
      assert s == [s[0]] + s[1..];
    }
    assert |multiset(SortByProba(s))| == |multiset(s)|;
  }

  /** Entries of equal probability keep their original relative order. */
  lemma {:induction false} SortByProbaStable(s: seq<Scored>, p: real)
    ensures WithProba(SortByProba(s), p) == WithProba(s, p)
  {
    if s != [] {
      SortByProbaStable(s[1..], p);
      SortByProbaCorrect(s[1..]);
      InsertStable(s[0], SortByProba(s[1..]), p);
      assert s == [s[0]] + s[1..];
      FilterAppend((y: Scored) => y.proba == p, [s[0]], s[1..]);
    }
  }

  // ---------------------------------------------------------------------------
  // The text
  // ---------------------------------------------------------------------------

  /** One output line. */
  function PairLine(nameA: string, nameB: string, proba: string): string
  {
    "Si JA pick : " + nameA + " et " + nameB + ", proba win : " + proba + " "
  }

  /** The lines of the scored pairs in order; the first id missing from the catalogue
      (a before b) raises. */
  function Lines(monsters: map<int, string>, fmt4: real -> string, scores: seq<Scored>)
    : Result<seq<string>, ContextError>
    decreases |scores|
  {
    if scores == [] then Ok([])
    else
      var s := scores[0];
      if s.a !in monsters then Err(UnknownMonster(s.a))
      else if s.b !in monsters then Err(UnknownMonster(s.b))
      else Prefixed([PairLine(monsters[s.a], monsters[s.b], fmt4(s.proba))], Lines(monsters, fmt4, scores[1..]))
  }

  /** The scores follow the sample: one per pair, in sample order. */
  lemma {:induction false} ScorePairsShape(score: seq<int> -> real, mapping: map<int, int>, dim: nat,
                                           picksA: seq<int>, picksB: seq<int>, pairs: seq<(int, int)>)
    ensures var r := ScorePairs(score, mapping, dim, picksA, picksB, pairs);
      r.Ok? ==> |r.value| == |pairs| && forall i :: 0 <= i < |pairs| ==>
        r.value[i].a == pairs[i].0 && r.value[i].b == pairs[i].1 &&
        OracleInput.Prediction(score, mapping, dim, picksA + [pairs[i].0, pairs[i].1], picksB) == Ok(r.value[i].proba)
    decreases |pairs|
  {
    if pairs != [] {
      ScorePairsShape(score, mapping, dim, picksA, picksB, pairs[1..]);
    }
  }

  /** One line per score, in order, naming both monsters; it fails exactly when some id is
      missing from the catalogue. */
  lemma {:induction false} LinesShape(monsters: map<int, string>, fmt4: real -> string, scores: seq<Scored>)
    ensures var r := Lines(monsters, fmt4, scores);
      && (r.Ok? ==> |r.value| == |scores| && forall i :: 0 <= i < |scores| ==>
            scores[i].a in monsters && scores[i].b in monsters &&
            r.value[i] == PairLine(monsters[scores[i].a], monsters[scores[i].b], fmt4(scores[i].proba)))
      && (r.Err? <==> exists i :: 0 <= i < |scores| && (scores[i].a !in monsters || scores[i].b !in monsters))
    decreases |scores|
  {
    if scores != [] {
      LinesShape(monsters, fmt4, scores[1..]);
      assert forall i :: 1 <= i < |scores| ==> scores[i] == scores[1..][i - 1];
    }
  }

  /** `pre` put in front of a successful result. */
  function Prefixed<T>(pre: seq<T>, r: Result<seq<T>, ContextError>): Result<seq<T>, ContextError>
  {
    if r.Err? then r else Ok(pre + r.value)
  }

  lemma PrefixedNothing<T>(r: Result<seq<T>, ContextError>)
    ensures Prefixed([], r) == r
  {
    if r.Ok? {
      assert [] + r.value == r.value;
    }
  }

  lemma PrefixedTwice<T>(pre: seq<T>, x: seq<T>, r: Result<seq<T>, ContextError>)
    ensures Prefixed(pre, Prefixed(x, r)) == Prefixed(pre + x, r)
  {
    if r.Ok? {
      assert pre + (x + r.value) == (pre + x) + r.value;
    }
  }

  /** The whole answer for a given sample of positions into the pair list. */
  function ContextText(score: seq<int> -> real, mapping: map<int, int>, dim: nat, monsters: map<int, string>,
                       fmt4: real -> string, picksA: seq<int>, picksB: seq<int>, available: seq<int>,
                       positions: seq<nat>): Result<string, ContextError>
    requires forall i :: 0 <= i < |positions| ==> positions[i] < |Combinations(available)|
  {
    var pairs := Combinations(available);
    var sampled := seq(|positions|, i requires 0 <= i < |positions| => pairs[positions[i]]);
    match ScorePairs(score, mapping, dim, picksA, picksB, sampled)
    case Err(e) => Err(e)
    case Ok(scores) =>
      match Lines(monsters, fmt4, SortByProba(scores))
      case Err(e) => Err(e)
      case Ok(lines) => Ok(Join("\n", [Header] + lines))
  }

  /** The scoring loop: `predict` on A's picks plus each sampled pair, appended in order. */
  method ScoreSample(score: seq<int> -> real, mapping: map<int, int>, dim: nat,
                     picksA: seq<int>, picksB: seq<int>, sampled: seq<(int, int)>)
    returns (r: Result<seq<Scored>, ContextError>)
    ensures r == ScorePairs(score, mapping, dim, picksA, picksB, sampled)
  {
    var scores: seq<Scored> := [];
    assert sampled[0..] == sampled;
    PrefixedNothing(ScorePairs(score, mapping, dim, picksA, picksB, sampled));
    for i := 0 to |sampled|
      invariant ScorePairs(score, mapping, dim, picksA, picksB, sampled) ==
        Prefixed(scores, ScorePairs(score, mapping, dim, picksA, picksB, sampled[i..]))
    {
      var a := sampled[i].0;
      var b := sampled[i].1;
      assert sampled[i..][0] == (a, b) && sampled[i..][1..] == sampled[i + 1..];
      var sortie := OracleInput.Predict(score, mapping, dim, picksA + [a, b], picksB);
      if sortie.Err? {
        return Err(Scoring(sortie.error));
      }
      PrefixedTwice(scores, [Scored(a, b, sortie.value)], ScorePairs(score, mapping, dim, picksA, picksB, sampled[i + 1..]));
      scores := scores + [Scored(a, b, sortie.value)];
    }
    assert sampled[|sampled|..] == [];
    assert scores + [] == scores;
    return Ok(scores);
  }

  /** The line-building loop over the sorted scores, after the header. */
  method BuildLines(monsters: map<int, string>, fmt4: real -> string, scores: seq<Scored>)
    returns (r: Result<seq<string>, ContextError>)
    ensures r == Prefixed([Header], Lines(monsters, fmt4, scores))
  {
    var lines := [Header];
    assert scores[0..] == scores;
    for i := 0 to |scores|
      invariant |lines| >= 1 && lines[0] == Header
      invariant Prefixed([Header], Lines(monsters, fmt4, scores)) ==
        Prefixed(lines, Lines(monsters, fmt4, scores[i..]))
    {
      var s := scores[i];
      assert scores[i..][0] == s && scores[i..][1..] == scores[i + 1..];
      if s.a !in monsters {
        return Err(UnknownMonster(s.a));
      }
      if s.b !in monsters {
        return Err(UnknownMonster(s.b));
      }
      var line := PairLine(monsters[s.a], monsters[s.b], fmt4(s.proba));
      if Lines(monsters, fmt4, scores[i + 1..]).Ok? {
        var rest := Lines(monsters, fmt4, scores[i + 1..]).value;
        assert lines + ([line] + rest) == (lines + [line]) + rest;
      }
      lines := lines + [line];
    }
    assert scores[|scores|..] == [];
    assert lines + [] == lines;
    return Ok(lines);
  }

  /** `get_neural_net_context`: the sampled positions are returned beside the text. */
  method NeuralNetContext(score: seq<int> -> real, mapping: map<int, int>, dim: nat, monsters: map<int, string>,
                          fmt4: real -> string, picksA: seq<int>, picksB: seq<int>, available: seq<int>)
    returns (r: Result<string, ContextError>, positions: seq<nat>)
    ensures |positions| == SampleSize(|available|) && NoDuplicates(positions)
    ensures forall i :: 0 <= i < |positions| ==> positions[i] < |Combinations(available)|
    ensures r == ContextText(score, mapping, dim, monsters, fmt4, picksA, picksB, available, positions)
  {
    var allPairs := Combinations(available);
    CombinationsCount(available);
    var numToTake := |available|;
    var k := if numToTake < |allPairs| then numToTake else |allPairs|;
    positions := SamplePositions(|allPairs|, k);
    var sampled := seq(|positions|, i requires 0 <= i < |positions| => allPairs[positions[i]]);
    var scores := ScoreSample(score, mapping, dim, picksA, picksB, sampled);
    if scores.Err? {
      return Err(scores.error), positions;
    }
    var sorted := SortByProba(scores.value);
    var lines := BuildLines(monsters, fmt4, sorted);
    if lines.Err? {
      return Err(lines.error), positions;
    }
    r := Ok(Join("\n", lines.value));
  }

  /** No line holds a line break when no name and no rendered probability does. */
  lemma {:induction false} LinesNoBreak(monsters: map<int, string>, fmt4: real -> string, scores: seq<Scored>)
    requires forall id :: id in monsters ==> '\n' !in monsters[id]
    requires forall p: real :: '\n' !in fmt4(p)
    ensures Lines(monsters, fmt4, scores).Ok? ==>
      forall p :: p in Lines(monsters, fmt4, scores).value ==> CountChar('\n', p) == 0
  {
    LinesShape(monsters, fmt4, scores);
    if Lines(monsters, fmt4, scores).Ok? {
      var lines := Lines(monsters, fmt4, scores).value;
      forall p | p in lines ensures CountChar('\n', p) == 0 {
        var i :| 0 <= i < |lines| && lines[i] == p;
        var s := scores[i];
        assert '\n' !in monsters[s.a] && '\n' !in monsters[s.b] && '\n' !in fmt4(s.proba);
      }
    }
  }

  /** A first line and `lines` joined by "\n" hold one line break per line of `lines`. */
  lemma {:induction false} LinesUnderHeadCount(head: string, lines: seq<string>)
    requires CountChar('\n', head) == 0
    requires forall p :: p in lines ==> CountChar('\n', p) == 0
    ensures CountChar('\n', Join("\n", [head] + lines)) == |lines|
  {
    var parts := [head] + lines;
    forall p | p in parts ensures CountChar('\n', p) == 0 {
      if p != head {
        assert p in lines;
      }
    }
    JoinCountsSeparators('\n', parts);
  }

  lemma HeaderHasNoBreak()
    ensures CountChar('\n', Header) == 0
  {
    assert '\n' !in "Info neural " && '\n' !in "network sur " && '\n' !in "le choix ";
    assert '\n' !in "des monstres " && '\n' !in "pour JA : ";
  }

  /** The answer has one line per scored pair under the header: with names and rendered
      probabilities free of line breaks, it holds exactly as many "\n" as pairs were sampled. */
  lemma ContextLineCount(score: seq<int> -> real, mapping: map<int, int>, dim: nat, monsters: map<int, string>,
                         fmt4: real -> string, picksA: seq<int>, picksB: seq<int>, available: seq<int>,
                         positions: seq<nat>)
    requires forall i :: 0 <= i < |positions| ==> positions[i] < |Combinations(available)|
    requires forall id :: id in monsters ==> '\n' !in monsters[id]
    requires forall p: real :: '\n' !in fmt4(p)
    ensures var r := ContextText(score, mapping, dim, monsters, fmt4, picksA, picksB, available, positions);
      r.Ok? ==> CountChar('\n', r.value) == |positions|
  {
    var pairs := Combinations(available);
    var sampled := seq(|positions|, i requires 0 <= i < |positions| => pairs[positions[i]]);
    var scored := ScorePairs(score, mapping, dim, picksA, picksB, sampled);
    ScorePairsShape(score, mapping, dim, picksA, picksB, sampled);
    if scored.Ok? {
      var sorted := SortByProba(scored.value);
      SortByProbaCorrect(scored.value);
      var lines := Lines(monsters, fmt4, sorted);
      LinesShape(monsters, fmt4, sorted);
      LinesNoBreak(monsters, fmt4, sorted);
      if lines.Ok? {
        HeaderHasNoBreak();
        LinesUnderHeadCount(Header, lines.value);
      }
    }
  }
}
