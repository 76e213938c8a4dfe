/** Small value types and sequence/string helpers shared by the modules of the model:
    the optional and error-carrying results of the source's functions, JavaScript's
    `filter`/`join`/`includes`/`toLowerCase`, the decimal rendering of integers used in
    template strings, and the counting dictionaries built with `(d[k] || 0) + 1`. */
module Common {

  datatype Option<+T> = None | Some(value: T)

  datatype Result<+T, +E> = Ok(value: T) | Err(error: E)

  // ---------------------------------------------------------------------------
  // Sequences
  // ---------------------------------------------------------------------------

  /** `Array.prototype.filter`: the elements that satisfy `keep`, in order. */
  function Filter<T>(keep: T -> bool, s: seq<T>): (r: seq<T>)
    ensures |r| <= |s|
    ensures forall i :: 0 <= i < |r| ==> r[i] in s && keep(r[i])
    ensures forall i :: 0 <= i < |s| && keep(s[i]) ==> s[i] in r
  {
    if s == [] then [] else
      var rest := Filter(keep, s[1..]);
      assert forall i :: 1 <= i < |s| ==> s[i] == s[1..][i - 1];
      if keep(s[0]) then [s[0]] + rest else rest
  }

  /** Some element satisfies `p`. */
  predicate Any<T>(p: T -> bool, s: seq<T>)
  {
    exists i :: 0 <= i < |s| && p(s[i])
  }

  lemma AnyCons<T>(p: T -> bool, s: seq<T>)
    requires s != []
    ensures Any(p, s) <==> p(s[0]) || Any(p, s[1..])
  {
    if Any(p, s[1..]) {
      var i :| 0 <= i < |s[1..]| && p(s[1..][i]);
      assert s[i + 1] == s[1..][i];
    }
  }

  /** `t` is `s` with some elements left out, in the same order. */
  ghost predicate IsSubsequence<T>(t: seq<T>, s: seq<T>)
    decreases |s|
  {
    if t == [] then true
    else if s == [] then false
    else (t[0] == s[0] && IsSubsequence(t[1..], s[1..])) || IsSubsequence(t, s[1..])
  }

  lemma {:induction false} FilterIsSubsequence<T>(keep: T -> bool, s: seq<T>)
    ensures IsSubsequence(Filter(keep, s), s)
  {
    if s != [] {
      FilterIsSubsequence(keep, s[1..]);
    }
  }

  lemma {:induction false} SubsequenceTrans<T>(a: seq<T>, b: seq<T>, c: seq<T>)
    requires IsSubsequence(a, b) && IsSubsequence(b, c)
    ensures IsSubsequence(a, c)
    decreases |c|
  {
    if a != [] && c != [] {
      if b != [] && b[0] == c[0] && IsSubsequence(b[1..], c[1..]) {
        if a[0] == b[0] && IsSubsequence(a[1..], b[1..]) {
          SubsequenceTrans(a[1..], b[1..], c[1..]);
        } else {
          SubsequenceTrans(a, b[1..], c[1..]);
        }
      } else {
        SubsequenceTrans(a, b, c[1..]);
      }
    }
  }

  lemma {:induction false} FilterAppend<T>(keep: T -> bool, s: seq<T>, u: seq<T>)
    ensures Filter(keep, s + u) == Filter(keep, s) + Filter(keep, u)
  {
    if s == [] {
      assert s + u == u;
    } else {
      assert (s + u)[1..] == s[1..] + u;
      FilterAppend(keep, s[1..], u);
    }
  }

  /** Every element of `s` satisfies `keep`, so filtering keeps all of it. */
  lemma {:induction false} FilterAll<T>(keep: T -> bool, s: seq<T>)
    requires forall x :: x in s ==> keep(x)
    ensures Filter(keep, s) == s
  {
    if s != [] {
      assert forall x :: x in s[1..] ==> x in s;
      FilterAll(keep, s[1..]);
    }
  }

  /** No element of `s` satisfies `keep`, so filtering keeps nothing. */
  lemma {:induction false} FilterNone<T>(keep: T -> bool, s: seq<T>)
    requires forall i :: 0 <= i < |s| ==> !keep(s[i])
    ensures Filter(keep, s) == []
  {
    if s != [] {
      FilterNone(keep, s[1..]);
    }
  }

  /** The elements of `s` occur at most once. */
  predicate NoDuplicates<T(==)>(s: seq<T>)
  {
    forall i, j :: 0 <= i < j < |s| ==> s[i] != s[j]
  }

  /** `Array.prototype.indexOf`: the first index of `x` in `s`, or -1. */
  function IndexOf<T(==)>(s: seq<T>, x: T): (r: int)
    ensures -1 <= r < |s|
    ensures r == -1 <==> x !in s
    ensures r >= 0 ==> s[r] == x && forall k :: 0 <= k < r ==> s[k] != x
  {
    if s == [] then -1
    else if s[0] == x then 0
    else
      var k := IndexOf(s[1..], x);
      assert x in s[1..] ==> x in s;
      assert x in s && s[0] != x ==> x in s[1..];
      if k == -1 then -1 else k + 1
  }

  // ---------------------------------------------------------------------------
  // Strings
  // ---------------------------------------------------------------------------

  /** `Array.prototype.join(sep)`. */
  function Join(sep: string, parts: seq<string>): string
  {
    if parts == [] then ""
    else if |parts| == 1 then parts[0]
    else parts[0] + sep + Join(sep, parts[1..])
  }

  /** Joining a list with one more part at its end. */
  lemma {:induction false} JoinSnoc(sep: string, parts: seq<string>, x: string)
    requires parts != []
    ensures Join(sep, parts + [x]) == Join(sep, parts) + sep + x
  {
    if |parts| > 1 {
      assert (parts + [x])[1..] == parts[1..] + [x];
      JoinSnoc(sep, parts[1..], x);
    }
  }

  /** Number of occurrences of the character `c` in `s`. */
  function CountChar(c: char, s: string): (r: nat)
    ensures r == 0 <==> c !in s
  {
    if s == [] then 0
    else
      assert s == [s[0]] + s[1..];
      (if s[0] == c then 1 else 0) + CountChar(c, s[1..])
  }

  lemma {:induction false} CountCharAppend(c: char, s: string, t: string)
    ensures CountChar(c, s + t) == CountChar(c, s) + CountChar(c, t)
  {
    if s == [] {
      assert s + t == t;
    } else {
      assert (s + t)[1..] == s[1..] + t;
      CountCharAppend(c, s[1..], t);
    }
  }

  /** Joining `n` parts with a one-character separator that no part contains puts exactly
      `n - 1` separators into the result. */
  lemma {:induction false} JoinCountsSeparators(c: char, parts: seq<string>)
    requires parts != []
    requires forall p :: p in parts ==> CountChar(c, p) == 0
    ensures CountChar(c, Join([c], parts)) == |parts| - 1
  {
    if |parts| > 1 {
      assert forall p :: p in parts[1..] ==> p in parts;
      JoinCountsSeparators(c, parts[1..]);
      CountCharAppend(c, parts[0] + [c], Join([c], parts[1..]));
      CountCharAppend(c, parts[0], [c]);
    }
  }

  function DigitChar(d: nat): char
    requires d < 10
  {
    "0123456789"[d]
  }

  /** Decimal rendering of a natural number, as `String(n)` / Python's `str(n)`. */
  function NatToString(n: nat): (r: string)
    ensures |r| >= 1
    ensures forall i :: 0 <= i < |r| ==> '0' <= r[i] <= '9'
    decreases n
  {
    if n < 10 then [DigitChar(n)] else NatToString(n / 10) + [DigitChar(n % 10)]
  }

  /** Decimal rendering of an integer: a `-` before the digits of a negative number. */
  function IntToString(i: int): (r: string)
    ensures |r| >= 1
    ensures forall i :: 0 <= i < |r| ==> r[i] == '-' || '0' <= r[i] <= '9'
  {
    if i < 0 then "-" + NatToString(-i) else NatToString(i)
  }

  /** Value of a non-empty string of ASCII decimal digits. */
  function DigitsValue(s: string): nat
    requires forall i :: 0 <= i < |s| ==> '0' <= s[i] <= '9'
  {
    if s == [] then 0
    else
      DigitsValue(s[..|s| - 1]) * 10 + (s[|s| - 1] as int - '0' as int)
  }

  lemma {:induction false} NatToStringRoundTrip(n: nat)
    ensures DigitsValue(NatToString(n)) == n
    decreases n
  {
    var s := NatToString(n);
    if n >= 10 {
      NatToStringRoundTrip(n / 10);
      assert s[..|s| - 1] == NatToString(n / 10);
    }
  }

  /** Two numbers print differently: the rendering is injective. */
  lemma NatToStringInjective(m: nat, n: nat)
    requires NatToString(m) == NatToString(n)
    ensures m == n
  {
    NatToStringRoundTrip(m);
    NatToStringRoundTrip(n);
  }

  /** ASCII upper-case letters mapped to lower case; everything else unchanged. */
  function LowerChar(c: char): char
  {
    if 'A' <= c <= 'Z' then (c as int + 32) as char else c
  }

  /** `String.prototype.toLowerCase`, restricted to the ASCII letters. */
  function ToLower(s: string): (r: string)
    ensures |r| == |s|
    ensures forall i :: 0 <= i < |s| ==> r[i] == LowerChar(s[i])
  {
    seq(|s|, i requires 0 <= i < |s| => LowerChar(s[i]))
  }

  predicate StartsWith(s: string, prefix: string)
  {
    |prefix| <= |s| && s[..|prefix|] == prefix
  }

  /** `needle` occurs in `s` at position `i`. */
  predicate OccursAt(s: string, needle: string, i: int)
  {
    0 <= i <= |s| - |needle| && s[i..i + |needle|] == needle
  }

  /** `String.prototype.includes` / Python's `in` on strings: `needle` occurs in `s`. */
  predicate Contains(s: string, needle: string)
  {
    exists i :: 0 <= i <= |s| && OccursAt(s, needle, i)
  }

  /** The first position at or after `from` where `needle` occurs in `s`. */
  function FindFrom(s: string, needle: string, from: nat): (r: Option<nat>)
    ensures r.Some? ==> from <= r.value && OccursAt(s, needle, r.value)
    ensures r.Some? ==> forall i :: from <= i < r.value ==> !OccursAt(s, needle, i)
    ensures r.None? ==> forall i :: from <= i ==> !OccursAt(s, needle, i)
    decreases |s| + 1 - from
  {
    if from + |needle| > |s| then None
    else if s[from..from + |needle|] == needle then Some(from)
    else FindFrom(s, needle, from + 1)
  }

  /** `Contains` is decided by the search from the start. */
  lemma ContainsByFind(s: string, needle: string)
    ensures Contains(s, needle) <==> FindFrom(s, needle, 0).Some?
  {
    var r := FindFrom(s, needle, 0);
    if r.Some? {
      assert OccursAt(s, needle, r.value);
    }
  }

  /** Python's `str.split(sep)` and JavaScript's `split(sep)` for a non-empty separator:
      the pieces between the occurrences of `sep`, found from left to right. */
  function Split(s: string, sep: string): (parts: seq<string>)
    requires sep != []
    ensures parts != []
    decreases |s|
  {
    match FindFrom(s, sep, 0)
    case None => [s]
    case Some(i) => [s[..i]] + Split(s[i + |sep|..], sep)
  }

  /** Splitting and joining back with the same separator gives the original string. */
  lemma {:induction false} SplitJoin(s: string, sep: string)
    requires sep != []
    ensures Join(sep, Split(s, sep)) == s
    decreases |s|
  {
    match FindFrom(s, sep, 0)
    case None =>
    case Some(i) =>
      var rest := s[i + |sep|..];
      SplitJoin(rest, sep);
      assert Split(s, sep) == [s[..i]] + Split(rest, sep);
      assert s == s[..i] + sep + rest;
  }

  /** No piece of a split contains the separator. */
  lemma {:induction false} SplitPiecesAvoidSeparator(s: string, sep: string)
    requires sep != []
    ensures forall p :: p in Split(s, sep) ==> !Contains(p, sep)
    decreases |s|
  {
    match FindFrom(s, sep, 0)
    case None =>
      ContainsByFind(s, sep);
    case Some(i) =>
      var rest := s[i + |sep|..];
      SplitPiecesAvoidSeparator(rest, sep);
      var head := s[..i];
      forall j | 0 <= j <= |head| - |sep|
        ensures !OccursAt(head, sep, j)
      {
        assert j < i;
        assert !OccursAt(s, sep, j);
        assert head[j..j + |sep|] == s[j..j + |sep|];
      }
  }

  /** A string occurs in any text built around it. */
  lemma ContainsMiddle(a: string, b: string, c: string)
    ensures Contains(a + b + c, b)
  {
    assert (a + b + c)[|a|..|a| + |b|] == b;
    assert OccursAt(a + b + c, b, |a|);
  }

  /** The concatenation of a list of pieces. */
  function Concat(pieces: seq<string>): string
  {
    if pieces == [] then "" else pieces[0] + Concat(pieces[1..])
  }

  /** Concatenating two lists of pieces concatenates their texts. */
  lemma {:induction false} ConcatAppend(a: seq<string>, b: seq<string>)
    ensures Concat(a + b) == Concat(a) + Concat(b)
  {
    if a == [] {
      assert a + b == b;
    } else {
      assert (a + b)[1..] == a[1..] + b;
      ConcatAppend(a[1..], b);
    }
  }

  /** Every piece occurs in the concatenation. */
  lemma ConcatContains(pieces: seq<string>, i: nat)
    requires i < |pieces|
    ensures Contains(Concat(pieces), pieces[i])
  {
    var before := pieces[..i];
    var after := pieces[i + 1..];
    var mid := pieces[i..];
    assert pieces == before + mid;
    assert mid[0] == pieces[i] && mid[1..] == after;
    ConcatAppend(before, mid);
    var a, b, c := Concat(before), pieces[i], Concat(after);
    assert Concat(mid) == b + c;
    AppendAssoc(a, b, c);
    ContainsMiddle(a, b, c);
  }

  lemma AppendAssoc(a: string, b: string, c: string)
    ensures a + (b + c) == a + b + c
  {
  }

  /** An occurrence inside an occurrence is an occurrence. */
  lemma ContainsTrans(a: string, b: string, c: string)
    requires Contains(a, b) && Contains(b, c)
    ensures Contains(a, c)
  {
    var i :| 0 <= i <= |a| && OccursAt(a, b, i);
    var j :| 0 <= j <= |b| && OccursAt(b, c, j);
    assert a[i..i + |b|] == b;
    var inA := a[i + j..i + j + |c|];
    var inB := b[j..j + |c|];
    forall k | 0 <= k < |c| ensures inA[k] == inB[k] {
      assert inA[k] == a[i + j + k] == a[i..i + |b|][j + k];
    }
    assert inA == inB;
    assert OccursAt(a, c, i + j);
  }

  /** A decimal rendering holds no line break, comma or semicolon. */
  lemma IntToStringPlain(n: int)
    ensures '\n' !in IntToString(n) && ',' !in IntToString(n) && ';' !in IntToString(n)
  {
    var r := IntToString(n);
    forall k | 0 <= k < |r| ensures r[k] != '\n' && r[k] != ',' && r[k] != ';' {
    }
  }

  /** The search for a one-character separator stops at its first occurrence. */
  lemma {:induction false} FindFirstChar(s: string, c: char, from: nat, k: nat)
    requires from <= k < |s| && s[k] == c
    requires forall i :: from <= i < k ==> s[i] != c
    ensures FindFrom(s, [c], from) == Some(k)
    decreases k - from
  {
    if from < k {
      assert s[from..from + 1] != [c] by {
        assert s[from..from + 1][0] == s[from];
      }
      FindFirstChar(s, c, from + 1, k);
    } else {
      assert s[from..from + 1] == [c];
    }
  }

  /** The search for a one-character separator fails on a text without it. */
  lemma {:induction false} FindNoChar(s: string, c: char, from: nat)
    requires c !in s
    ensures FindFrom(s, [c], from) == None
    decreases |s| + 1 - from
  {
    if from + 1 <= |s| {
      assert s[from..from + 1] != [c] by {
        assert s[from..from + 1][0] == s[from];
      }
      FindNoChar(s, c, from + 1);
    }
  }

  /** Splitting on a one-character separator undoes joining parts that do not contain it. */
  lemma {:induction false} JoinSplit(c: char, parts: seq<string>)
    requires parts != []
    requires forall p :: p in parts ==> c !in p
    ensures Split(Join([c], parts), [c]) == parts
  {
    var s := Join([c], parts);
    if |parts| == 1 {
      FindNoChar(s, c, 0);
    } else {
      var rest := Join([c], parts[1..]);
      var k := |parts[0]|;
      assert s == parts[0] + [c] + rest;
      assert s[k] == c;
      assert forall i :: 0 <= i < k ==> s[i] == parts[0][i];
      assert forall i :: 0 <= i < k ==> s[i] != c by {
        forall i | 0 <= i < k ensures s[i] != c {
          assert s[i] == parts[0][i] && parts[0] in parts;
        }
      }
      FindFirstChar(s, c, 0, k);
      assert s[..k] == parts[0];
      assert s[k + 1..] == rest;
      assert forall p :: p in parts[1..] ==> p in parts;
      JoinSplit(c, parts[1..]);
      assert parts == [parts[0]] + parts[1..];
    }
  }

  /** A character that is neither in the separator nor in any part is not in the join. */
  lemma {:induction false} JoinAvoidsChar(c: char, sep: string, parts: seq<string>)
    requires c !in sep
    requires forall p :: p in parts ==> c !in p
    ensures c !in Join(sep, parts)
  {
    if |parts| > 1 {
      assert forall p :: p in parts[1..] ==> p in parts;
      JoinAvoidsChar(c, sep, parts[1..]);
      assert parts[0] in parts;
    } else if |parts| == 1 {
      assert parts[0] in parts;
    }
  }

  /** Joining `n` parts that do not contain `c` with a separator holding `c` once puts `c`
      exactly `n - 1` times into the result. */
  lemma {:induction false} JoinCountsChar(c: char, sep: string, parts: seq<string>)
    requires parts != []
    requires CountChar(c, sep) == 1
    requires forall p :: p in parts ==> c !in p
    ensures CountChar(c, Join(sep, parts)) == |parts| - 1
  {
    if |parts| > 1 {
      assert forall p :: p in parts[1..] ==> p in parts;
      JoinCountsChar(c, sep, parts[1..]);
      CountCharAppend(c, parts[0] + sep, Join(sep, parts[1..]));
      CountCharAppend(c, parts[0], sep);
    }
  }

  // ---------------------------------------------------------------------------
  // JavaScript truthiness
  // ---------------------------------------------------------------------------

  /** A possibly missing string is truthy when present and not empty. */
  predicate TruthyString(o: Option<string>)
  {
    o.Some? && o.value != ""
  }

  /** A possibly missing number is truthy when present and not zero. */
  predicate TruthyNumber(o: Option<int>)
  {
    o.Some? && o.value != 0
  }

  /** `a || b` on possibly missing strings. */
  function OrString(a: Option<string>, b: Option<string>): (r: Option<string>)
    ensures TruthyString(r) <==> TruthyString(a) || TruthyString(b)
    ensures TruthyString(a) ==> r == a
  {
    if TruthyString(a) then a else b
  }

  /** `a || b` on possibly missing numbers. */
  function OrNumber(a: Option<int>, b: Option<int>): (r: Option<int>)
    ensures TruthyNumber(r) <==> TruthyNumber(a) || TruthyNumber(b)
    ensures TruthyNumber(a) ==> r == a
  {
    if TruthyNumber(a) then a else b
  }

  /** `a || b` on possibly missing booleans. */
  function OrBool(a: Option<bool>, b: Option<bool>): (r: Option<bool>)
    ensures r == Some(true) <==> a == Some(true) || b == Some(true)
  {
    if a == Some(true) then a else b
  }

  // ---------------------------------------------------------------------------
  // Counting dictionaries
  // ---------------------------------------------------------------------------

  /** The dictionary `counts` built by `counts[k] = (counts[k] || 0) + 1` for every key of `keys`. */
  function CountBy<K>(keys: seq<K>): (m: map<K, nat>)
    ensures m.Keys == set k | k in keys
  {
    if keys == [] then map[]
    else
      var m := CountBy(keys[..|keys| - 1]);
      var k := keys[|keys| - 1];
      assert keys == keys[..|keys| - 1] + [k];
      m[k := if k in m then m[k] + 1 else 1]
  }

  /** Sum of the values of a dictionary (the order of summation does not matter). */
  ghost function SumValues<K>(m: map<K, nat>): nat
    decreases |m|
  {
    if m == map[] then 0
    else
      var k :| k in m;
      m[k] + SumValues(m - {k})
  }

  /** `SumValues` may start from any key. */
  lemma {:induction false} SumValuesAt<K>(m: map<K, nat>, k: K)
    requires k in m
    ensures SumValues(m) == m[k] + SumValues(m - {k})
    decreases |m|
  {
    var j :| j in m && SumValues(m) == m[j] + SumValues(m - {j});
    if j != k {
      var mj := m - {j};
      var mk := m - {k};
      assert |mj| < |m|;
      SumValuesAt(mj, k);
      assert mj - {k} == mk - {j};
      SumValuesAt(mk, j);
    }
  }

  /** Adding one to a key (or creating it with one) adds one to the sum. */
  lemma SumValuesIncrement<K>(m: map<K, nat>, k: K)
    ensures SumValues(m[k := if k in m then m[k] + 1 else 1]) == SumValues(m) + 1
  {
    var m' := m[k := if k in m then m[k] + 1 else 1];
    SumValuesAt(m', k);
    assert m' - {k} == m - {k};
    if k in m {
      SumValuesAt(m, k);
    } else {
      assert m - {k} == m;
    }
  }

  /** The counts of a counting dictionary add up to the number of keys counted. */
  lemma {:induction false} CountBySum<K>(keys: seq<K>)
    ensures SumValues(CountBy(keys)) == |keys|
  {
    if keys != [] {
      CountBySum(keys[..|keys| - 1]);
      SumValuesIncrement(CountBy(keys[..|keys| - 1]), keys[|keys| - 1]);
    }
  }

  /** `d[k] = (d[k] || 0) + 1`. */
  function AddOne<K>(d: map<K, nat>, k: K): (r: map<K, nat>)
    ensures r.Keys == d.Keys + {k}
  {
    d[k := (if k in d then d[k] else 0) + 1]
  }

  /** Counting one more key adds one to its count, creating it at one. */
  lemma CountBySnoc<K>(keys: seq<K>, k: K)
    ensures CountBy(keys + [k]) == AddOne(CountBy(keys), k)
  {
    assert (keys + [k])[..|keys|] == keys;
  }

  /** How many times `k` occurs in `keys`. */
  function Occurrences<K(==)>(keys: seq<K>, k: K): (n: nat)
    ensures n == 0 <==> k !in keys
    ensures n <= |keys|
  {
    if keys == [] then 0
    else
      var init := keys[..|keys| - 1];
      assert keys == init + [keys[|keys| - 1]];
      Occurrences(init, k) + (if keys[|keys| - 1] == k then 1 else 0)
  }

  /** The count of one key is the number of its occurrences. */
  lemma {:induction false} CountByOccurrences<K>(keys: seq<K>, k: K)
    requires k in CountBy(keys)
    ensures CountBy(keys)[k] == Occurrences(keys, k)
  {
    var init := keys[..|keys| - 1];
    if k in CountBy(init) {
      CountByOccurrences(init, k);
    }
  }


  // ---------------------------------------------------------------------------
  // Strictly increasing integer sequences
  // ---------------------------------------------------------------------------

  predicate Increasing(s: seq<int>)
  {
    forall i, j :: 0 <= i < j < |s| ==> s[i] < s[j]
  }

  /** Adds `x` at its place in an increasing sequence, unless it is already there. */
  function InsertSorted(s: seq<int>, x: int): (r: seq<int>)
    requires Increasing(s)
    ensures Increasing(r)
    ensures forall k :: k in r <==> k in s || k == x
  {
    if s == [] then [x]
    else if x < s[0] then [x] + s
    else if x == s[0] then s
    else
      var tail := InsertSorted(s[1..], x);
      forall j | 0 <= j < |tail| ensures s[0] < tail[j] {
        if tail[j] != x {
          assert tail[j] in tail;
          assert tail[j] in s[1..];
          var i :| 0 <= i < |s[1..]| && s[1..][i] == tail[j];
          assert s[i + 1] == tail[j];
        }
      }
      [s[0]] + tail
  }

  /** The distinct values of `xs` in increasing order. */
  function SortedDistinct(xs: seq<int>): (r: seq<int>)
    ensures Increasing(r)
    ensures forall k :: k in r <==> k in xs
  {
    if xs == [] then []
    else
      var init := xs[..|xs| - 1];
      assert xs == init + [xs[|xs| - 1]];
      InsertSorted(SortedDistinct(init), xs[|xs| - 1])
  }
}
