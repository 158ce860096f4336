/**
 * Collision-free key choice for the keyed resource mappings (caches and rate
 * limits): the candidates "example", "example1", ..., "example9999" are tried
 * in order and the first one not already a key wins; when all 10000 are taken
 * the choice fails.
 */
module Keys {

  datatype Option<T> = None | Some(value: T)

  /** The number of candidate keys, the zero-suffix form "example" included. */
  const KeyBound: nat := 10000

  /** The text every candidate key starts with. */
  const KeyPrefix: string := "example"

  /** The decimal digit character for `d`. */
  function DigitChar(d: nat): char
    requires d < 10
  {
    (('0' as int) + d) as char
  }

  /** The decimal form of `n`, without leading zeros (Go's `%v` of an int). */
  function Digits(n: nat): (s: string)
    ensures |s| >= 1
    ensures n < 10 <==> |s| == 1
    decreases n
  {
    if n < 10 then [DigitChar(n)] else Digits(n / 10) + [DigitChar(n % 10)]
  }

  /** Different numbers have different decimal forms. */
  lemma {:induction false} DigitsInjective(a: nat, b: nat)
    requires Digits(a) == Digits(b)
    ensures a == b
    decreases a
  {
    if a >= 10 && b >= 10 {
      var da, db := Digits(a), Digits(b);
      assert da[..|da| - 1] == Digits(a / 10);
      assert db[..|db| - 1] == Digits(b / 10);
      DigitsInjective(a / 10, b / 10);
      assert DigitChar(a % 10) == da[|da| - 1] == db[|db| - 1] == DigitChar(b % 10);
    } else if a < 10 && b < 10 {
      assert Digits(a)[0] == Digits(b)[0];
    }
  }

  /** The `i`-th candidate key: "example" for 0, "example" followed by `i` in decimal otherwise. */
  function Candidate(i: nat): (k: string)
    ensures |k| >= |KeyPrefix| && k[..|KeyPrefix|] == KeyPrefix
    ensures i == 0 <==> k == KeyPrefix
  {
    if i == 0 then KeyPrefix else KeyPrefix + Digits(i)
  }

  /** Different indices give different candidates. */
  lemma CandidateInjective(i: nat, j: nat)
    requires Candidate(i) == Candidate(j)
    ensures i == j
  {
    if i != 0 && j != 0 {
      assert Candidate(i)[|KeyPrefix|..] == Digits(i);
      assert Candidate(j)[|KeyPrefix|..] == Digits(j);
      DigitsInjective(i, j);
    }
  }

  /**
   * The index of the first candidate, from index `from` on and below the
   * bound, that is not in `keys`; None when every such candidate is taken.
   */
  function FirstFreeFrom(keys: set<string>, from: nat): (r: Option<nat>)
    ensures r.Some? ==> from <= r.value < KeyBound && Candidate(r.value) !in keys
    ensures r.Some? ==> forall j :: from <= j < r.value ==> Candidate(j) in keys
    ensures r.None? <==> forall j :: from <= j < KeyBound ==> Candidate(j) in keys
    decreases KeyBound - from
  {
    if from >= KeyBound then None
    else if Candidate(from) !in keys then Some(from)
    else FirstFreeFrom(keys, from + 1)
  }

  /** The index of the first free candidate over the whole candidate range. */
  function FirstFree(keys: set<string>): Option<nat>
  {
    FirstFreeFrom(keys, 0)
  }

  /** The key the first-free rule picks, or "" when every candidate is taken. */
  function ChosenKey(keys: set<string>): string
  {
    match FirstFree(keys)
    case Some(i) => Candidate(i)
    case None => ""
  }

  /**
   * The bounded candidate scan. Returns the first candidate that is not a key
   * of `m`, or "" when all 10000 are keys of `m`; the loop runs at most
   * 10000 times.
   */
  method ChooseKey<V>(m: map<string, V>) returns (id: string)
    ensures id == ChosenKey(m.Keys)
    ensures id == "" <==> forall j :: 0 <= j < KeyBound ==> Candidate(j) in m
    ensures id != "" ==> id !in m
  {
    id := "";
    var i := 0;
    ghost var keys := m.Keys;
    while i < KeyBound
      invariant 0 <= i <= KeyBound
      invariant forall j :: 0 <= j < i ==> Candidate(j) in m
      decreases KeyBound - i
    {
      var candidate := Candidate(i);
      if candidate !in m {
        id := candidate;
        FirstFreeIsFirstGap(keys, i);
        return;
      }
      i := i + 1;
    }
    FirstFreeWhenAllTaken(keys);
  }

  /** A candidate that is free while every earlier one is taken is the first-free choice. */
  lemma FirstFreeIsFirstGap(keys: set<string>, i: nat)
    requires i < KeyBound && Candidate(i) !in keys
    requires forall j :: 0 <= j < i ==> Candidate(j) in keys
    ensures FirstFree(keys) == Some(i)
  {
  }

  lemma FirstFreeWhenAllTaken(keys: set<string>)
    requires forall j :: 0 <= j < KeyBound ==> Candidate(j) in keys
    ensures FirstFree(keys) == None
  {
  }

  /** The candidates with index below `n`. */
  function CandidatesBelow(n: nat): set<string>
  {
    if n == 0 then {} else CandidatesBelow(n - 1) + {Candidate(n - 1)}
  }

  lemma {:induction false} CandidatesBelowExcludes(n: nat, i: nat)
    requires n <= i
    ensures Candidate(i) !in CandidatesBelow(n)
  {
    if n > 0 {
      CandidatesBelowExcludes(n - 1, i);
      if Candidate(n - 1) == Candidate(i) {
        CandidateInjective(n - 1, i);
      }
    }
  }

  /** There are exactly `n` candidates below `n`: candidates never repeat. */
  lemma {:induction false} CandidatesBelowSize(n: nat)
    ensures |CandidatesBelow(n)| == n
  {
    if n > 0 {
      CandidatesBelowSize(n - 1);
      CandidatesBelowExcludes(n - 1, n - 1);
    }
  }

  lemma {:induction false} CandidatesBelowWithin(keys: set<string>, n: nat)
    requires forall j :: 0 <= j < n ==> Candidate(j) in keys
    ensures CandidatesBelow(n) <= keys
  {
    if n > 0 {
      CandidatesBelowWithin(keys, n - 1);
    }
  }

  /** A set holding the first `n` candidates has at least `n` elements. */
  lemma TakenCandidatesCount(keys: set<string>, n: nat)
    requires forall j :: 0 <= j < n ==> Candidate(j) in keys
    ensures n <= |keys|
  {
    CandidatesBelowWithin(keys, n);
    CandidatesBelowSize(n);
    var below := CandidatesBelow(n);
    assert keys == below + (keys - below);
  }

  /** Exhaustion needs at least 10000 keys: a smaller mapping always gets a key. */
  lemma SmallMappingHasFreeKey(keys: set<string>)
    requires |keys| < KeyBound
    ensures FirstFree(keys).Some?
    ensures ChosenKey(keys) != "" && ChosenKey(keys) !in keys
  {
    if FirstFree(keys).None? {
      TakenCandidatesCount(keys, KeyBound);
      assert false;
    }
  }

  /** With all of the first `n` candidates taken (n >= 10000), the choice fails. */
  lemma AllCandidatesTakenIsExhausted(n: nat)
    requires n >= KeyBound
    ensures FirstFree(CandidatesBelow(n)).None?
    ensures ChosenKey(CandidatesBelow(n)) == ""
  {
    forall j | 0 <= j < KeyBound
      ensures Candidate(j) in CandidatesBelow(n)
    {
      CandidatesBelowIncludes(n, j);
    }
  }

  lemma {:induction false} CandidatesBelowIncludes(n: nat, i: nat)
    requires i < n
    ensures Candidate(i) in CandidatesBelow(n)
  {
    if i < n - 1 {
      CandidatesBelowIncludes(n - 1, i);
    }
  }

  /** An empty mapping gets "example"; one holding "example" and "example1" gets "example2". */
  lemma ScenarioKeys()
    ensures ChosenKey({}) == "example"
    ensures ChosenKey({"example", "example1"}) == "example2"
  {
    assert Candidate(1) == "example1" by { assert Digits(1) == "1"; }
    assert Candidate(2) == "example2" by { assert Digits(2) == "2"; }
    var keys: set<string> := {"example", "example1"};
    assert FirstFreeFrom(keys, 2) == Some(2);
    assert FirstFreeFrom(keys, 1) == Some(2);
  }
}
