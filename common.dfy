/** Shared wrappers: optional values, fallible results and the sequence helpers the stores use. */
module Common {

  datatype Option<T> = None | Some(value: T)

  /** An `anyhow::Result`: either a value or an error message. */
  datatype Result<T> = Ok(value: T) | Err(error: string)

  /** Position of the first element of `s` satisfying `p` (what `fetch_one` returns). */
  function FirstIndex<T>(s: seq<T>, p: T -> bool): (r: Option<nat>)
    ensures r.Some? ==> r.value < |s| && p(s[r.value])
    ensures r.Some? ==> forall j :: 0 <= j < r.value ==> !p(s[j])
    ensures r.None? <==> forall j :: 0 <= j < |s| ==> !p(s[j])
  {
    if |s| == 0 then None
    else if p(s[0]) then Some(0)
    else match FirstIndex(s[1..], p)
      case None => None
      case Some(k) => Some(k + 1)
  }

  /** The elements of `s` satisfying `p`, in their original order. */
  function Filter<T>(s: seq<T>, p: T -> bool): (r: seq<T>)
    ensures |r| <= |s|
    ensures forall i :: 0 <= i < |r| ==> r[i] in s && p(r[i])
    ensures forall i :: 0 <= i < |s| && p(s[i]) ==> s[i] in r
  {
    if |s| == 0 then []
    else (if p(s[0]) then [s[0]] else []) + Filter(s[1..], p)
  }

  /** `Filter` distributes over concatenation: filtering keeps the relative order of the parts. */
  lemma {:induction false} FilterAppend<T>(a: seq<T>, b: seq<T>, p: T -> bool)
    ensures Filter(a + b, p) == Filter(a, p) + Filter(b, p)
  {
    if |a| > 0 {
      assert (a + b)[1..] == a[1..] + b;
      FilterAppend(a[1..], b, p);
    } else {
      assert a + b == b;
    }
  }

  /** `Filter` keeps every copy of a selected value and no copy of any other. */
  lemma {:induction false} FilterCount<T>(s: seq<T>, p: T -> bool, x: T)
    ensures multiset(Filter(s, p))[x] == if p(x) then multiset(s)[x] else 0
  {
    if |s| > 0 {
      FilterCount(s[1..], p, x);
      assert s == [s[0]] + s[1..];
      assert multiset(s) == multiset([s[0]]) + multiset(s[1..]);
      var head := if p(s[0]) then [s[0]] else [];
      assert multiset(Filter(s, p)) == multiset(head) + multiset(Filter(s[1..], p));
    }
  }

  /** Filtering a sequence with one more element at its end. */
  lemma FilterSnoc<T>(s: seq<T>, x: T, p: T -> bool)
    ensures Filter(s + [x], p) == Filter(s, p) + if p(x) then [x] else []
  {
    FilterAppend(s, [x], p);
    assert [x][1..] == [];
  }

  /** A non-empty sequence is its prefix followed by its last element. */
  lemma SplitLast<T>(s: seq<T>)
    requires |s| > 0
    ensures s == s[..|s| - 1] + [s[|s| - 1]]
    ensures forall j :: 0 <= j < |s| - 1 ==> s[..|s| - 1][j] == s[j]
  {
  }

  /** The number of leading attempts, out of `n`, that succeed: where a run of attempts that stops at the first failure ends. */
  function LeadingSuccesses(ok: nat -> bool, n: nat): (m: nat)
    ensures m <= n
    ensures forall j :: 0 <= j < m ==> ok(j)
    ensures m < n ==> !ok(m)
  {
    LeadingSuccessesFrom(ok, 0, n)
  }

  function LeadingSuccessesFrom(ok: nat -> bool, from: nat, n: nat): (m: nat)
    requires from <= n
    requires forall j :: 0 <= j < from ==> ok(j)
    ensures from <= m <= n
    ensures forall j :: 0 <= j < m ==> ok(j)
    ensures m < n ==> !ok(m)
    decreases n - from
  {
    if from == n || !ok(from) then from else LeadingSuccessesFrom(ok, from + 1, n)
  }

  /** An attempt that succeeds right after a run of successes extends the run. */
  lemma LeadingSuccessesPast(ok: nat -> bool, n: nat, i: nat)
    requires i < n && i <= LeadingSuccesses(ok, n) && ok(i)
    ensures i + 1 <= LeadingSuccesses(ok, n)
  {
  }

  /** The run of successes is determined by where the first failure is. */
  lemma LeadingSuccessesIs(ok: nat -> bool, n: nat, m: nat)
    requires m <= n
    requires forall j :: 0 <= j < m ==> ok(j)
    requires m < n ==> !ok(m)
    ensures LeadingSuccesses(ok, n) == m
  {
  }
}
