/** The counting dictionaries of the selector: an ordered `std::map` from a
    key to an unsigned count, filled by `counts[key]++` and then visited in
    ascending key order. It is modelled as the list of its entries in that
    order, so keys strictly increase along the list. */
module OrderedCounts {

  datatype Entry = Entry(key: nat, count: nat)

  type Counts = seq<Entry>

  /** Keys strictly increase along the list (the map's iteration order). */
  ghost predicate Sorted(m: Counts) {
    forall i, j :: 0 <= i < j < |m| ==> m[i].key < m[j].key
  }

  /** Every entry was created by an increment, so no count is zero. */
  ghost predicate Positive(m: Counts) {
    forall i :: 0 <= i < |m| ==> m[i].count > 0
  }

  ghost predicate WellFormed(m: Counts) {
    Sorted(m) && Positive(m)
  }

  predicate StrictlyIncreasing(s: seq<nat>) {
    forall i, j :: 0 <= i < j < |s| ==> s[i] < s[j]
  }

  function Keys(m: Counts): (r: set<nat>) {
    if m == [] then {} else {m[0].key} + Keys(m[1..])
  }

  /** k is a key exactly when some entry carries it. */
  lemma {:induction false} KeysAt(m: Counts)
    ensures forall k :: k in Keys(m) <==> exists i :: 0 <= i < |m| && m[i].key == k
  {
    if m != [] {
      KeysAt(m[1..]);
      assert forall i :: 1 <= i < |m| ==> m[1..][i - 1] == m[i];
    }
  }

  /** The value `m[k]` reads; a key that is absent reads as 0. */
  function CountOf(m: Counts, k: nat): (r: nat) {
    if m == [] then 0
    else if m[0].key == k then m[0].count
    else CountOf(m[1..], k)
  }

  /** Sum of all counts. */
  function Sum(m: Counts): (r: nat) {
    if m == [] then 0 else m[0].count + Sum(m[1..])
  }

  lemma {:induction false} CountOfAt(m: Counts, i: nat)
    requires Sorted(m) && i < |m|
    ensures CountOf(m, m[i].key) == m[i].count
  {
    if i > 0 {
      assert m[1..][i - 1] == m[i];
      CountOfAt(m[1..], i - 1);
    }
  }

  lemma {:induction false} CountOfAbsent(m: Counts, k: nat)
    requires k !in Keys(m)
    ensures CountOf(m, k) == 0
  {
    if m != [] {
      CountOfAbsent(m[1..], k);
    }
  }

  /** `m[k]++`: a missing key is inserted in key order with count 1, a present
      key has its count incremented; BumpSorted and BumpCounts say that nothing
      else changes. */
  function Bump(m: Counts, k: nat): (r: Counts) {
    if m == [] then [Entry(k, 1)]
    else if k < m[0].key then [Entry(k, 1)] + m
    else if k == m[0].key then [Entry(k, m[0].count + 1)] + m[1..]
    else [m[0]] + Bump(m[1..], k)
  }

  /** `m[k]++` adds k to the keys and one to the total. */
  lemma {:induction false} BumpKeys(m: Counts, k: nat)
    ensures Keys(Bump(m, k)) == Keys(m) + {k}
    ensures Sum(Bump(m, k)) == Sum(m) + 1
  {
    if m != [] && k > m[0].key {
      BumpKeys(m[1..], k);
      assert Bump(m, k)[1..] == Bump(m[1..], k);
    }
  }

  lemma SortedTail(m: Counts)
    requires Sorted(m) && m != []
    ensures Sorted(m[1..])
    ensures forall x :: x in Keys(m[1..]) ==> m[0].key < x
  {
    KeysAt(m[1..]);
    assert forall i :: 0 <= i < |m[1..]| ==> m[1..][i] == m[i + 1];
  }

  /** Putting an entry whose key is below every key in front of a sorted list
      keeps it sorted. */
  lemma PrependSorted(e: Entry, m: Counts)
    requires WellFormed(m) && e.count > 0
    requires forall x :: x in Keys(m) ==> e.key < x
    ensures WellFormed([e] + m)
  {
    var r := [e] + m;
    KeysAt(m);
    forall i, j | 0 <= i < j < |r| ensures r[i].key < r[j].key {
      assert r[j] == m[j - 1];
      if i > 0 {
        assert r[i] == m[i - 1];
      } else {
        assert m[j - 1].key in Keys(m);
      }
    }
  }

  lemma {:induction false} BumpSorted(m: Counts, k: nat)
    requires WellFormed(m)
    ensures WellFormed(Bump(m, k))
  {
    if m == [] {
    } else if k < m[0].key {
      SortedTail(m);
      PrependSorted(Entry(k, 1), m);
    } else if k == m[0].key {
      SortedTail(m);
      PrependSorted(Entry(k, m[0].count + 1), m[1..]);
    } else {
      SortedTail(m);
      BumpSorted(m[1..], k);
      BumpKeys(m[1..], k);
      PrependSorted(m[0], Bump(m[1..], k));
    }
  }

  lemma BumpLength(m: Counts, k: nat)
    requires Sorted(m)
    ensures |Bump(m, k)| == if k in Keys(m) then |m| else |m| + 1
  {
    if m != [] && k > m[0].key {
      SortedTail(m);
      BumpLength(m[1..], k);
    } else if m != [] && k < m[0].key {
      SortedTail(m);
    }
  }

  lemma {:induction false} BumpCounts(m: Counts, k: nat)
    requires WellFormed(m)
    ensures forall j :: CountOf(Bump(m, k), j) == CountOf(m, j) + (if j == k then 1 else 0)
  {
    if m == [] {
    } else if k < m[0].key {
      SortedTail(m);
      CountOfAbsent(m, k);
      assert Bump(m, k)[1..] == m;
    } else if k == m[0].key {
      SortedTail(m);
      CountOfAbsent(m[1..], k);
      assert Bump(m, k)[1..] == m[1..];
    } else {
      SortedTail(m);
      BumpCounts(m[1..], k);
      assert Bump(m, k)[1..] == Bump(m[1..], k);
    }
  }

  /** The counts left by `counts[x]++` for each x of s in turn, starting from
      the empty map; TallyCounts says what they are. */
  function Tally(s: seq<nat>): (r: Counts) {
    if s == [] then [] else Bump(Tally(s[..|s| - 1]), s[|s| - 1])
  }

  /** Each key of s with its number of occurrences, and nothing else; the
      counts add up to the length of s. */
  lemma {:induction false} TallyCounts(s: seq<nat>)
    ensures WellFormed(Tally(s))
    ensures Sum(Tally(s)) == |s|
    ensures Keys(Tally(s)) == set x | x in s
    ensures forall k :: CountOf(Tally(s), k) == multiset(s)[k]
  {
    if s != [] {
      var init := s[..|s| - 1];
      var x := s[|s| - 1];
      assert s == init + [x];
      assert (set y | y in s) == (set y | y in init) + {x};
      TallyCounts(init);
      BumpKeys(Tally(init), x);
      BumpSorted(Tally(init), x);
      BumpCounts(Tally(init), x);
    }
  }

  lemma TallyAppend(s: seq<nat>, x: nat)
    ensures Tally(s + [x]) == Bump(Tally(s), x)
  {
    assert (s + [x])[..|s|] == s;
  }

  /** A sorted list has as many entries as distinct keys. */
  lemma {:induction false} SortedDistinct(m: Counts)
    requires Sorted(m)
    ensures |Keys(m)| == |m|
  {
    if m != [] {
      assert Sorted(m[1..]) by {
        assert forall i :: 0 <= i < |m[1..]| ==> m[1..][i] == m[i + 1];
      }
      SortedDistinct(m[1..]);
      SortedTail(m);
    }
  }

  /** The largest count, found as the selector's loop finds it: starting from
      0 and keeping any count greater than the best so far. MaxCountIsMax
      says what it is. */
  function MaxCount(m: Counts): (r: nat) {
    if m == [] then 0
    else
      var best := MaxCount(m[..|m| - 1]);
      if m[|m| - 1].count > best then m[|m| - 1].count else best
  }

  /** No count exceeds MaxCount, and some entry reaches it unless the map
      is empty, where it is 0. */
  lemma {:induction false} MaxCountIsMax(m: Counts)
    ensures forall i :: 0 <= i < |m| ==> m[i].count <= MaxCount(m)
    ensures m == [] ==> MaxCount(m) == 0
    ensures m != [] ==> exists i :: 0 <= i < |m| && m[i].count == MaxCount(m)
  {
    if m != [] {
      var init := m[..|m| - 1];
      MaxCountIsMax(init);
      assert forall i :: 0 <= i < |init| ==> init[i] == m[i];
      if init != [] && m[|m| - 1].count <= MaxCount(init) {
        var i :| 0 <= i < |init| && init[i].count == MaxCount(init);
        assert m[i].count == MaxCount(m);
      }
    }
  }

  /** The keys whose count is c, in the map's order; WithCountMembers says
      which they are. */
  function WithCount(m: Counts, c: nat): (r: seq<nat>) {
    if m == [] then []
    else
      var last := m[|m| - 1];
      WithCount(m[..|m| - 1], c) + (if last.count == c then [last.key] else [])
  }

  /** The keys with count c and no others, no more of them than entries,
      and in increasing order when the map is sorted. */
  lemma {:induction false} WithCountMembers(m: Counts, c: nat)
    ensures |WithCount(m, c)| <= |m|
    ensures forall k :: k in WithCount(m, c) <==> exists i :: 0 <= i < |m| && m[i].key == k && m[i].count == c
    ensures Sorted(m) ==> StrictlyIncreasing(WithCount(m, c))
  {
    if m != [] {
      var init := m[..|m| - 1];
      var last := m[|m| - 1];
      var front := WithCount(init, c);
      WithCountMembers(init, c);
      assert forall i :: 0 <= i < |init| ==> init[i] == m[i];
      var r := WithCount(m, c);
      assert r == front + (if last.count == c then [last.key] else []);
      if Sorted(m) {
        assert Sorted(init);
        forall i, j | 0 <= i < j < |r| ensures r[i] < r[j] {
          if j >= |front| {
            assert r[i] in front;
          }
        }
      }
    }
  }

  lemma MaxCountStep(m: Counts, i: nat)
    requires i < |m|
    ensures MaxCount(m[..i + 1]) == if m[i].count > MaxCount(m[..i]) then m[i].count else MaxCount(m[..i])
  {
    assert m[..i + 1][..i] == m[..i];
  }

  lemma WithCountStep(m: Counts, c: nat, i: nat)
    requires i < |m|
    ensures WithCount(m[..i + 1], c) == WithCount(m[..i], c) + (if m[i].count == c then [m[i].key] else [])
  {
    assert m[..i + 1][..i] == m[..i];
  }
}
