/** The commit point: element n/2 of the ascending match table, and why two quorums meet. */
module Quorum {

  function Insert(x: int, s: seq<int>): (r: seq<int>)
    ensures |r| == |s| + 1
  {
    if s == [] || x <= s[0] then [x] + s else [s[0]] + Insert(x, s[1..])
  }

  function Sort(s: seq<int>): (r: seq<int>)
    ensures |r| == |s|
  {
    if s == [] then [] else Insert(s[0], Sort(s[1..]))
  }

  predicate Ascending(s: seq<int>) {
    forall i, j :: 0 <= i < j < |s| ==> s[i] <= s[j]
  }

  // The index that the leader may commit up to.
  function MajorityIndex(matches: seq<int>): int
    requires |matches| > 0
  {
    Sort(matches)[|matches| / 2]
  }

  function CountAtLeast(s: seq<int>, x: int): (c: nat)
    ensures c <= |s|
  {
    if s == [] then 0 else (if s[0] >= x then 1 else 0) + CountAtLeast(s[1..], x)
  }

  // The servers whose match index is at least x.
  ghost function AtLeast(matches: seq<int>, x: int): set<nat> {
    set p: nat | p < |matches| && matches[p] >= x
  }

  lemma {:induction false} InsertKeepsOrder(x: int, s: seq<int>)
    requires Ascending(s)
    ensures Ascending(Insert(x, s))
    ensures forall v :: v in Insert(x, s) ==> v == x || v in s
  {
    if s != [] && x > s[0] {
      InsertKeepsOrder(x, s[1..]);
      var r := Insert(x, s[1..]);
      forall k | 0 <= k < |r| ensures s[0] <= r[k] {
        assert r[k] in r;
      }
    }
  }

  lemma {:induction false} SortIsAscending(s: seq<int>)
    ensures Ascending(Sort(s))
  {
    if s != [] {
      SortIsAscending(s[1..]);
      InsertKeepsOrder(s[0], Sort(s[1..]));
    }
  }

  lemma {:induction false} InsertCount(y: int, s: seq<int>, x: int)
    ensures CountAtLeast(Insert(y, s), x) == CountAtLeast([y], x) + CountAtLeast(s, x)
  {
    if s == [] || y <= s[0] {
      assert ([y] + s)[1..] == s;
    } else {
      InsertCount(y, s[1..], x);
      assert ([s[0]] + Insert(y, s[1..]))[1..] == Insert(y, s[1..]);
    }
  }

  lemma {:induction false} SortCount(s: seq<int>, x: int)
    ensures CountAtLeast(Sort(s), x) == CountAtLeast(s, x)
  {
    if s != [] {
      SortCount(s[1..], x);
      InsertCount(s[0], Sort(s[1..]), x);
    }
  }

  // In an ascending table the values >= x fill the tail.
  lemma {:induction false} AscendingCount(s: seq<int>, x: int, k: nat)
    requires Ascending(s) && k < |s|
    ensures CountAtLeast(s, x) >= |s| - k <==> s[k] >= x
  {
    if s[0] >= x {
      AllCount(s, x);
    } else if k > 0 {
      AscendingCount(s[1..], x, k - 1);
    }
  }

  lemma {:induction false} AllCount(s: seq<int>, x: int)
    requires forall i :: 0 <= i < |s| ==> s[i] >= x
    ensures CountAtLeast(s, x) == |s|
  {
    if s != [] {
      AllCount(s[1..], x);
    }
  }

  lemma {:induction false} CountIsCardinality(s: seq<int>, x: int)
    ensures |AtLeast(s, x)| == CountAtLeast(s, x)
  {
    if s == [] {
      assert AtLeast(s, x) == {};
    } else {
      var last := |s| - 1;
      CountIsCardinality(s[..last], x);
      CountSplit(s[..last], [s[last]], x);
      assert s[..last] + [s[last]] == s;
      assert AtLeast(s, x) == AtLeast(s[..last], x) + (if s[last] >= x then {last} else {});
    }
  }

  lemma {:induction false} CountSplit(a: seq<int>, b: seq<int>, x: int)
    ensures CountAtLeast(a + b, x) == CountAtLeast(a, x) + CountAtLeast(b, x)
  {
    if a == [] {
      assert a + b == b;
    } else {
      assert (a + b)[1..] == a[1..] + b;
      CountSplit(a[1..], b, x);
    }
  }

  // Element n/2 of the sorted table is exactly the largest index that n - n/2 servers have reached.
  lemma {:induction false} MajorityIndexIsExact(matches: seq<int>, x: int)
    requires |matches| > 0
    ensures |AtLeast(matches, x)| >= |matches| - |matches| / 2 <==> x <= MajorityIndex(matches)
  {
    SortIsAscending(matches);
    SortCount(matches, x);
    AscendingCount(Sort(matches), x, |matches| / 2);
    CountIsCardinality(matches, x);
  }

  lemma {:induction false} SubsetOfRange(a: set<nat>, n: nat)
    requires forall p :: p in a ==> p < n
    ensures |a| <= n
  {
    if n == 0 {
      assert a == {};
    } else {
      SubsetOfRange(a - {n - 1}, n - 1);
      if n - 1 in a {
        assert a == (a - {n - 1}) + {n - 1};
      } else {
        assert a == a - {n - 1};
      }
    }
  }

  // Two sets of servers that together have more than n members share one. A commit set of
  // n - n/2 servers and a vote set of more than n/2 servers do, for odd and even n.
  lemma {:induction false} QuorumsMeet(a: set<nat>, b: set<nat>, n: nat) returns (v: nat)
    requires forall p :: p in a ==> p < n
    requires forall p :: p in b ==> p < n
    requires |a| + |b| > n
    ensures v in a && v in b
  {
    if a * b == {} {
      assert |a + b| == |a| + |b|;
      SubsetOfRange(a + b, n);
    }
    v :| v in a * b;
  }
}
