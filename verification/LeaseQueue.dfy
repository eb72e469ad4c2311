/**
 Both queues hand out rows the same way: `ORDER BY due, id LIMIT n`, then a lease on what
 was taken. This module says which rows that is.
 */
module LeaseQueue {
  import opened Values

  function Later(a: Time, b: Time): Time { if a < b then b else a }

  // ORDER BY due ASC, id ASC
  predicate Before(due: map<int, Time>, a: int, b: int)
    requires a in due && b in due
  {
    due[a] < due[b] || (due[a] == due[b] && a < b)
  }

  function Ahead(due: map<int, Time>, eligible: set<int>, id: int): set<int>
    requires id in due && eligible <= due.Keys
  {
    set other | other in eligible && Before(due, other, id)
  }

  // A row is taken exactly when fewer than `limit` eligible rows come before it.
  function Taken(due: map<int, Time>, eligible: set<int>, limit: int): set<int>
    requires eligible <= due.Keys
  {
    set id | id in eligible && |Ahead(due, eligible, id)| < limit
  }

  predicate IsNext(due: map<int, Time>, rest: set<int>, id: int)
    requires rest <= due.Keys
  {
    id in rest && forall other | other in rest && other != id :: Before(due, id, other)
  }

  lemma {:induction false} FirstExists(due: map<int, Time>, rest: set<int>, some: int) returns (first: int)
    requires some in rest && rest <= due.Keys
    ensures IsNext(due, rest, first)
  {
    first := some;
    var others := rest - {some};
    assert forall other | other in rest :: other == some || other in others;
    if next :| next in others {
      var best := FirstExists(due, others, next);
      if Before(due, best, some) { first := best; }
    }
  }

  // No lease, or one that has run out.
  predicate Free(leaseUntil: Option<Time>, now: Time) {
    leaseUntil.None? || leaseUntil.value <= now
  }

  // Every row of `taken` comes before every eligible row outside it.
  predicate Cut(due: map<int, Time>, eligible: set<int>, taken: set<int>)
    requires eligible <= due.Keys
  {
    taken <= eligible && forall a, b | a in taken && b in eligible && b !in taken :: Before(due, a, b)
  }

  // Taking the first row again and again gives `Taken`.
  method TakeFirst(due: map<int, Time>, eligible: set<int>, limit: int) returns (ids: seq<int>)
    requires eligible <= due.Keys
    ensures forall i | 0 <= i < |ids| :: ids[i] in Taken(due, eligible, limit)
    ensures forall id | id in Taken(due, eligible, limit) :: id in ids
    ensures forall i, j | 0 <= i < j < |ids| :: ids[i] != ids[j]
    ensures |ids| == 0 || |ids| <= limit
  {
    ids := [];
    var rest := eligible;
    ghost var taken: set<int> := {};
    while |ids| < limit
      invariant forall id :: id in ids <==> id in taken
      invariant |taken| == |ids|
      invariant rest == eligible - taken && Cut(due, eligible, taken)
      invariant forall i, j | 0 <= i < j < |ids| :: ids[i] != ids[j]
      invariant |ids| == 0 || |ids| <= limit
      decreases rest
    {
      if some :| some in rest {
        ghost var witnessed := FirstExists(due, rest, some);
        var first :| first in rest && IsNext(due, rest, first);
        rest := rest - {first};
        CutGrows(due, eligible, taken, first);
        ids, taken := ids + [first], taken + {first};
      } else {
        forall id | id in eligible ensures id in taken {
          assert id in taken || id in rest;
        }
        break;
      }
    }
    CutIsTaken(due, eligible, limit, taken);
  }

  lemma CutGrows(due: map<int, Time>, eligible: set<int>, taken: set<int>, first: int)
    requires eligible <= due.Keys && Cut(due, eligible, taken) && IsNext(due, eligible - taken, first)
    ensures Cut(due, eligible, taken + {first})
  {
    forall a, b | a in taken + {first} && b in eligible && b !in taken + {first} ensures Before(due, a, b) {
      assert b in eligible - taken;
    }
  }

  // Whoever splits the eligible rows in two, all of the first part before all of the second,
  // with `limit` rows in the first part or none left in the second, has found `Taken`.
  lemma CutIsTaken(due: map<int, Time>, eligible: set<int>, limit: int, taken: set<int>)
    requires eligible <= due.Keys && Cut(due, eligible, taken)
    requires |taken| >= limit || forall id | id in eligible :: id in taken
    requires |taken| == 0 || |taken| <= limit
    ensures taken == Taken(due, eligible, limit)
  {
    forall id | id in eligible
      ensures id in taken <==> |Ahead(due, eligible, id)| < limit
    {
      var ahead := Ahead(due, eligible, id);
      if id in taken {
        forall other | other in ahead ensures other in taken - {id} {}
        SubsetIsSmaller(ahead, taken - {id});
      } else {
        assert taken <= ahead;
        SubsetIsSmaller(taken, ahead);
      }
    }
  }

  lemma SameIds(a: set<int>, b: set<int>)
    requires forall id :: id in a <==> id in b
    ensures a == b
  {
    assert forall id | id in a :: id in b;
    assert forall id | id in b :: id in a;
  }

  lemma SubsetIsSmaller(a: set<int>, b: set<int>)
    requires a <= b
    ensures |a| <= |b|
  {
    assert b == a + (b - a);
  }

  lemma DisjointCount(a: set<int>, b: set<int>, c: set<int>)
    requires forall x | x in a :: x in b && x !in c
    requires forall x | x in c :: x in b
    ensures |a| + |c| <= |b|
  {
    assert a !! c by {
      assert forall x | x in a :: x !in c;
    }
    assert |a + c| == |a| + |c|;
    assert a + c <= b by {
      assert forall x | x in a + c :: x in b;
    }
    SubsetIsSmaller(a + c, b);
  }

  // What the query promises: at most `limit` rows, each of them due before every row it
  // leaves, and none left while there was room.
  lemma TakenIsFair(due: map<int, Time>, eligible: set<int>, limit: int)
    requires eligible <= due.Keys && limit >= 0
    ensures var taken := Taken(due, eligible, limit);
      && |taken| <= limit
      && Cut(due, eligible, taken)
      && (|taken| == limit || forall id | id in eligible :: id in taken)
  {
    var taken := FirstOnes(due, eligible, limit);
    CutIsTaken(due, eligible, limit, taken);
  }

  // The rows one by one, as a proof that a fair cut exists.
  lemma {:induction false} FirstOnes(due: map<int, Time>, eligible: set<int>, limit: int) returns (taken: set<int>)
    requires eligible <= due.Keys && limit >= 0
    ensures |taken| <= limit && Cut(due, eligible, taken)
    ensures |taken| == limit || forall id | id in eligible :: id in taken
    decreases limit
  {
    taken := {};
    if limit > 0 {
      if some :| some in eligible {
        var first := FirstExists(due, eligible, some);
        var rest := FirstOnes(due, eligible - {first}, limit - 1);
        taken := rest + {first};
        forall a, b | a in taken && b in eligible && b !in taken ensures Before(due, a, b) {
          assert b in eligible - {first};
        }
      }
    }
  }
}
