/** The priority order of the queue (store.ts:54): a copy of the appointments
    sorted with the comparator `(a, b) => b.triageScore - a.triageScore`.
    Array.prototype.sort is stable (ECMA-262, section 23.1.3.30), so the order
    is triageScore descending with equal scores kept in insertion order.
    `SortByScore` is one stable sort (insertion); `StableSortIsUnique` shows
    that every stable descending sort produces the same sequence. */
module QueueOrder {
  import opened ClinicTypes

  /** No record is followed by one with a higher score. */
  predicate ScoreDescending(s: seq<Appointment>) {
    forall i, j :: 0 <= i < j < |s| ==> s[i].triageScore >= s[j].triageScore
  }

  /** The records with score `k`, in the order they occur in `s`. */
  function WithScore(s: seq<Appointment>, k: int): seq<Appointment> {
    if s == [] then []
    else (if s[0].triageScore == k then [s[0]] else []) + WithScore(s[1..], k)
  }

  /** A stable sort of `s` keeps, for every score, the order of the records
      that have that score. */
  ghost predicate StableFor(r: seq<Appointment>, s: seq<Appointment>) {
    forall k :: WithScore(r, k) == WithScore(s, k)
  }

  /** Places `x` before the first record whose score is not higher than its own. */
  function InsertByScore(x: Appointment, s: seq<Appointment>): (r: seq<Appointment>)
    ensures |r| == |s| + 1
  {
    if s == [] || x.triageScore >= s[0].triageScore then [x] + s
    else [s[0]] + InsertByScore(x, s[1..])
  }

  function SortByScore(s: seq<Appointment>): (r: seq<Appointment>)
    ensures |r| == |s|
  {
    if s == [] then [] else InsertByScore(s[0], SortByScore(s[1..]))
  }

  lemma {:induction false} InWithScore(s: seq<Appointment>, k: int, e: Appointment)
    requires e in s && e.triageScore == k
    ensures e in WithScore(s, k)
  {
    assert s == [s[0]] + s[1..];
    if e != s[0] {
      InWithScore(s[1..], k, e);
    }
  }

  lemma {:induction false} WithScoreIn(s: seq<Appointment>, k: int, e: Appointment)
    requires e in WithScore(s, k)
    ensures e in s && e.triageScore == k
  {
    assert s == [s[0]] + s[1..];
    if !(s[0].triageScore == k && e == s[0]) {
      WithScoreIn(s[1..], k, e);
    }
  }

  lemma {:induction false} WithScoreCons(a: Appointment, t: seq<Appointment>, k: int)
    ensures WithScore([a] + t, k) == (if a.triageScore == k then [a] else []) + WithScore(t, k)
  {
    assert ([a] + t)[1..] == t;
  }

  lemma {:induction false} InsertPermutes(x: Appointment, s: seq<Appointment>)
    ensures multiset(InsertByScore(x, s)) == multiset(s) + multiset{x}
  {
    if s != [] && x.triageScore < s[0].triageScore {
      InsertPermutes(x, s[1..]);
      assert s == [s[0]] + s[1..];
    }
  }

  lemma {:induction false} DescendingTail(r: seq<Appointment>)
    requires r != [] && ScoreDescending(r)
    ensures ScoreDescending(r[1..])
  {
    var t := r[1..];
    forall i, j | 0 <= i < j < |t| ensures t[i].triageScore >= t[j].triageScore {
      assert t[i] == r[i + 1] && t[j] == r[j + 1];
    }
  }

  lemma HeadIsMax(r: seq<Appointment>, e: Appointment)
    requires ScoreDescending(r) && e in r
    ensures e.triageScore <= r[0].triageScore
  {
    var i :| 0 <= i < |r| && r[i] == e;
    if i > 0 {
      assert r[0].triageScore >= r[i].triageScore;
    }
  }

  lemma ConsDescending(a: Appointment, t: seq<Appointment>)
    requires ScoreDescending(t)
    requires forall e :: e in t ==> a.triageScore >= e.triageScore
    ensures ScoreDescending([a] + t)
  {
    var r := [a] + t;
    forall i, j | 0 <= i < j < |r| ensures r[i].triageScore >= r[j].triageScore {
      assert r[j] == t[j - 1];
      if i > 0 {
        assert r[i] == t[i - 1];
      } else {
        assert t[j - 1] in t;
      }
    }
  }

  lemma {:induction false} InsertKeepsDescending(x: Appointment, s: seq<Appointment>)
    requires ScoreDescending(s)
    ensures ScoreDescending(InsertByScore(x, s))
  {
    if s == [] || x.triageScore >= s[0].triageScore {
      forall e | e in s ensures x.triageScore >= e.triageScore {
        HeadIsMax(s, e);
      }
      ConsDescending(x, s);
    } else {
      var t := s[1..];
      DescendingTail(s);
      InsertKeepsDescending(x, t);
      var u := InsertByScore(x, t);
      InsertPermutes(x, t);
      forall e | e in u ensures s[0].triageScore >= e.triageScore {
        assert e in multiset(u);
        if e != x {
          assert e in multiset(t);
          assert e in s;
          HeadIsMax(s, e);
        }
      }
      ConsDescending(s[0], u);
    }
  }

  lemma {:induction false} InsertKeepsScoreOrder(x: Appointment, s: seq<Appointment>, k: int)
    requires ScoreDescending(s)
    ensures WithScore(InsertByScore(x, s), k) == (if x.triageScore == k then [x] else []) + WithScore(s, k)
  {
    if s == [] || x.triageScore >= s[0].triageScore {
      WithScoreCons(x, s, k);
    } else {
      var t := s[1..];
      assert ScoreDescending(t) by { DescendingTail(s); }
      assert s == [s[0]] + t;
      InsertKeepsScoreOrder(x, t, k);
      WithScoreCons(s[0], InsertByScore(x, t), k);
      WithScoreCons(s[0], t, k);
    }
  }

  /** The sorted snapshot is a permutation of the appointments. */
  lemma {:induction false} SortPermutes(s: seq<Appointment>)
    ensures multiset(SortByScore(s)) == multiset(s)
    ensures |SortByScore(s)| == |s|
  {
    if s != [] {
      SortPermutes(s[1..]);
      InsertPermutes(s[0], SortByScore(s[1..]));
      assert s == [s[0]] + s[1..];
    }
  }

  /** The sorted snapshot has non-increasing scores. */
  lemma {:induction false} SortIsDescending(s: seq<Appointment>)
    ensures ScoreDescending(SortByScore(s))
  {
    if s != [] {
      SortIsDescending(s[1..]);
      InsertKeepsDescending(s[0], SortByScore(s[1..]));
    }
  }

  /** Records with equal scores keep their insertion order. */
  lemma {:induction false} SortIsStable(s: seq<Appointment>)
    ensures StableFor(SortByScore(s), s)
  {
    if s != [] {
      SortIsStable(s[1..]);
      SortIsDescending(s[1..]);
      forall k ensures WithScore(SortByScore(s), k) == WithScore(s, k) {
        InsertKeepsScoreOrder(s[0], SortByScore(s[1..]), k);
      }
    }
  }

  /** Two arrangements that are both score-descending and agree, score by
      score, on the order of the records are the same sequence: the result of
      a stable sort does not depend on the algorithm. */
  lemma {:induction false} StableSortIsUnique(r1: seq<Appointment>, r2: seq<Appointment>)
    requires ScoreDescending(r1) && ScoreDescending(r2)
    requires forall k :: WithScore(r1, k) == WithScore(r2, k)
    ensures r1 == r2
  {
    if (r1 == []) != (r2 == []) {
      assert false;
    } else if r1 != [] {
      var m1, m2 := r1[0].triageScore, r2[0].triageScore;
      InWithScore(r2, m2, r2[0]);
      assert WithScore(r1, m2) == WithScore(r2, m2);
      WithScoreIn(r1, m2, r2[0]);
      HeadIsMax(r1, r2[0]);
      InWithScore(r1, m1, r1[0]);
      assert WithScore(r1, m1) == WithScore(r2, m1);
      WithScoreIn(r2, m1, r1[0]);
      HeadIsMax(r2, r1[0]);
      var t1, t2 := r1[1..], r2[1..];
      assert r1 == [r1[0]] + t1 && r2 == [r2[0]] + t2;
      WithScoreCons(r1[0], t1, m1);
      WithScoreCons(r2[0], t2, m1);
      assert r1[0] == WithScore(r1, m1)[0] == WithScore(r2, m1)[0] == r2[0];
      forall k ensures WithScore(t1, k) == WithScore(t2, k) {
        WithScoreCons(r1[0], t1, k);
        WithScoreCons(r2[0], t2, k);
        var p := if r1[0].triageScore == k then [r1[0]] else [];
        assert WithScore(t1, k) == (p + WithScore(t1, k))[|p|..];
        assert WithScore(t2, k) == (p + WithScore(t2, k))[|p|..];
      }
      DescendingTail(r1);
      DescendingTail(r2);
      StableSortIsUnique(t1, t2);
    }
  }

  /** Whatever stable algorithm the engine uses, the snapshot equals `SortByScore`. */
  lemma AnyStableSortAgrees(s: seq<Appointment>, r: seq<Appointment>)
    requires ScoreDescending(r) && StableFor(r, s)
    ensures r == SortByScore(s)
  {
    SortIsDescending(s);
    SortIsStable(s);
    StableSortIsUnique(r, SortByScore(s));
  }

  /** Only the score orders the queue: a NORMAL record scored 90 goes ahead of
      a CRITICAL one scored 80, and two records with equal scores keep their
      insertion order whatever their levels. */
  lemma ScoreOnlyExample(n50: Appointment, c80: Appointment, n90: Appointment)
    requires n50.triageLevel == Normal && n50.triageScore == 50
    requires c80.triageLevel == Critical && c80.triageScore == 80
    requires n90.triageLevel == Normal && n90.triageScore == 90
    ensures SortByScore([n50, c80, n90]) == [n90, c80, n50]
  {
    assert [n50, c80, n90][1..] == [c80, n90];
    assert [c80, n90][1..] == [n90];
    assert [n90][1..] == [];
    assert SortByScore([n90]) == [n90];
    assert SortByScore([c80, n90]) == InsertByScore(c80, [n90]) == [n90, c80];
    assert [n90, c80][1..] == [c80];
    assert InsertByScore(n50, [c80]) == [c80, n50];
    assert InsertByScore(n50, [n90, c80]) == [n90] + InsertByScore(n50, [c80]);
  }

  lemma EqualScoresKeepArrival(first: Appointment, second: Appointment)
    requires first.triageScore == second.triageScore
    ensures SortByScore([first, second]) == [first, second]
  {
    assert [first, second][1..] == [second];
    assert [second][1..] == [];
  }
}
