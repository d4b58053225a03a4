/**
 * Ranking the per-feature importance entries: `Object.entries(...)` sorted
 * by descending importance with a comparator `b - a`. The sort is stable, so
 * entries of equal importance keep their insertion order.
 */
module Ranking {
  import opened Patient

  /** One `[feature, importance]` entry of the importance object, keyed by a record field. */
  datatype FeatureWeight = FeatureWeight(feature: Field, importance: real)

  /** Non-increasing importance from the first entry to the last. */
  predicate Ranked(s: seq<FeatureWeight>) {
    forall i, j :: 0 <= i < j < |s| ==> s[i].importance >= s[j].importance
  }

  /** The entries of `s` whose importance is `v`, in their order in `s`. */
  function WithImportance(s: seq<FeatureWeight>, v: real): seq<FeatureWeight> {
    if s == [] then []
    else (if s[0].importance == v then [s[0]] else []) + WithImportance(s[1..], v)
  }

  lemma {:induction false} WithImportanceMember(s: seq<FeatureWeight>, v: real, e: FeatureWeight)
    ensures e in WithImportance(s, v) <==> e in s && e.importance == v
  {
    if s != [] {
      WithImportanceMember(s[1..], v, e);
      assert s == [s[0]] + s[1..];
    }
  }

  lemma HeadInOwnFilter(s: seq<FeatureWeight>)
    ensures s != [] ==> WithImportance(s, s[0].importance) != []
  {
  }

  /** Filtering a sequence that starts with `x`. */
  lemma WithImportanceCons(x: FeatureWeight, s: seq<FeatureWeight>, v: real)
    ensures WithImportance([x] + s, v) == (if x.importance == v then [x] else []) + WithImportance(s, v)
  {
    assert ([x] + s)[1..] == s;
  }

  /**
   * Places `x` before the first entry of `s` that does not outrank it, so
   * that `x` comes ahead of every entry of equal importance.
   */
  function Insert(x: FeatureWeight, s: seq<FeatureWeight>): seq<FeatureWeight> {
    if s == [] || x.importance >= s[0].importance then [x] + s
    else [s[0]] + Insert(x, s[1..])
  }

  /** One step of `Insert` on a sequence that starts with `y`. */
  lemma InsertCons(x: FeatureWeight, y: FeatureWeight, s: seq<FeatureWeight>)
    ensures Insert(x, [y] + s) == if x.importance >= y.importance then [x, y] + s else [y] + Insert(x, s)
  {
    assert ([y] + s)[1..] == s;
  }

  /** `Insert` places `x` after the entries that outrank it and before the first one that does not. */
  lemma {:induction false} InsertAfterPrefix(x: FeatureWeight, pre: seq<FeatureWeight>, s: seq<FeatureWeight>)
    requires forall i :: 0 <= i < |pre| ==> x.importance < pre[i].importance
    requires s == [] || x.importance >= s[0].importance
    ensures Insert(x, pre + s) == pre + [x] + s
  {
    if pre == [] {
      assert pre + s == s;
    } else {
      InsertAfterPrefix(x, pre[1..], s);
      assert pre + s == [pre[0]] + (pre[1..] + s);
      InsertCons(x, pre[0], pre[1..] + s);
      assert pre + [x] + s == [pre[0]] + (pre[1..] + [x] + s);
    }
  }

  /** Inserting adds `x` and nothing else. */
  lemma {:induction false} InsertPermutes(x: FeatureWeight, s: seq<FeatureWeight>)
    ensures multiset(Insert(x, s)) == multiset(s) + multiset{x}
  {
    if s != [] && x.importance < s[0].importance {
      InsertPermutes(x, s[1..]);
      assert s == [s[0]] + s[1..];
    }
  }

  /** Inserting into a ranked sequence keeps it ranked. */
  lemma {:induction false} InsertKeepsRanked(x: FeatureWeight, s: seq<FeatureWeight>)
    requires Ranked(s)
    ensures Ranked(Insert(x, s))
  {
    if s != [] && x.importance < s[0].importance {
      var rest := Insert(x, s[1..]);
      InsertKeepsRanked(x, s[1..]);
      InsertPermutes(x, s[1..]);
      forall k | 0 <= k < |rest| ensures s[0].importance >= rest[k].importance {
        assert rest[k] in multiset(rest);
        assert rest[k] in multiset(s[1..]) || rest[k] == x;
      }
    }
  }

  /** The entries in the order a stable descending sort leaves them. */
  function RankByImportance(s: seq<FeatureWeight>): seq<FeatureWeight> {
    if s == [] then [] else Insert(s[0], RankByImportance(s[1..]))
  }

  /** The ranking is a permutation of the input. */
  lemma {:induction false} RankingPermutes(s: seq<FeatureWeight>)
    ensures multiset(RankByImportance(s)) == multiset(s)
    ensures |RankByImportance(s)| == |s|
  {
    if s != [] {
      RankingPermutes(s[1..]);
      InsertPermutes(s[0], RankByImportance(s[1..]));
      assert s == [s[0]] + s[1..];
    }
    assert |multiset(RankByImportance(s))| == |multiset(s)|;
  }

  /** The ranking lists importances from the highest to the lowest. */
  lemma {:induction false} RankingIsRanked(s: seq<FeatureWeight>)
    ensures Ranked(RankByImportance(s))
  {
    if s != [] {
      RankingIsRanked(s[1..]);
      InsertKeepsRanked(s[0], RankByImportance(s[1..]));
    }
  }

  lemma {:induction false} InsertWithImportance(x: FeatureWeight, s: seq<FeatureWeight>, v: real)
    ensures WithImportance(Insert(x, s), v)
         == (if x.importance == v then [x] else []) + WithImportance(s, v)
  {
    if s == [] || x.importance >= s[0].importance {
      WithImportanceCons(x, s, v);
    } else {
      InsertWithImportance(x, s[1..], v);
      WithImportanceCons(s[0], Insert(x, s[1..]), v);
      WithImportanceCons(x, s[1..], v);
      assert s == [s[0]] + s[1..];
      WithImportanceCons(s[0], s[1..], v);
    }
  }

  /**
   * Stability: among entries of any one importance, the ranking keeps the
   * order they had in the input.
   */
  lemma {:induction false} RankingIsStable(s: seq<FeatureWeight>, v: real)
    ensures WithImportance(RankByImportance(s), v) == WithImportance(s, v)
  {
    if s != [] {
      RankingIsStable(s[1..], v);
      InsertWithImportance(s[0], RankByImportance(s[1..]), v);
    }
  }

  /**
   * A ranked sequence is determined by its entries of each importance: two
   * ranked sequences that agree on every `WithImportance` are equal.
   */
  lemma {:induction false} RankedIsDetermined(t: seq<FeatureWeight>, u: seq<FeatureWeight>)
    requires Ranked(t) && Ranked(u)
    requires forall v :: WithImportance(t, v) == WithImportance(u, v)
    ensures t == u
  {
    if t == [] && u == [] {
    } else if t == [] || u == [] {
      // the first entry of the non-empty side is in its own filter of that importance, not in the other's
      HeadInOwnFilter(t);
      HeadInOwnFilter(u);
      assert false;
    } else {
      var a, b := t[0].importance, u[0].importance;
      WithImportanceMember(u, b, u[0]);
      WithImportanceMember(t, b, u[0]);
      WithImportanceMember(t, a, t[0]);
      WithImportanceMember(u, a, t[0]);
      assert a == b;
      var ta, ua := WithImportance(t, a), WithImportance(u, a);
      assert ta == [t[0]] + WithImportance(t[1..], a);
      assert ua == [u[0]] + WithImportance(u[1..], a);
      assert t[0] == ta[0] == ua[0] == u[0];
      forall v ensures WithImportance(t[1..], v) == WithImportance(u[1..], v) {
        if v == a {
          assert WithImportance(t[1..], v) == ta[1..] == ua[1..] == WithImportance(u[1..], v);
        } else {
          assert WithImportance(t, v) == WithImportance(t[1..], v);
          assert WithImportance(u, v) == WithImportance(u[1..], v);
        }
      }
      RankedIsDetermined(t[1..], u[1..]);
    }
  }

  /**
   * The ranking is the only ordering of the input that is ranked and keeps
   * the input order among entries of equal importance: any stable
   * descending sort gives this sequence.
   */
  lemma RankingIsUnique(s: seq<FeatureWeight>, t: seq<FeatureWeight>)
    requires Ranked(t)
    requires forall v :: WithImportance(t, v) == WithImportance(s, v)
    ensures t == RankByImportance(s)
  {
    forall v ensures WithImportance(t, v) == WithImportance(RankByImportance(s), v) {
      RankingIsStable(s, v);
    }
    RankingIsRanked(s);
    RankedIsDetermined(t, RankByImportance(s));
  }

  /** An entry that strictly outranks every other entry comes first in the ranking. */
  lemma RankingLeader(s: seq<FeatureWeight>, e: FeatureWeight)
    requires e in s
    requires forall x :: x in s && x != e ==> x.importance < e.importance
    ensures RankByImportance(s) != [] && RankByImportance(s)[0] == e
  {
    var ranked := RankByImportance(s);
    RankingPermutes(s);
    RankingIsRanked(s);
    assert e in multiset(ranked);
    var k :| 0 <= k < |ranked| && ranked[k] == e;
    assert ranked[0] in multiset(s);
  }

  /** `slice(0, 3)`: the first three entries, or all of them when there are fewer. */
  function TopThree(s: seq<FeatureWeight>): (r: seq<FeatureWeight>)
    ensures |r| == if |s| < 3 then |s| else 3
    ensures r <= s
  {
    if |s| <= 3 then s else s[..3]
  }
}
