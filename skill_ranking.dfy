/**
 * The skills rule's ranking: `skills.sort((a, b) => b.level - a.level)`
 * followed by `.slice(0, 5)`. ECMAScript requires `Array.prototype.sort` to
 * be stable, so the result is the unique arrangement that is non-increasing
 * in level and keeps skills of equal level in their table order.
 */
module SkillRanking {
  import opened Profile

  /** Non-increasing in level from left to right. */
  ghost predicate ByLevelDescending(s: seq<Skill>) {
    forall i, j :: 0 <= i < j < |s| ==> s[i].level >= s[j].level
  }

  /** The skills of level `v`, in their order in `s`. */
  function AtLevel(s: seq<Skill>, v: int): seq<Skill> {
    if s == [] then []
    else AtLevel(s[..|s| - 1], v) + (if s[|s| - 1].level == v then [s[|s| - 1]] else [])
  }

  /**
   * Inserts `x` after every skill whose level is at least `x.level`: the step
   * the stable sort takes for each next element of the input.
   */
  function InsertByLevel(sorted: seq<Skill>, x: Skill): (r: seq<Skill>)
    ensures |r| == |sorted| + 1
  {
    if sorted == [] then [x]
    else
      var init, last := sorted[..|sorted| - 1], sorted[|sorted| - 1];
      if last.level < x.level then InsertByLevel(init, x) + [last] else sorted + [x]
  }

  /** Insertion adds `x` and loses nothing. */
  lemma {:induction false} InsertPermutes(sorted: seq<Skill>, x: Skill)
    ensures multiset(InsertByLevel(sorted, x)) == multiset(sorted) + multiset{x}
  {
    if sorted != [] {
      var init, last := sorted[..|sorted| - 1], sorted[|sorted| - 1];
      assert sorted == init + [last];
      if last.level < x.level {
        InsertPermutes(init, x);
      }
    }
  }

  /** Inserting into a sorted sequence keeps it sorted. */
  lemma {:induction false} InsertKeepsOrder(sorted: seq<Skill>, x: Skill)
    requires ByLevelDescending(sorted)
    ensures ByLevelDescending(InsertByLevel(sorted, x))
  {
    if sorted != [] {
      var init, last := sorted[..|sorted| - 1], sorted[|sorted| - 1];
      if last.level < x.level {
        assert ByLevelDescending(init);
        InsertKeepsOrder(init, x);
        InsertPermutes(init, x);
        var r' := InsertByLevel(init, x);
        forall i | 0 <= i < |r'| ensures r'[i].level >= last.level {
          assert r'[i] in multiset(init) + multiset{x};
          if r'[i] != x {
            assert r'[i] in init;
            var k :| 0 <= k < |init| && init[k] == r'[i];
            assert sorted[k] == init[k];
          }
        }
        var r := r' + [last];
        forall i, j | 0 <= i < j < |r| ensures r[i].level >= r[j].level {
          if j < |r'| {
            assert r[i] == r'[i] && r[j] == r'[j];
          }
        }
      }
    }
  }

  /** The stable sort by descending level, one insertion per input element. */
  function SortByLevel(s: seq<Skill>): (r: seq<Skill>)
    ensures |r| == |s|
  {
    if s == [] then [] else InsertByLevel(SortByLevel(s[..|s| - 1]), s[|s| - 1])
  }

  /** The sort neither loses nor invents a skill. */
  lemma {:induction false} SortByLevelPermutes(s: seq<Skill>)
    ensures multiset(SortByLevel(s)) == multiset(s)
  {
    if s != [] {
      SortByLevelPermutes(s[..|s| - 1]);
      InsertPermutes(SortByLevel(s[..|s| - 1]), s[|s| - 1]);
      assert s == s[..|s| - 1] + [s[|s| - 1]];
    }
  }

  /** The sort's result is non-increasing in level. */
  lemma {:induction false} SortByLevelSorted(s: seq<Skill>)
    ensures ByLevelDescending(SortByLevel(s))
  {
    if s != [] {
      SortByLevelSorted(s[..|s| - 1]);
      InsertKeepsOrder(SortByLevel(s[..|s| - 1]), s[|s| - 1]);
    }
  }

  lemma AtLevelMember(s: seq<Skill>, v: int, x: Skill)
    requires x in AtLevel(s, v)
    ensures x in s && x.level == v
  {
    if s != [] {
      assert s == s[..|s| - 1] + [s[|s| - 1]];
      if x in AtLevel(s[..|s| - 1], v) {
        AtLevelMember(s[..|s| - 1], v, x);
      }
    }
  }

  lemma {:induction false} AtLevelInsert(sorted: seq<Skill>, x: Skill, v: int)
    ensures AtLevel(InsertByLevel(sorted, x), v)
            == AtLevel(sorted, v) + (if x.level == v then [x] else [])
  {
    if sorted == [] {
      assert [x][..0] == [];
    } else {
      var init, last := sorted[..|sorted| - 1], sorted[|sorted| - 1];
      if last.level < x.level {
        var r' := InsertByLevel(init, x);
        AtLevelInsert(init, x, v);
        assert (r' + [last])[..|r' + [last]| - 1] == r';
      } else {
        assert (sorted + [x])[..|sorted + [x]| - 1] == sorted;
      }
    }
  }

  /** Stability: the skills of each level keep their relative order. */
  lemma {:induction false} SortByLevelStable(s: seq<Skill>, v: int)
    ensures AtLevel(SortByLevel(s), v) == AtLevel(s, v)
  {
    if s != [] {
      SortByLevelStable(s[..|s| - 1], v);
      AtLevelInsert(SortByLevel(s[..|s| - 1]), s[|s| - 1], v);
    }
  }

  /** Sorting an already sorted table leaves it as it is. */
  lemma {:induction false} SortedIsFixpoint(s: seq<Skill>)
    requires ByLevelDescending(s)
    ensures SortByLevel(s) == s
  {
    if s != [] {
      var init := s[..|s| - 1];
      assert ByLevelDescending(init);
      SortedIsFixpoint(init);
      assert s == init + [s[|s| - 1]];
    }
  }

  /** Sorting twice is sorting once, so repeated skills queries rank alike. */
  lemma SortByLevelIdempotent(s: seq<Skill>)
    ensures SortByLevel(SortByLevel(s)) == SortByLevel(s)
  {
    SortByLevelSorted(s);
    SortedIsFixpoint(SortByLevel(s));
  }

  /** A sequence is empty exactly when it has no skill at any level. */
  lemma EmptyIffNoLevels(t: seq<Skill>)
    ensures t == [] <==> forall v :: AtLevel(t, v) == []
  {
    if t != [] {
      var last := t[|t| - 1];
      assert AtLevel(t, last.level) == AtLevel(t[..|t| - 1], last.level) + [last];
      assert AtLevel(t, last.level) != [];
    }
  }

  /** In a sorted sequence no skill ranks below the last one. */
  lemma LastIsLowest(t: seq<Skill>, y: Skill)
    requires ByLevelDescending(t) && y in t
    ensures y.level >= t[|t| - 1].level
  {
    var k :| 0 <= k < |t| && t[k] == y;
    assert k < |t| - 1 ==> t[k].level >= t[|t| - 1].level;
  }

  lemma SortedInit(t: seq<Skill>)
    requires ByLevelDescending(t) && t != []
    ensures ByLevelDescending(t[..|t| - 1])
  {
  }

  /** The last skill of `t1` occurs in `t2`, so it ranks no lower than `t2`'s last. */
  lemma LastRanksAtLeast(t1: seq<Skill>, t2: seq<Skill>)
    requires ByLevelDescending(t2)
    requires t1 != [] && t2 != []
    requires AtLevel(t1, t1[|t1| - 1].level) == AtLevel(t2, t1[|t1| - 1].level)
    ensures t1[|t1| - 1].level >= t2[|t2| - 1].level
  {
    var l1 := t1[|t1| - 1];
    assert l1 in AtLevel(t1, l1.level);
    AtLevelMember(t2, l1.level, l1);
    LastIsLowest(t2, l1);
  }

  /** Sorted sequences with the same skills at every level end in the same skill. */
  lemma SameLast(t1: seq<Skill>, t2: seq<Skill>)
    requires ByLevelDescending(t1) && ByLevelDescending(t2)
    requires t1 != [] && t2 != []
    requires forall v :: AtLevel(t1, v) == AtLevel(t2, v)
    ensures t1[|t1| - 1] == t2[|t2| - 1]
  {
    var l1, l2 := t1[|t1| - 1], t2[|t2| - 1];
    LastRanksAtLeast(t1, t2);
    LastRanksAtLeast(t2, t1);
    var A := AtLevel(t1, l1.level);
    assert A == AtLevel(t1[..|t1| - 1], l1.level) + [l1];
    assert A == AtLevel(t2[..|t2| - 1], l2.level) + [l2];
    assert A[|A| - 1] == l1 && A[|A| - 1] == l2;
  }

  /** Dropping one common last skill keeps the levels equal. */
  lemma SameLevelsInit(i1: seq<Skill>, i2: seq<Skill>, l: Skill)
    requires forall v :: AtLevel(i1 + [l], v) == AtLevel(i2 + [l], v)
    ensures forall v :: AtLevel(i1, v) == AtLevel(i2, v)
  {
    forall v ensures AtLevel(i1, v) == AtLevel(i2, v) {
      var X := if l.level == v then [l] else [];
      assert (i1 + [l])[..|i1 + [l]| - 1] == i1;
      assert (i2 + [l])[..|i2 + [l]| - 1] == i2;
      assert AtLevel(i1 + [l], v) == AtLevel(i1, v) + X;
      assert AtLevel(i2 + [l], v) == AtLevel(i2, v) + X;
      var n := |AtLevel(i1, v)|;
      assert AtLevel(i1, v) == AtLevel(i1 + [l], v)[..n];
      assert AtLevel(i2, v) == AtLevel(i2 + [l], v)[..n];
    }
  }

  /** Two sorted sequences with the same skills at every level are equal. */
  lemma {:induction false} SameLevelsSame(t1: seq<Skill>, t2: seq<Skill>)
    requires ByLevelDescending(t1) && ByLevelDescending(t2)
    requires forall v :: AtLevel(t1, v) == AtLevel(t2, v)
    ensures t1 == t2
    decreases |t1|
  {
    EmptyIffNoLevels(t1);
    EmptyIffNoLevels(t2);
    if t1 != [] {
      SameLast(t1, t2);
      var i1, i2, l := t1[..|t1| - 1], t2[..|t2| - 1], t1[|t1| - 1];
      assert t1 == i1 + [l] && t2 == i2 + [l];
      SameLevelsInit(i1, i2, l);
      SortedInit(t1);
      SortedInit(t2);
      SameLevelsSame(i1, i2);
    }
  }

  /** SortByLevel is non-increasing and keeps every level's skills in order. */
  lemma SortByLevelSpec(s: seq<Skill>)
    ensures ByLevelDescending(SortByLevel(s))
    ensures forall v :: AtLevel(SortByLevel(s), v) == AtLevel(s, v)
  {
    SortByLevelSorted(s);
    forall v ensures AtLevel(SortByLevel(s), v) == AtLevel(s, v) {
      SortByLevelStable(s, v);
    }
  }

  /**
   * SortByLevel is the stable descending sort: the one arrangement that is
   * non-increasing in level and keeps equal levels in their input order.
   */
  lemma StableSortUnique(s: seq<Skill>, t: seq<Skill>)
    requires ByLevelDescending(t)
    requires forall v :: AtLevel(t, v) == AtLevel(s, v)
    ensures t == SortByLevel(s)
  {
    SortByLevelSpec(s);
    SameLevelsSame(t, SortByLevel(s));
  }

  // ---------------------------------------------------------------------
  // The first five of the ranking
  // ---------------------------------------------------------------------

  lemma {:induction false} AtLevelPrefix(t: seq<Skill>, k: nat, v: int)
    requires k <= |t|
    ensures AtLevel(t[..k], v) <= AtLevel(t, v)
  {
    if k < |t| {
      var init := t[..|t| - 1];
      AtLevelPrefix(init, k, v);
      assert init[..k] == t[..k];
    } else {
      assert t[..k] == t;
    }
  }

  /** In a sorted sequence every skill before position `n` outranks every skill from `n` on. */
  lemma PrefixOutranksRest(t: seq<Skill>, n: nat)
    requires ByLevelDescending(t) && n <= |t|
    ensures forall y, i :: y in multiset(t) - multiset(t[..n]) && 0 <= i < n ==> y.level <= t[i].level
  {
    assert t == t[..n] + t[n..];
    assert multiset(t) - multiset(t[..n]) == multiset(t[n..]);
    forall y, i | y in multiset(t[n..]) && 0 <= i < n ensures y.level <= t[i].level {
      assert y in t[n..];
      var j :| 0 <= j < |t[n..]| && t[n..][j] == y;
      assert t[n + j] == y;
    }
  }

  /** `.sort(...).slice(0, 5)`: the first five of the ranking, or all of a shorter table. */
  function TopFive(skills: seq<Skill>): (r: seq<Skill>)
    ensures |r| == if |skills| < 5 then |skills| else 5
  {
    SortByLevel(skills)[..if |skills| < 5 then |skills| else 5]
  }

  /**
   * The top five are highest levels first, taken from the table, with none of
   * the skills left out ranking above one taken, and each level's skills
   * taken in table order.
   */
  lemma TopFiveSpec(skills: seq<Skill>)
    ensures ByLevelDescending(TopFive(skills))
    ensures multiset(TopFive(skills)) <= multiset(skills)
    ensures forall y, i :: y in multiset(skills) - multiset(TopFive(skills)) && 0 <= i < |TopFive(skills)|
              ==> y.level <= TopFive(skills)[i].level
    ensures forall v :: AtLevel(TopFive(skills), v) <= AtLevel(skills, v)
  {
    var sorted := SortByLevel(skills);
    var n := |TopFive(skills)|;
    SortByLevelSpec(skills);
    SortByLevelPermutes(skills);
    assert sorted == sorted[..n] + sorted[n..];
    assert multiset(sorted) == multiset(sorted[..n]) + multiset(sorted[n..]);
    PrefixOutranksRest(sorted, n);
    TopFiveInTableOrder(sorted, skills, n);
  }

  lemma TopFiveInTableOrder(sorted: seq<Skill>, skills: seq<Skill>, n: nat)
    requires n <= |sorted|
    requires forall v :: AtLevel(sorted, v) == AtLevel(skills, v)
    ensures forall v :: AtLevel(sorted[..n], v) <= AtLevel(skills, v)
  {
    forall v ensures AtLevel(sorted[..n], v) <= AtLevel(skills, v) {
      AtLevelPrefix(sorted, n, v);
    }
  }

  // ---------------------------------------------------------------------
  // The sort as the browser runs it: in place on the props array
  // ---------------------------------------------------------------------

  /** Inserting `x` where the backward scan stops. */
  lemma {:induction false} InsertAt(sorted: seq<Skill>, x: Skill, j: nat)
    requires j <= |sorted|
    requires j == 0 || sorted[j - 1].level >= x.level
    requires forall k :: j <= k < |sorted| ==> sorted[k].level < x.level
    ensures InsertByLevel(sorted, x) == sorted[..j] + [x] + sorted[j..]
    decreases |sorted|
  {
    if j == |sorted| {
      assert sorted[..j] == sorted && sorted[j..] == [];
    } else {
      var init, last := sorted[..|sorted| - 1], sorted[|sorted| - 1];
      assert forall k :: j <= k < |init| ==> init[k] == sorted[k];
      InsertAt(init, x, j);
      calc {
        InsertByLevel(sorted, x);
        InsertByLevel(init, x) + [last];
        init[..j] + [x] + init[j..] + [last];
        { assert init[..j] == sorted[..j]; assert init[j..] + [last] == sorted[j..]; }
        sorted[..j] + [x] + sorted[j..];
      }
    }
  }

  /**
   * One step of the sort on a concrete table: once the first k - 1 skills are
   * ranked, the k-th goes in after every skill of at least its level.
   */
  lemma SortStep(s: seq<Skill>, k: nat, sorted: seq<Skill>, j: nat)
    requires 0 < k <= |s|
    requires SortByLevel(s[..k - 1]) == sorted
    requires j <= |sorted|
    requires j == 0 || sorted[j - 1].level >= s[k - 1].level
    requires forall i :: j <= i < |sorted| ==> sorted[i].level < s[k - 1].level
    ensures SortByLevel(s[..k]) == sorted[..j] + [s[k - 1]] + sorted[j..]
  {
    assert s[..k][..k - 1] == s[..k - 1];
    InsertAt(sorted, s[k - 1], j);
  }

  /** Moves `a[i]` left past every lower-level skill of the sorted part `a[..i]`. */
  method InsertIntoSorted(a: array<Skill>, i: nat)
    requires i < a.Length
    modifies a
    ensures a[..i + 1] == InsertByLevel(old(a[..i]), old(a[i]))
    ensures forall k :: i < k < a.Length ==> a[k] == old(a[k])
  {
    ghost var sorted := a[..i];
    var x := a[i];
    var j := i;
    while j > 0 && a[j - 1].level < x.level
      invariant 0 <= j <= i
      invariant forall k :: 0 <= k < j ==> a[k] == sorted[k]
      invariant forall k :: j < k <= i ==> a[k] == sorted[k - 1]
      invariant forall k :: i < k < a.Length ==> a[k] == old(a[k])
      invariant forall k :: j <= k < i ==> sorted[k].level < x.level
    {
      a[j] := a[j - 1];
      j := j - 1;
    }
    assert j == 0 || sorted[j - 1].level >= x.level;
    InsertAt(sorted, x, j);
    a[j] := x;
    ghost var result := sorted[..j] + [x] + sorted[j..];
    forall k | 0 <= k <= i ensures a[k] == result[k] {
      if k < j {
        assert result[k] == sorted[k];
      } else if k > j {
        assert result[k] == sorted[k - 1];
      }
    }
    assert a[..i + 1] == result;
  }

  /** Insertion sort of the array, stable and descending by level. */
  method SortSkillsInPlace(a: array<Skill>)
    modifies a
    ensures a[..] == SortByLevel(old(a[..]))
  {
    var i := 0;
    while i < a.Length
      invariant 0 <= i <= a.Length
      invariant a[..i] == SortByLevel(old(a[..])[..i])
      invariant forall k :: i <= k < a.Length ==> a[k] == old(a[k])
    {
      InsertIntoSorted(a, i);
      assert old(a[..])[..i + 1][..i] == old(a[..])[..i];
      i := i + 1;
    }
    assert old(a[..])[..a.Length] == old(a[..]);
  }
}
