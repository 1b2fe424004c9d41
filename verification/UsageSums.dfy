/** Token and cost totals, and sums of them over tables. */
module UsageSums {

  /** The additive columns of an event, a rollup row or a daily row. */
  datatype Usage = Usage(
    count: int, input: int, output: int, cacheRead: int,
    cache5m: int, cache1h: int, reasoning: int, cost: int)
  {
    function Plus(o: Usage): Usage {
      Usage(count + o.count, input + o.input, output + o.output, cacheRead + o.cacheRead,
            cache5m + o.cache5m, cache1h + o.cache1h, reasoning + o.reasoning, cost + o.cost)
    }
  }

  lemma PlusLaws(a: Usage, b: Usage, c: Usage)
    ensures a.Plus(b.Plus(c)) == b.Plus(a.Plus(c)) == a.Plus(b).Plus(c)
    ensures a.Plus(ZERO) == ZERO.Plus(a) == a
  {}

  const ZERO := Usage(0, 0, 0, 0, 0, 0, 0, 0)

  /** A table less one key. */
  function Drop<K, V>(m: map<K, V>, k: K): (r: map<K, V>)
    ensures k in m ==> |r| == |m| - 1
  {
    if k in m then DropSize(m, k); map j | j in m && j != k :: m[j]
    else m
  }

  lemma DropSize<K, V>(m: map<K, V>, k: K)
    requires k in m
    ensures |map j | j in m && j != k :: m[j]| == |m| - 1
  {
    var r := map j | j in m && j != k :: m[j];
    assert r.Keys == m.Keys - {k};
    assert |r.Keys| == |m.Keys| - 1;
  }

  lemma DropCommutes<K, V>(m: map<K, V>, j: K, k: K)
    ensures Drop(Drop(m, j), k) == Drop(Drop(m, k), j)
  {}

  /** Sum of every value of a table. The order of summation is immaterial, see SumDrop. */
  ghost function Sum<K>(m: map<K, Usage>): Usage
    decreases |m|
  {
    if m == map[] then ZERO
    else
      var k :| k in m;
      m[k].Plus(Sum(Drop(m, k)))
  }

  /** Any entry can be taken out first. */
  lemma {:induction false} SumDrop<K>(m: map<K, Usage>, k: K)
    requires k in m
    ensures Sum(m) == m[k].Plus(Sum(Drop(m, k)))
    decreases |m|
  {
    var j :| j in m && Sum(m) == m[j].Plus(Sum(Drop(m, j)));
    if j != k {
      SumDrop(Drop(m, j), k);
      SumDrop(Drop(m, k), j);
      DropCommutes(m, j, k);
      PlusLaws(m[j], m[k], Sum(Drop(Drop(m, j), k)));
    }
  }

  lemma SumInsert<K>(m: map<K, Usage>, k: K, u: Usage)
    requires k !in m
    ensures Sum(m[k := u]) == Sum(m).Plus(u)
  {
    SumDrop(m[k := u], k);
    assert Drop(m[k := u], k) == m;
  }

  /** `whole` consists of the two disjoint tables `a` and `b`. */
  ghost predicate Splits<K, V>(whole: map<K, V>, a: map<K, V>, b: map<K, V>) {
    && (forall k <- whole :: k in a || k in b)
    && (forall k <- a :: k in whole && whole[k] == a[k] && k !in b)
    && (forall k <- b :: k in whole && whole[k] == b[k])
  }

  lemma SplitsDrop<K, V>(whole: map<K, V>, a: map<K, V>, b: map<K, V>, k: K)
    requires Splits(whole, a, b) && k in a
    ensures Splits(Drop(whole, k), Drop(a, k), b)
  {}

  lemma {:induction false} SumSplits<K>(whole: map<K, Usage>, a: map<K, Usage>, b: map<K, Usage>)
    requires Splits(whole, a, b)
    ensures Sum(whole) == Sum(a).Plus(Sum(b))
    decreases |a|
  {
    if a == map[] {
      assert whole == b;
      PlusLaws(Sum(b), ZERO, ZERO);
    } else {
      var k :| k in a;
      SplitsDrop(whole, a, b, k);
      SumSplits(Drop(whole, k), Drop(a, k), b);
      SumDrop(a, k);
      SumDrop(whole, k);
      PlusLaws(a[k], Sum(Drop(a, k)), Sum(b));
    }
  }

  /** The part of a table whose keys are sent to `g`. */
  ghost function Group<K, G>(m: map<K, Usage>, tag: map<K, G>, g: G): map<K, Usage> {
    map k | k in m && k in tag && tag[k] == g :: m[k]
  }

  /** What is not in group `g`. */
  ghost function Others<K, G>(m: map<K, Usage>, tag: map<K, G>, g: G): map<K, Usage> {
    map k | k in m && !(k in tag && tag[k] == g) :: m[k]
  }

  lemma GroupOfOthers<K, G>(m: map<K, Usage>, tag: map<K, G>, g: G, h: G)
    requires g != h
    ensures Group(Others(m, tag, g), tag, h) == Group(m, tag, h)
  {}

  lemma SplitOffGroup<K, G>(m: map<K, Usage>, tag: map<K, G>, g: G)
    ensures Sum(m) == Sum(Group(m, tag, g)).Plus(Sum(Others(m, tag, g)))
  {
    SumSplits(m, Group(m, tag, g), Others(m, tag, g));
  }

  /** Grouping loses nothing: the group totals add up to the grand total. */
  lemma {:induction false} SumOfGroups<K, G>(m: map<K, Usage>, tag: map<K, G>, totals: map<G, Usage>)
    requires forall k <- m :: k in tag && tag[k] in totals
    requires forall g <- totals :: totals[g] == Sum(Group(m, tag, g))
    ensures Sum(totals) == Sum(m)
    decreases |totals|
  {
    if totals == map[] {
      assert m == map[];
    } else {
      var g :| g in totals;
      var others := Others(m, tag, g);
      var rest := Drop(totals, g);
      forall h <- rest ensures rest[h] == Sum(Group(others, tag, h)) {
        GroupOfOthers(m, tag, g, h);
      }
      SumOfGroups(others, tag, rest);
      SumDrop(totals, g);
      SplitOffGroup(m, tag, g);
    }
  }

  /** `SELECT g, SUM(…) … GROUP BY g`, with a row for every `g` asked for. */
  ghost function GroupBy<K, G>(m: map<K, Usage>, tag: map<K, G>, groups: set<G>): map<G, Usage> {
    map g | g in groups :: Sum(Group(m, tag, g))
  }

  lemma GroupByAddsUp<K, G>(m: map<K, Usage>, tag: map<K, G>, groups: set<G>)
    requires forall k <- m :: k in tag && tag[k] in groups
    ensures Sum(GroupBy(m, tag, groups)) == Sum(m)
  {
    SumOfGroups(m, tag, GroupBy(m, tag, groups));
  }

  /** A part of a table of non-negative costs costs no more than the whole. */
  lemma CostOfPart<K>(part: map<K, Usage>, whole: map<K, Usage>)
    requires part.Keys <= whole.Keys && forall k <- part :: part[k] == whole[k]
    requires forall k <- whole :: whole[k].cost >= 0
    ensures 0 <= Sum(part).cost <= Sum(whole).cost
  {
    var rest := map k | k in whole && k !in part :: whole[k];
    assert Splits(whole, part, rest);
    SumSplits(whole, part, rest);
    CostNonNegative(part);
    CostNonNegative(rest);
  }

  lemma {:induction false} CostNonNegative<K>(m: map<K, Usage>)
    requires forall k <- m :: m[k].cost >= 0
    ensures Sum(m).cost >= 0
    decreases |m|
  {
    if m == map[] {
    } else {
      var k :| k in m;
      CostNonNegative(Drop(m, k));
      SumDrop(m, k);
    }
  }

  lemma {:induction false} CountIsSize<K>(m: map<K, Usage>)
    requires forall k <- m :: m[k].count == 1
    ensures Sum(m).count == |m|
    decreases |m|
  {
    if m == map[] {
    } else {
      var k :| k in m;
      CountIsSize(Drop(m, k));
      SumDrop(m, k);
    }
  }

  // ---- column by column ----------------------------------------------------

  ghost function SomeKey<K>(m: map<K, int>): (k: K)
    requires m != map[]
    ensures k in m
  {
    var k :| k in m; k
  }

  /** Sum of every value of a table of numbers. */
  ghost function SumInts<K>(m: map<K, int>): int
    decreases |m|
  {
    if m == map[] then 0 else m[SomeKey(m)] + SumInts(Drop(m, SomeKey(m)))
  }

  lemma {:induction false} SumIntsDrop<K>(m: map<K, int>, k: K)
    requires k in m
    ensures SumInts(m) == m[k] + SumInts(Drop(m, k))
    decreases |m|
  {
    var j := SomeKey(m);
    assert SumInts(m) == m[j] + SumInts(Drop(m, j));
    hide SumInts, SomeKey;
    if j != k {
      SumIntsDrop(Drop(m, j), k);
      SumIntsDrop(Drop(m, k), j);
      DropCommutes(m, j, k);
    }
  }

  ghost predicate Additive(get: Usage -> int) {
    get(ZERO) == 0 && forall u: Usage, v: Usage :: get(u.Plus(v)) == get(u) + get(v)
  }

  function Column<K>(m: map<K, Usage>, get: Usage -> int): map<K, int> { map k | k in m :: get(m[k]) }

  /** A column of a sum is the sum of the column. */
  lemma {:induction false} SumOfColumn<K>(m: map<K, Usage>, get: Usage -> int)
    requires Additive(get)
    ensures get(Sum(m)) == SumInts(Column(m, get))
    decreases |m|
  {
    if m == map[] {
      assert Column(m, get) == map[];
    } else {
      var k :| k in m;
      SumOfColumn(Drop(m, k), get);
      SumDrop(m, k);
      SumIntsDrop(Column(m, get), k);
      assert Drop(Column(m, get), k) == Column(Drop(m, k), get);
    }
  }
}
