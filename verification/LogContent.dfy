/** How the events of a log are told from its lines: which lines count, and what an earlier line last said. */
module LogContent {
  import opened Wrappers
  import opened Jsonl

  /** The places, in order, of the lines among the first `n` that satisfy `p`. */
  function Where(lines: seq<Line>, n: nat, p: Line -> bool): seq<nat>
    requires n <= |lines|
  {
    if n == 0 then [] else Where(lines, n - 1, p) + if p(lines[n - 1]) then [n - 1] else []
  }

  lemma {:induction false} WhereIs(lines: seq<Line>, n: nat, p: Line -> bool)
    requires n <= |lines|
    ensures forall i :: i in Where(lines, n, p) <==> 0 <= i < n && p(lines[i])
    ensures forall j, k :: 0 <= j < k < |Where(lines, n, p)| ==> Where(lines, n, p)[j] < Where(lines, n, p)[k]
    decreases n
  {
    if n == 0 {
    } else {
      WhereIs(lines, n - 1, p);
      var before := Where(lines, n - 1, p);
      assert forall k :: 0 <= k < |before| ==> before[k] in before;
    }
  }

  /** `v` is what the last of the first `n` lines to say anything says, and `d` if none of them does. */
  ghost predicate LastSaid<T(!new)>(says: Line -> Option<T>, lines: seq<Line>, n: nat, v: T, d: T)
    requires n <= |lines|
  {
    || (v == d && forall j :: 0 <= j < n ==> says(lines[j]) == None)
    || (exists j :: 0 <= j < n && SaidAt(says, lines, n, j, v))
  }

  ghost predicate SaidAt<T>(says: Line -> Option<T>, lines: seq<Line>, n: nat, j: nat, v: T)
    requires j < n <= |lines|
  {
    says(lines[j]) == Some(v) && forall k :: j < k < n ==> says(lines[k]) == None
  }

  lemma LastSaidMore<T(!new)>(says: Line -> Option<T>, lines: seq<Line>, n: nat, v: T, d: T)
    requires n < |lines| && LastSaid(says, lines, n, v, d)
    ensures LastSaid(says, lines, n + 1, if says(lines[n]).Some? then says(lines[n]).value else v, d)
  {
    if says(lines[n]).Some? {
      assert SaidAt(says, lines, n + 1, n, says(lines[n]).value);
    } else if j :| 0 <= j < n && SaidAt(says, lines, n, j, v) {
      assert SaidAt(says, lines, n + 1, j, v);
    }
  }

  /** A field that holds no number counts as zero. */
  function Count(v: Option<int>): int { match v case None => 0 case Some(n) => n }

  predicate NonZero(v: Option<int>) { v.Some? && v.value != 0 }
}
