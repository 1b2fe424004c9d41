/** Append-only logs of one JSON value per line, read from a byte offset. One char stands for one byte;
    a log is given by what it finally holds, and by how many bytes of it can be read at the time. */
module Jsonl {
  import opened Wrappers
  import opened JoinedKeys

  datatype Line = Line(offset: nat, raw: string)

  /** The first line break at or after `i`, or the end of what can be read. */
  function LineEnd(f: string, i: nat, n: nat): (j: nat)
    requires i <= n <= |f|
    ensures i <= j <= n && (j < n ==> f[j] == '\n')
    ensures forall k :: i <= k < j ==> f[k] != '\n'
    decreases n - i
  {
    if i < n && f[i] != '\n' then LineEnd(f, i + 1, n) else i
  }

  /** Empty lines are passed over. */
  function LineAt(f: string, i: nat, j: nat): (line: seq<Line>)
    requires i <= j <= |f|
    ensures |line| <= 1 && forall l <- line :: l.offset == i
  {
    if i == j then [] else [Line(i, f[i..j])]
  }

  /** The lines from byte `i` on, each with the offset of its start. */
  function Lines(f: string, i: nat, n: nat): seq<Line>
    requires n <= |f|
    decreases n - i
  {
    if i >= n then []
    else var j := LineEnd(f, i, n); LineAt(f, i, j) + Lines(f, j + 1, n)
  }

  lemma LinesStep(f: string, i: nat, n: nat)
    requires i < n <= |f|
    ensures Lines(f, i, n) == LineAt(f, i, LineEnd(f, i, n)) + Lines(f, LineEnd(f, i, n) + 1, n)
  {}

  /** Three parts in a row can be grouped either way. */
  lemma Regroup<T>(whole: seq<T>, a: seq<T>, rest: seq<T>, front: seq<T>, b: seq<T>, c: seq<T>)
    requires whole == a + rest && front == a + b && rest == b + c
    ensures whole == front + c
  {}

  lemma SplitLast<T>(a: seq<T>, b: seq<T>)
    requires b != []
    ensures b == b[..|b| - 1] + [b[|b| - 1]] && a + b == (a + b[..|b| - 1]) + [b[|b| - 1]]
  {}

  lemma RegroupEnd<T>(whole: seq<T>, front: seq<T>, a: seq<T>, b: seq<T>, c: seq<T>, back: seq<T>)
    requires whole == front + c && front == a + b && back == b + c
    ensures whole == a + back
  {}

  lemma LinesNext(f: string, i: nat, n: nat, before: seq<Line>)
    requires i < n <= |f|
    ensures before + Lines(f, i, n) == (before + LineAt(f, i, LineEnd(f, i, n))) + Lines(f, LineEnd(f, i, n) + 1, n)
  {
    var here, rest := LineAt(f, i, LineEnd(f, i, n)), Lines(f, LineEnd(f, i, n) + 1, n);
    Regroup(before + Lines(f, i, n), before, Lines(f, i, n), before + here, here, rest);
  }

  method ReadLines(f: string, start: nat, n: nat) returns (lines: seq<Line>)
    requires n <= |f|
    ensures lines == Lines(f, start, n)
    ensures Rising(lines) && forall l :: l in lines <==> IsLine(f, start, n, l)
  {
    hide IsLine, Rising, Lines, LineEnd;
    lines := [];
    var offset := start;
    while offset < n
      invariant lines + Lines(f, offset, n) == Lines(f, start, n)
    {
      LinesNext(f, offset, n, lines);
      ghost var before := lines;
      var line := f[offset..LineEnd(f, offset, n)];
      var startOffsetForLine := offset;
      offset := offset + |line| + 1;
      if |line| != 0 {
        lines := lines + [Line(startOffsetForLine, line)];
      }
      assert lines == before + LineAt(f, startOffsetForLine, startOffsetForLine + |line|);
    }
    NoLineThere(f, offset, n);
    assert lines + [] == lines;
    LinesAre(f, start, n);
  }

  // ---- cutting a log -------------------------------------------------------

  /** `k` does not fall inside a line. */
  predicate AtLineEnd(f: string, k: nat) {
    k <= |f| && (k == 0 || k == |f| || f[k - 1] == '\n' || f[k] == '\n')
  }

  lemma {:induction false} LineEndOfFront(f: string, i: nat, k: nat, n: nat)
    requires i <= k <= n <= |f|
    ensures LineEnd(f, i, k) == Min(LineEnd(f, i, n), k)
    decreases k - i
  {
    if i == k || f[i] == '\n' {
    } else {
      LineEndOfFront(f, i + 1, k, n);
    }
  }

  lemma CutLater(f: string, i: nat, k: nat, n: nat)
    requires i < k <= n <= |f| && LineEnd(f, i, n) < k
    requires Lines(f, LineEnd(f, i, n) + 1, n) == Lines(f, LineEnd(f, i, n) + 1, k) + Lines(f, k, n)
    ensures Lines(f, i, n) == Lines(f, i, k) + Lines(f, k, n)
  {
    hide Lines, LineAt, LineEnd;
    var j := LineEnd(f, i, n);
    LineEndOfFront(f, i, k, n);
    LinesStep(f, i, n);
    LinesStep(f, i, k);
    Regroup(Lines(f, i, n), LineAt(f, i, j), Lines(f, j + 1, n), Lines(f, i, k), Lines(f, j + 1, k), Lines(f, k, n));
  }

  lemma CutHere(f: string, i: nat, k: nat, n: nat)
    requires i < k <= n <= |f| && LineEnd(f, i, n) == k
    ensures Lines(f, i, n) == Lines(f, i, k) + Lines(f, k, n)
  {
    hide Lines, LineAt, LineEnd;
    LinesStep(f, i, n);
    LinesStep(f, i, k);
    LineEndOfFront(f, i, k, n);
    NoneHere(f, k, n);
    Regroup(Lines(f, i, n), LineAt(f, i, k), Lines(f, k + 1, n), Lines(f, i, k), Lines(f, k + 1, k), Lines(f, k, n));
  }

  /** At a line break no line starts. */
  lemma NoneHere(f: string, k: nat, n: nat)
    requires k <= n <= |f| && (k < n ==> f[k] == '\n')
    ensures Lines(f, k + 1, k) == [] && Lines(f, k, n) == Lines(f, k + 1, n)
    ensures Lines(f, k + 1, n) == Lines(f, k + 1, k) + Lines(f, k, n)
  {}

  /** Reading up to a line end and then from it on is reading straight through, offsets included. */
  lemma {:induction false} LinesCut(f: string, i: nat, k: nat, n: nat)
    requires i <= k <= n <= |f| && (k == i || k == n || AtLineEnd(f, k))
    ensures Lines(f, i, n) == Lines(f, i, k) + Lines(f, k, n)
    decreases k - i
  {
    hide Lines, LineAt, LineEnd;
    if i < k {
      var j := LineEnd(f, i, n);
      if j < k {
        LinesCut(f, j + 1, k, n);
        CutLater(f, i, k, n);
      } else {
        CutHere(f, i, k, n);
      }
    } else {
      NoLines(f, k, n);
    }
  }

  lemma NoLines(f: string, k: nat, n: nat)
    requires k <= n <= |f|
    ensures Lines(f, k, n) == Lines(f, k, k) + Lines(f, k, n)
  {}

  lemma OneLine(f: string, i: nat, j: nat)
    requires i <= j <= |f| && LineEnd(f, i, |f|) == j
    ensures Lines(f, i, j) == LineAt(f, i, j)
  {
    if i < j {
      LineEndOfFront(f, i, j, |f|);
      LinesStep(f, i, j);
      NothingAfter(LineAt(f, i, j));
    }
  }

  lemma NothingAfter<T>(a: seq<T>)
    ensures a + [] == a
  {}

  lemma BreakOnly(f: string, j: nat)
    requires j < |f| && f[j] == '\n'
    ensures Lines(f, j, j + 1) == []
  {
    assert LineEnd(f, j, j + 1) == j && LineAt(f, j, j) == [];
    LinesStep(f, j, j + 1);
  }

  ghost predicate Rising(lines: seq<Line>) { forall a, b :: 0 <= a < b < |lines| ==> lines[a].offset < lines[b].offset }

  lemma RisingMore(first: seq<Line>, rest: seq<Line>)
    requires |first| <= 1 && Rising(rest) && forall l <- first, k <- rest :: l.offset < k.offset
    ensures Rising(first + rest)
  {
    assert forall a :: 0 <= a < |rest| ==> rest[a] in rest;
    assert first != [] ==> first[0] in first;
  }

  lemma {:induction false} LinesRise(f: string, i: nat, n: nat)
    requires n <= |f|
    ensures forall l <- Lines(f, i, n) :: i <= l.offset < n
    ensures Rising(Lines(f, i, n))
    decreases n - i
  {
    hide LineAt;
    if i >= n {
    } else {
      var j := LineEnd(f, i, n);
      LinesRise(f, j + 1, n);
      LinesStep(f, i, n);
      RisingMore(LineAt(f, i, j), Lines(f, j + 1, n));
    }
  }

  /** A whole line of the stretch from `i` to `n`: not empty, at its offset, and bounded by line breaks or by the ends. */
  predicate IsLine(f: string, i: nat, n: nat, l: Line)
    requires n <= |f|
  {
    var e := l.offset + |l.raw|;
    && i <= l.offset < e <= n && f[l.offset..e] == l.raw && '\n' !in l.raw
    && (l.offset == i || f[l.offset - 1] == '\n') && (e == n || f[e] == '\n')
  }

  lemma FirstLine(f: string, i: nat, n: nat, l: Line)
    requires i < n <= |f| && l.offset <= LineEnd(f, i, n)
    ensures IsLine(f, i, n, l) <==> LineAt(f, i, LineEnd(f, i, n)) == [l]
  {
    var j := LineEnd(f, i, n);
    var e := l.offset + |l.raw|;
    if IsLine(f, i, n, l) {
      assert forall k :: l.offset <= k < e ==> f[k] == l.raw[k - l.offset];
      assert l.offset == i && e == j;
    }
  }

  lemma LaterLine(f: string, i: nat, n: nat, l: Line)
    requires i < n <= |f| && l.offset > LineEnd(f, i, n)
    ensures IsLine(f, i, n, l) <==> IsLine(f, LineEnd(f, i, n) + 1, n, l)
  {}

  lemma NoLineThere(f: string, i: nat, n: nat)
    requires n <= |f| && i >= n
    ensures Lines(f, i, n) == [] && forall l :: !IsLine(f, i, n, l)
  {}

  /** The lines read are just those of the stretch, in order. */
  lemma {:induction false} LinesAre(f: string, i: nat, n: nat)
    requires n <= |f|
    ensures Rising(Lines(f, i, n))
    ensures forall l :: l in Lines(f, i, n) <==> IsLine(f, i, n, l)
    decreases n - i
  {
    hide IsLine, Lines, LineEnd, LineAt, Rising;
    LinesRise(f, i, n);
    if i >= n {
      NoLineThere(f, i, n);
    } else {
      var j := LineEnd(f, i, n);
      LinesAre(f, j + 1, n);
      LinesStep(f, i, n);
      LinesRise(f, j + 1, n);
      forall l ensures l in Lines(f, i, n) <==> IsLine(f, i, n, l) {
        if l.offset <= j {
          FirstLine(f, i, n, l);
          assert l in LineAt(f, i, j) <==> LineAt(f, i, j) == [l];
        } else {
          LaterLine(f, i, n, l);
        }
      }
    }
  }

  /** Where the line that `k` is in starts. */
  function LineStart(f: string, k: nat): (b: nat)
    requires k <= |f|
    ensures b <= k && (b == 0 || f[b - 1] == '\n') && forall i :: b <= i < k ==> f[i] != '\n'
  {
    if k == 0 || f[k - 1] == '\n' then k else LineStart(f, k - 1)
  }

  /** What a line cut at `j` means, if anything, it still means when cut at `k`. */
  ghost predicate FrontAgrees<R(!new)>(parse: string -> Option<R>, f: string, j: nat, k: nat)
    requires j <= k <= |f|
  {
    var b := LineStart(f, j);
    parse(f[b..j]).None? || parse(f[b..k]) == parse(f[b..j])
  }

  /** No line of the log makes a different sense while it is still being written. */
  ghost predicate FrontsAgree<R(!new)>(parse: string -> Option<R>, f: string) {
    forall j: nat, k: nat | j <= k <= |f| && LineStart(f, j) == LineStart(f, k) :: FrontAgrees(parse, f, j, k)
  }

  /** How far a read that stops at byte `k` really gets: a last line cut short counts in full or not at all. */
  function Reach<R>(parse: string -> Option<R>, f: string, k: nat): (n: nat)
    requires k <= |f|
    ensures n <= |f| && AtLineEnd(f, n)
    ensures LineStart(f, k) <= n
  {
    var b := LineStart(f, k);
    if AtLineEnd(f, k) then k
    else if parse(f[b..k]).Some? then LineEnd(f, k, |f|)
    else b
  }

  lemma LastLine(f: string, i: nat, k: nat)
    requires k <= |f| && i <= LineStart(f, k) < k
    ensures Lines(f, i, k) == Lines(f, i, LineStart(f, k)) + [Line(LineStart(f, k), f[LineStart(f, k)..k])]
  {
    var b := LineStart(f, k);
    LinesCut(f, i, b, k);
    assert LineEnd(f, b, k) == k;
    assert Lines(f, b, k) == LineAt(f, b, k) + [];
  }

  lemma {:induction false} SameLine(f: string, k: nat)
    requires k <= |f|
    ensures LineStart(f, LineEnd(f, k, |f|)) == LineStart(f, k)
    decreases |f| - k
  {
    if k == |f| || f[k] == '\n' {
    } else {
      SameLine(f, k + 1);
    }
  }

  /** What can be read up to `k` differs from whole lines in the last one at most. */
  lemma LinesReach(f: string, i: nat, k: nat)
    requires i <= k <= |f| && AtLineEnd(f, i) && !AtLineEnd(f, k)
    ensures var b, e := LineStart(f, k), LineEnd(f, k, |f|);
            && i <= b < k < e
            && Lines(f, i, k) == Lines(f, i, b) + [Line(b, f[b..k])]
            && Lines(f, i, e) == Lines(f, i, b) + [Line(b, f[b..e])]
  {
    LastLine(f, i, k);
    SameLine(f, k);
    LastLine(f, i, LineEnd(f, k, |f|));
  }

  lemma LineStartMonotone(f: string, j: nat, k: nat)
    requires j <= k <= |f|
    ensures LineStart(f, j) <= LineStart(f, k)
    ensures LineStart(f, j) < LineStart(f, k) ==> LineEnd(f, j, |f|) < LineStart(f, k)
  {}

  /** Reading further reaches further. */
  lemma ReachMonotone<R(!new)>(parse: string -> Option<R>, f: string, j: nat, k: nat)
    requires FrontsAgree(parse, f) && j <= k <= |f|
    ensures Reach(parse, f, j) <= Reach(parse, f, k)
    ensures AtLineEnd(f, j) ==> j <= Reach(parse, f, k)
  {
    LineStartMonotone(f, j, k);
    if LineStart(f, j) == LineStart(f, k) {
      assert FrontAgrees(parse, f, j, k);
    }
  }

  // ---- event ids -----------------------------------------------------------

  const NUL := '\0'

  /** `parts.join('\0')`. */
  function JoinNul(parts: seq<string>): string
  {
    if |parts| == 0 then "" else if |parts| == 1 then parts[0] else parts[0] + [NUL] + JoinNul(parts[1..])
  }

  function BuildEventId(parts: seq<string>): string { Sha256Hex(JoinNul(parts)) }

  lemma NumbersHaveNoNul(n: int)
    ensures NUL !in IntText(n)
  {}

  /** The last separator of a string cuts it in only one way. */
  lemma LastNulCuts(x: string, r: string, y: string, t: string)
    requires NUL !in r && NUL !in t && x + [NUL] + r == y + [NUL] + t
    ensures x == y && r == t
  {
    var l, m := x + [NUL] + r, y + [NUL] + t;
    assert l[|x|] == NUL && m[|y|] == NUL;
    assert forall i :: |x| < i < |l| ==> l[i] == r[i - |x| - 1];
    assert forall i :: |y| < i < |m| ==> m[i] == t[i - |y| - 1];
    assert |x| == |y|;
    assert x == l[..|x|] && y == m[..|y|] && r == l[|x| + 1..] && t == m[|y| + 1..];
  }

  /** Ids of one session of one provider tell message and time apart, whatever the message names look like. */
  lemma EventIdInjective(provider: string, session: string, m: string, ts: int, n: string, us: int)
    requires BuildEventId([provider, session, m, IntText(ts)]) == BuildEventId([provider, session, n, IntText(us)])
    ensures m == n && ts == us
  {
    var a, b := [provider, session, m, IntText(ts)], [provider, session, n, IntText(us)];
    Sha256Injective(JoinNul(a), JoinNul(b));
    JoinFour(provider, session, m, IntText(ts));
    JoinFour(provider, session, n, IntText(us));
    NumbersHaveNoNul(ts);
    NumbersHaveNoNul(us);
    var front := provider + [NUL] + session + [NUL];
    LastNulCuts(front + m, IntText(ts), front + n, IntText(us));
    assert m == (front + m)[|front|..] && n == (front + n)[|front|..];
    IntTextInjective(ts, us);
  }

  lemma JoinFour(a: string, b: string, c: string, d: string)
    ensures JoinNul([a, b, c, d]) == (a + [NUL] + b + [NUL] + c) + [NUL] + d
  {
    assert [a, b, c, d][1..] == [b, c, d] && [b, c, d][1..] == [c, d] && [c, d][1..] == [d];
    assert JoinNul([c, d]) == c + [NUL] + d;
    assert JoinNul([b, c, d]) == b + [NUL] + (c + [NUL] + d);
  }
}
