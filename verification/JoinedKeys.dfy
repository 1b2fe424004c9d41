/** The `|`-joined strings that the sync code uses as map keys and hash inputs,
    and the decimal text of numbers inside them. */
module JoinedKeys {

  predicate NoBar(s: string) { '|' !in s }

  /** `parts.join('|')`, also what a template such as `${a}|${b}` builds. */
  function Join(parts: seq<string>): string
  {
    if |parts| == 0 then ""
    else if |parts| == 1 then parts[0]
    else parts[0] + ['|'] + Join(parts[1..])
  }

  /** `s.split('|')`. */
  function Split(s: string): (parts: seq<string>)
    ensures |parts| >= 1
  {
    if s == [] then [""]
    else
      var rest := Split(s[1..]);
      if s[0] == '|' then [""] + rest
      else [[s[0]] + rest[0]] + rest[1..]
  }

  /** The first bar of a string cuts it in only one way. */
  lemma {:induction false} FirstBarCuts(x: string, r: string, y: string, t: string)
    requires NoBar(x) && NoBar(y)
    requires x + ['|'] + r == y + ['|'] + t
    ensures x == y && r == t
  {
    var l := x + ['|'] + r;
    var m := y + ['|'] + t;
    assert l[|x|] == '|' && m[|y|] == '|';
    assert forall i :: 0 <= i < |x| ==> l[i] == x[i];
    assert forall i :: 0 <= i < |y| ==> m[i] == y[i];
    assert x == l[..|x|] && y == m[..|y|];
    assert r == l[|x| + 1..] && t == m[|y| + 1..];
  }

  /** A joined key determines its parts as soon as every part but the last is free of bars. */
  lemma {:induction false} JoinInjective(a: seq<string>, b: seq<string>)
    requires |a| == |b| >= 1
    requires forall i :: 0 <= i < |a| - 1 ==> NoBar(a[i]) && NoBar(b[i])
    requires Join(a) == Join(b)
    ensures a == b
  {
    if |a| == 1 {
      assert a == [a[0]] && b == [b[0]];
    } else {
      FirstBarCuts(a[0], Join(a[1..]), b[0], Join(b[1..]));
      JoinInjective(a[1..], b[1..]);
      assert a == [a[0]] + a[1..] && b == [b[0]] + b[1..];
    }
  }

  lemma {:induction false} SplitNoBar(s: string)
    requires NoBar(s)
    ensures Split(s) == [s]
  {
    if s == [] {
    } else {
      SplitNoBar(s[1..]);
      assert s == [s[0]] + s[1..];
    }
  }

  lemma {:induction false} SplitAtBar(x: string, r: string)
    requires NoBar(x)
    ensures Split(x + ['|'] + r) == [x] + Split(r)
  {
    var s := x + ['|'] + r;
    if x == [] {
      assert s[1..] == r;
    } else {
      assert s[1..] == x[1..] + ['|'] + r;
      SplitAtBar(x[1..], r);
      assert x == [x[0]] + x[1..];
    }
  }

  /** Splitting undoes joining for bar-free parts. */
  lemma {:induction false} SplitUndoesJoin(parts: seq<string>)
    requires |parts| >= 1
    requires forall i :: 0 <= i < |parts| ==> NoBar(parts[i])
    ensures Split(Join(parts)) == parts
  {
    if |parts| == 1 {
      SplitNoBar(parts[0]);
    } else {
      SplitAtBar(parts[0], Join(parts[1..]));
      SplitUndoesJoin(parts[1..]);
    }
  }

  /** A bar inside a part reads as the end of that part: two different keys with one text. */
  lemma BarMoves(x: string, y: string, z: string, rest: seq<string>)
    requires rest != []
    ensures Join([x, y + ['|'] + z] + rest) == Join([x + ['|'] + y, z] + rest)
  {
    var (p, q, r) := ([x, y + ['|'] + z] + rest, [x + ['|'] + y, z] + rest, ['|'] + Join(rest));
    assert p[1..] == [y + ['|'] + z] + rest && q[1..] == [z] + rest;
    assert p[1..][1..] == rest && q[1..][1..] == rest;
    assert Join(p) == x + ['|'] + ((y + ['|'] + z) + r);
    assert Join(q) == (x + ['|'] + y) + ['|'] + (z + r);
  }

  lemma FourText(a: string, b: string, c: string, d: string)
    ensures Join([a, b, c, d]) == a + "|" + b + "|" + c + "|" + d
  {
    ThreeText(b, c, d);
    assert [a, b, c, d][1..] == [b, c, d];
    assert Join([a, b, c, d]) == a + ['|'] + (b + "|" + c + "|" + d);
  }

  lemma ThreeText(a: string, b: string, c: string)
    ensures Join([a, b, c]) == a + "|" + b + "|" + c
  {
    assert [a, b, c][1..] == [b, c] && [b, c][1..] == [c];
    assert Join([b, c]) == b + ['|'] + c;
    assert Join([a, b, c]) == a + ['|'] + (b + ['|'] + c);
  }

  lemma FourLong(a: string, b: string, c: string, d: string)
    ensures |Join([a, b, c, d])| == |a| + |b| + |c| + |d| + 3
  {
    assert [a, b, c, d][1..] == [b, c, d] && [b, c, d][1..] == [c, d] && [c, d][1..] == [d];
    assert Join([c, d]) == c + ['|'] + d;
    assert Join([b, c, d]) == b + ['|'] + Join([c, d]);
  }

  // ---- decimal text ------------------------------------------------------

  function Digit(d: nat): char
    requires d < 10
  {
    '0' + d as char
  }

  predicate IsDigit(c: char) { '0' <= c <= '9' }

  function DigitValue(c: char): (d: nat)
    requires IsDigit(c)
    ensures d < 10
  {
    (c - '0') as nat
  }

  function NatText(n: nat): (t: string)
    ensures |t| >= 1 && forall i :: 0 <= i < |t| ==> IsDigit(t[i])
  {
    if n < 10 then [Digit(n)] else NatText(n / 10) + [Digit(n % 10)]
  }

  function ParseNat(t: string): nat
    requires forall i :: 0 <= i < |t| ==> IsDigit(t[i])
  {
    if t == [] then 0 else 10 * ParseNat(t[..|t| - 1]) + DigitValue(t[|t| - 1])
  }

  lemma {:induction false} ParseNatText(n: nat)
    ensures ParseNat(NatText(n)) == n
  {
    if n >= 10 {
      ParseNatText(n / 10);
      var t := NatText(n);
      assert t[..|t| - 1] == NatText(n / 10);
    } else {
      var t := NatText(n);
      assert t[..0] == [];
    }
  }

  function IntText(n: int): (t: string)
    ensures NoBar(t) && |t| >= 1
  {
    if n >= 0 then NatText(n) else ['-'] + NatText(-n)
  }

  lemma IntTextInjective(m: int, n: int)
    requires IntText(m) == IntText(n)
    ensures m == n
  {
    assert m >= 0 <==> IsDigit(IntText(m)[0]);
    assert n >= 0 <==> IsDigit(IntText(n)[0]);
    if m >= 0 {
      ParseNatText(m);
      ParseNatText(n);
    } else {
      assert NatText(-m) == IntText(m)[1..] && NatText(-n) == IntText(n)[1..];
      ParseNatText(-m);
      ParseNatText(-n);
    }
  }

  // ---- hash --------------------------------------------------------------

  /** Stands for SHA-256 in hex: all that is used of it is that it is injective. */
  function Sha256Hex(input: string): string { "sha256:" + input }

  lemma Sha256Injective(a: string, b: string)
    requires Sha256Hex(a) == Sha256Hex(b)
    ensures a == b
  {
    assert a == Sha256Hex(a)[|"sha256:"|..];
    assert b == Sha256Hex(b)[|"sha256:"|..];
  }
}
