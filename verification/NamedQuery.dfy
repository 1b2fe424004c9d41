/** Named SQL parameters turned into positional ones, and why the statement keeps its meaning. */
module NamedQueries {
  import opened Wrappers
  import opened JoinedKeys

  /** What the driver binds. */
  type Value = string

  /** Statement text as `/@([a-zA-Z_][a-zA-Z_0-9]*)/g` cuts it. */
  datatype Token = Char(c: char) | Name(name: string)

  datatype PreparedSql = PreparedSql(text: string, values: seq<Value>)

  predicate IsStart(c: char) { 'a' <= c <= 'z' || 'A' <= c <= 'Z' || c == '_' }

  predicate IsPart(c: char) { IsStart(c) || IsDigit(c) }

  /** Length of the longest run of name characters at the front. */
  function NameRun(s: string): (n: nat)
    ensures n <= |s| && (n < |s| ==> !IsPart(s[n]))
  {
    if s != [] && IsPart(s[0]) then 1 + NameRun(s[1..]) else 0
  }

  function Tokens(sql: string): seq<Token>
    decreases |sql|
  {
    if sql == [] then []
    else if sql[0] == '@' && |sql| > 1 && IsStart(sql[1]) then
      var n := NameRun(sql[1..]);
      [Name(sql[1..][..n])] + Tokens(sql[1..][n..])
    else [Char(sql[0])] + Tokens(sql[1..])
  }

  // ---- what the tokens are -------------------------------------------------

  predicate IsLetter(c: char) { ('a' <= c <= 'z') || ('A' <= c <= 'Z') || c == '_' }

  predicate IsLetterOrDigit(c: char) { IsLetter(c) || ('0' <= c <= '9') }

  /** The text that tokens were cut from. */
  function Spelled(tokens: seq<Token>): string {
    if tokens == [] then ""
    else (match tokens[0] case Char(c) => [c] case Name(name) => "@" + name) + Spelled(tokens[1..])
  }

  predicate WellNamed(name: string) { name != "" && IsLetter(name[0]) && forall i :: 0 <= i < |name| ==> IsLetterOrDigit(name[i]) }

  /** A token and the one after it: names are made of letters, digits and underscores, do not start with a digit and
      end where no such character follows; a bare `@` is not followed by what could start a name. */
  predicate Follows(t: Token, next: Option<Token>) {
    && (t.Name? ==> WellNamed(t.name) && (next.Some? && next.value.Char? ==> !IsLetterOrDigit(next.value.c)))
    && (t == Char('@') && next.Some? && next.value.Char? ==> !IsLetter(next.value.c))
  }

  function NextOf(tokens: seq<Token>, i: nat): Option<Token> { if i + 1 < |tokens| then Some(tokens[i + 1]) else None }

  predicate WellCut(tokens: seq<Token>) { forall i :: 0 <= i < |tokens| ==> Follows(tokens[i], NextOf(tokens, i)) }

  lemma FirstToken(sql: string)
    ensures (Tokens(sql) == [] <==> sql == [])
    ensures sql != [] && Tokens(sql)[0].Char? ==> Tokens(sql)[0].c == sql[0]
  {}

  lemma WellCutMore(t: Token, tokens: seq<Token>)
    requires WellCut(tokens) && Follows(t, if tokens == [] then None else Some(tokens[0]))
    ensures WellCut([t] + tokens) && Spelled([t] + tokens) == (if t.Char? then [t.c] else "@" + t.name) + Spelled(tokens)
  {
    var all := [t] + tokens;
    assert all[1..] == tokens;
    hide Follows;
    forall i | 0 <= i < |all| ensures Follows(all[i], NextOf(all, i)) {
      if i > 0 {
        assert all[i] == tokens[i - 1] && NextOf(all, i) == NextOf(tokens, i - 1);
      }
    }
  }

  lemma NameIs(sql: string)
    requires |sql| > 1 && sql[0] == '@' && IsStart(sql[1])
    ensures var n := NameRun(sql[1..]);
            var rest := sql[1..][n..];
            && Follows(Name(sql[1..][..n]), if Tokens(rest) == [] then None else Some(Tokens(rest)[0]))
            && sql == "@" + sql[1..][..n] + rest
  {
    hide Tokens;
    NameRunIs(sql[1..]);
    FirstToken(sql[1..][NameRun(sql[1..])..]);
  }

  lemma CharIs(sql: string)
    requires sql != [] && !(sql[0] == '@' && |sql| > 1 && IsStart(sql[1]))
    ensures var rest := sql[1..];
            && Follows(Char(sql[0]), if Tokens(rest) == [] then None else Some(Tokens(rest)[0]))
            && sql == [sql[0]] + rest && Tokens(sql) == [Char(sql[0])] + Tokens(rest)
  {
    FirstToken(sql[1..]);
  }

  /** A statement is cut into names and single characters without loss, names as long as they can be. */
  lemma {:induction false} TokensAre(sql: string)
    ensures Spelled(Tokens(sql)) == sql && WellCut(Tokens(sql))
    decreases |sql|
  {
    hide Follows, NameRun;
    if sql == [] {
    } else if sql[0] == '@' && |sql| > 1 && IsStart(sql[1]) {
      var n := NameRun(sql[1..]);
      TokensAre(sql[1..][n..]);
      NameIs(sql);
      NameFirst(sql);
      WellCutMore(Name(sql[1..][..n]), Tokens(sql[1..][n..]));
    } else {
      TokensAre(sql[1..]);
      CharIs(sql);
      WellCutMore(Char(sql[0]), Tokens(sql[1..]));
    }
  }

  // ---- positions -----------------------------------------------------------

  /** The distinct names, numbered by first occurrence. */
  function Positions(tokens: seq<Token>): seq<string>
    decreases |tokens|
  {
    if tokens == [] then []
    else
      var names, last := Positions(tokens[..|tokens| - 1]), tokens[|tokens| - 1];
      if last.Char? || last.name in names then names else names + [last.name]
  }

  /** Where a name stands, counted from one; zero if it does not. */
  function IndexOf(names: seq<string>, name: string): nat
    decreases |names|
  {
    if names == [] then 0
    else if IndexOf(names[..|names| - 1], name) > 0 then IndexOf(names[..|names| - 1], name)
    else if names[|names| - 1] == name then |names| else 0
  }

  function Shown(t: Token, names: seq<string>): string {
    if t.Char? then [t.c] else "$" + NatText(IndexOf(names, t.name))
  }

  function Text(tokens: seq<Token>, names: seq<string>): string
    decreases |tokens|
  {
    if tokens == [] then "" else Text(tokens[..|tokens| - 1], names) + Shown(tokens[|tokens| - 1], names)
  }

  function Values(names: seq<string>, params: map<string, Value>): seq<Value>
    requires forall n <- names :: n in params
  {
    seq(|names|, i requires 0 <= i < |names| => params[names[i]])
  }

  predicate Used(tokens: seq<Token>, name: string) { Name(name) in tokens }

  lemma {:induction false} IndexIs(names: seq<string>, name: string)
    ensures IndexOf(names, name) <= |names|
    ensures IndexOf(names, name) > 0 <==> name in names
    ensures IndexOf(names, name) > 0 ==> names[IndexOf(names, name) - 1] == name
    decreases |names|
  {
    if names == [] {
    } else {
      IndexIs(names[..|names| - 1], name);
    }
  }

  lemma {:induction false} PositionsAre(tokens: seq<Token>)
    ensures forall n :: n in Positions(tokens) <==> Used(tokens, n)
    ensures forall i, j :: 0 <= i < j < |Positions(tokens)| ==> Positions(tokens)[i] != Positions(tokens)[j]
    decreases |tokens|
  {
    if tokens == [] {
    } else {
      PositionsAre(tokens[..|tokens| - 1]);
    }
  }

  /** Place `k` holds the first use of a name. */
  ghost predicate FirstUse(tokens: seq<Token>, k: int, name: string) {
    0 <= k < |tokens| && tokens[k] == Name(name) && forall j :: 0 <= j < k ==> tokens[j] != Name(name)
  }

  /** Names are numbered in the order of their first uses. */
  lemma {:induction false} PositionsInOrder(tokens: seq<Token>, a: string, b: string, i: int, j: int)
    requires FirstUse(tokens, i, a) && FirstUse(tokens, j, b)
    ensures IndexOf(Positions(tokens), a) > 0 && IndexOf(Positions(tokens), b) > 0
    ensures i < j <==> IndexOf(Positions(tokens), a) < IndexOf(Positions(tokens), b)
    decreases |tokens|
  {
    var before, last := tokens[..|tokens| - 1], tokens[|tokens| - 1];
    var names := Positions(before);
    PositionsAre(before);
    PositionsAre(tokens);
    IndexIs(Positions(tokens), a);
    IndexIs(Positions(tokens), b);
    IndexIs(names, a);
    IndexIs(names, b);
    if i < |before| && j < |before| {
      assert FirstUse(before, i, a) && FirstUse(before, j, b);
      PositionsInOrder(before, a, b, i, j);
      if last.Name? && last.name !in names { NextIndex(names, last.name); }
    } else if i < |before| {
      assert before[i] == Name(a) && Used(before, a) && !Used(before, b);
      NextIndex(names, b);
    } else if j < |before| {
      assert before[j] == Name(b) && Used(before, b) && !Used(before, a);
      NextIndex(names, a);
    } else {
      assert !Used(before, a);
      NextIndex(names, a);
    }
  }

  /** A later name changes nothing about what is already written. */
  lemma {:induction false} TextStays(tokens: seq<Token>, names: seq<string>, name: string)
    requires forall n | Used(tokens, n) :: n in names
    ensures Text(tokens, names + [name]) == Text(tokens, names)
    decreases |tokens|
  {
    if tokens == [] {
    } else {
      TextStays(tokens[..|tokens| - 1], names, name);
      var last := tokens[|tokens| - 1];
      if last.Name? {
        assert Used(tokens, last.name);
        IndexIs(names, last.name);
        assert (names + [name])[..|names|] == names;
      }
    }
  }

  /** What the callback keeps: a value per name in order, and the positions looked up by name. */
  ghost predicate Indexed(names: seq<string>, params: map<string, Value>, values: seq<Value>, indexByName: map<string, nat>) {
    && (forall n <- names :: n in params)
    && values == Values(names, params)
    && (forall n :: n in indexByName <==> n in names)
    && (forall n <- indexByName :: indexByName[n] == IndexOf(names, n))
  }

  /** The callback for one match. */
  method Replace(name: string, params: map<string, Value>, values: seq<Value>, indexByName: map<string, nat>, ghost names: seq<string>)
    returns (shown: string, values': seq<Value>, indexByName': map<string, nat>)
    requires name in params && Indexed(names, params, values, indexByName)
    ensures var names' := if name in names then names else names + [name];
            Indexed(names', params, values', indexByName') && shown == Shown(Name(name), names')
  {
    values', indexByName' := values, indexByName;
    if name in indexByName {
      return "$" + NatText(indexByName[name]), values', indexByName';
    }
    NextIndex(names, name);
    values' := values + [params[name]];
    indexByName' := indexByName[name := |values'|];
    return "$" + NatText(|values'|), values', indexByName';
  }

  lemma OneMoreToken(tokens: seq<Token>, k: nat)
    requires k < |tokens|
    ensures var before, t, names := Positions(tokens[..k]), tokens[k], Positions(tokens[..k + 1]);
            && names == (if t.Char? || t.name in before then before else before + [t.name])
            && Text(tokens[..k + 1], names) == Text(tokens[..k], before) + Shown(t, names)
    ensures forall n :: Used(tokens[..k + 1], n) <==> Used(tokens[..k], n) || tokens[k] == Name(n)
  {
    var front := tokens[..k];
    assert tokens[..k + 1] == front + [tokens[k]];
    LastToken(front, tokens[k]);
  }

  lemma LastToken(front: seq<Token>, t: Token)
    ensures var before, names := Positions(front), Positions(front + [t]);
            && names == (if t.Char? || t.name in before then before else before + [t.name])
            && Text(front + [t], names) == Text(front, before) + Shown(t, names)
  {
    assert (front + [t])[..|front|] == front;
    PositionsAre(front);
    if t.Name? {
      TextStays(front, Positions(front), t.name);
    }
  }

  /** The replace with its callback. The error names the first parameter that is used and missing. */
  method NamedQuery(sql: string, params: map<string, Value>) returns (r: Result<PreparedSql, string>)
    ensures r.Success? <==> forall n | Used(Tokens(sql), n) :: n in params
    ensures r.Success? ==>
      var names := Positions(Tokens(sql));
      && (forall n <- names :: n in params)
      && r.value == PreparedSql(Text(Tokens(sql), names), Values(names, params))
    ensures r.Failure? ==>
      exists k :: 0 <= k < |Tokens(sql)| && Tokens(sql)[k] == Name(r.error) && r.error !in params
                  && forall n | Used(Tokens(sql)[..k], n) :: n in params
  {
    var tokens := Tokens(sql);
    var text, values: seq<Value>, indexByName: map<string, nat> := "", [], map[];
    for k := 0 to |tokens|
      invariant forall n | Used(tokens[..k], n) :: n in params
      invariant Indexed(Positions(tokens[..k]), params, values, indexByName)
      invariant text == Text(tokens[..k], Positions(tokens[..k]))
    {
      OneMoreToken(tokens, k);
      match tokens[k] {
        case Char(c) =>
          text := text + [c];
        case Name(name) =>
          if name !in params {
            return Failure(name);
          }
          var shown;
          shown, values, indexByName := Replace(name, params, values, indexByName, Positions(tokens[..k]));
          text := text + shown;
      }
    }
    assert tokens[..|tokens|] == tokens;
    r := Success(PreparedSql(text, values));
  }

  lemma NextIndex(names: seq<string>, name: string)
    requires name !in names
    ensures IndexOf(names + [name], name) == |names| + 1
    ensures forall n <- names :: IndexOf(names + [name], n) == IndexOf(names, n)
  {
    assert (names + [name])[..|names|] == names;
    IndexIs(names, name);
    forall n <- names ensures IndexOf(names + [name], n) == IndexOf(names, n) {
      IndexIs(names, n);
    }
  }

  // ---- meaning -------------------------------------------------------------

  /** Statement text with its parameters filled in. */
  datatype Piece = Plain(c: char) | Bound(v: Value) | Unbound(position: nat)

  /** What the named statement says. */
  function NamedMeaning(tokens: seq<Token>, params: map<string, Value>): seq<Piece>
    requires forall n | Used(tokens, n) :: n in params
  {
    if tokens == [] then []
    else
      assert forall n | Used(tokens[1..], n) :: Used(tokens, n);
      [if tokens[0].Char? then Plain(tokens[0].c) else (assert Used(tokens, tokens[0].name); Bound(params[tokens[0].name]))]
      + NamedMeaning(tokens[1..], params)
  }

  function DigitRun(s: string): (n: nat)
    ensures n <= |s| && (n < |s| ==> !IsDigit(s[n])) && forall i :: 0 <= i < n ==> IsDigit(s[i])
  {
    if s != [] && IsDigit(s[0]) then 1 + DigitRun(s[1..]) else 0
  }

  function Argument(values: seq<Value>, position: nat): Piece {
    if 1 <= position <= |values| then Bound(values[position - 1]) else Unbound(position)
  }

  /** What the server reads in the positional statement: `$` and all digits after it are a parameter. */
  function PositionalMeaning(text: string, values: seq<Value>): seq<Piece>
    decreases |text|
  {
    if text == [] then []
    else if text[0] == '$' && |text| > 1 && IsDigit(text[1]) then
      var n := DigitRun(text[1..]);
      [Argument(values, ParseNat(text[1..][..n]))] + PositionalMeaning(text[1..][n..], values)
    else [Plain(text[0])] + PositionalMeaning(text[1..], values)
  }

  /** The text has a `$` right before a digit, so it would itself be read as a parameter. */
  predicate DollarDigit(sql: string) { exists i :: 0 <= i < |sql| - 1 && sql[i] == '$' && IsDigit(sql[i + 1]) }

  /** The text shown for all tokens, from the front. */
  function Show(tokens: seq<Token>, names: seq<string>): string {
    if tokens == [] then "" else Shown(tokens[0], names) + Show(tokens[1..], names)
  }

  lemma {:induction false} ShowMore(tokens: seq<Token>, t: Token, names: seq<string>)
    ensures Show(tokens + [t], names) == Show(tokens, names) + Shown(t, names)
  {
    if tokens == [] {
      assert (tokens + [t])[1..] == [];
    } else {
      assert (tokens + [t])[1..] == tokens[1..] + [t];
      ShowMore(tokens[1..], t, names);
    }
  }

  lemma {:induction false} ShowIsText(tokens: seq<Token>, names: seq<string>)
    ensures Show(tokens, names) == Text(tokens, names)
    decreases |tokens|
  {
    if tokens == [] {
    } else {
      hide Show, Shown;
      var before, last := tokens[..|tokens| - 1], tokens[|tokens| - 1];
      ShowIsText(before, names);
      ShowMore(before, last, names);
      assert before + [last] == tokens;
    }
  }

  lemma {:induction false} DigitsThen(digits: string, rest: string)
    requires forall i :: 0 <= i < |digits| ==> IsDigit(digits[i])
    requires rest != [] ==> !IsDigit(rest[0])
    ensures DigitRun(digits + rest) == |digits|
  {
    if digits == [] {
      assert digits + rest == rest;
    } else {
      assert (digits + rest)[1..] == digits[1..] + rest;
      DigitsThen(digits[1..], rest);
    }
  }

  /** A shown parameter is read back as its number. */
  lemma ReadBack(position: nat, rest: string, values: seq<Value>)
    requires rest != [] ==> !IsDigit(rest[0])
    ensures PositionalMeaning("$" + NatText(position) + rest, values) == [Argument(values, position)] + PositionalMeaning(rest, values)
  {
    var digits := NatText(position);
    var text := "$" + digits + rest;
    assert text[1..] == digits + rest;
    DigitsThen(digits, rest);
    assert (digits + rest)[..|digits|] == digits && (digits + rest)[|digits|..] == rest;
    ParseNatText(position);
  }

  /** What is shown for a statement starts with a digit exactly if the statement does. */
  lemma FirstShown(sql: string, names: seq<string>)
    ensures var shown := Show(Tokens(sql), names);
            (shown == [] <==> sql == []) && (sql != [] ==> (IsDigit(shown[0]) <==> IsDigit(sql[0])))
  {}

  lemma DollarDigitTail(sql: string, n: nat)
    requires n <= |sql| && forall i :: 0 <= i < n && i < |sql| - 1 && sql[i] == '$' ==> !IsDigit(sql[i + 1])
    ensures DollarDigit(sql) <==> DollarDigit(sql[n..])
  {
    if DollarDigit(sql) {
      var i :| 0 <= i < |sql| - 1 && sql[i] == '$' && IsDigit(sql[i + 1]);
      assert sql[n..][i - n] == '$' && IsDigit(sql[n..][i - n + 1]);
    }
    if DollarDigit(sql[n..]) {
      var i :| 0 <= i < |sql[n..]| - 1 && sql[n..][i] == '$' && IsDigit(sql[n..][i + 1]);
      assert sql[n + i] == '$' && IsDigit(sql[n + i + 1]);
    }
  }

  lemma {:induction false} NameRunIs(s: string)
    ensures forall i :: 0 <= i < NameRun(s) ==> IsPart(s[i])
  {
    if s == [] || !IsPart(s[0]) {
    } else {
      NameRunIs(s[1..]);
      assert forall i :: 1 <= i < NameRun(s) ==> s[i] == s[1..][i - 1];
    }
  }

  /** The statement is read as it was meant. */
  ghost predicate Kept(tokens: seq<Token>, names: seq<string>, params: map<string, Value>)
    requires (forall n <- names :: n in params) && forall n | Used(tokens, n) :: n in names
  {
    PositionalMeaning(Show(tokens, names), Values(names, params)) == NamedMeaning(tokens, params)
  }

  lemma UsedCons(t: Token, tokens: seq<Token>, n: string)
    ensures Used([t] + tokens, n) <==> t == Name(n) || Used(tokens, n)
  {}

  lemma ShowCons(t: Token, tokens: seq<Token>, names: seq<string>, params: map<string, Value>)
    requires forall n | Used([t] + tokens, n) :: n in params
    ensures Show([t] + tokens, names) == Shown(t, names) + Show(tokens, names)
    ensures t.Name? ==> t.name in params
    ensures forall n | Used(tokens, n) :: n in params
    ensures NamedMeaning([t] + tokens, params)
            == [if t.Char? then Plain(t.c) else Bound(params[t.name])] + NamedMeaning(tokens, params)
  {
    assert ([t] + tokens)[1..] == tokens;
    forall n ensures Used([t] + tokens, n) <==> t == Name(n) || Used(tokens, n) { UsedCons(t, tokens, n); }
  }

  lemma SameHeads<T>(head: T, a: seq<T>, b: seq<T>)
    ensures [head] + a == [head] + b <==> a == b
  {
    assert ([head] + a)[1..] == a && ([head] + b)[1..] == b;
  }

  lemma NameKept(name: string, tokens: seq<Token>, names: seq<string>, params: map<string, Value>)
    requires (forall n <- names :: n in params) && forall n | Used([Name(name)] + tokens, n) :: n in names
    requires var rest := Show(tokens, names); rest != [] ==> !IsDigit(rest[0])
    ensures forall n | Used(tokens, n) :: n in names
    ensures Kept([Name(name)] + tokens, names, params) <==> Kept(tokens, names, params)
  {
    hide PositionalMeaning, NamedMeaning, Show;
    var rest, values := Show(tokens, names), Values(names, params);
    forall n ensures Used([Name(name)] + tokens, n) <==> Name(name) == Name(n) || Used(tokens, n) { UsedCons(Name(name), tokens, n); }
    IndexIs(names, name);
    ShowCons(Name(name), tokens, names, params);
    ReadBack(IndexOf(names, name), rest, values);
    SameHeads(Bound(params[name]), PositionalMeaning(rest, values), NamedMeaning(tokens, params));
  }

  lemma CharRead(c: char, rest: string, values: seq<Value>)
    ensures c == '$' && rest != [] && IsDigit(rest[0]) ==>
              PositionalMeaning([c] + rest, values) != [] && !PositionalMeaning([c] + rest, values)[0].Plain?
    ensures !(c == '$' && rest != [] && IsDigit(rest[0])) ==>
              PositionalMeaning([c] + rest, values) == [Plain(c)] + PositionalMeaning(rest, values)
  {
    assert ([c] + rest)[1..] == rest;
  }

  lemma CharKept(c: char, tokens: seq<Token>, names: seq<string>, params: map<string, Value>)
    requires (forall n <- names :: n in params) && forall n | Used([Char(c)] + tokens, n) :: n in names
    ensures forall n | Used(tokens, n) :: n in names
    ensures var rest := Show(tokens, names);
            Kept([Char(c)] + tokens, names, params)
            <==> !(c == '$' && rest != [] && IsDigit(rest[0])) && Kept(tokens, names, params)
  {
    hide PositionalMeaning, NamedMeaning, Show;
    var rest, values := Show(tokens, names), Values(names, params);
    forall n ensures Used([Char(c)] + tokens, n) <==> Char(c) == Name(n) || Used(tokens, n) { UsedCons(Char(c), tokens, n); }
    ShowCons(Char(c), tokens, names, params);
    CharRead(c, rest, values);
    SameHeads(Plain(c), PositionalMeaning(rest, values), NamedMeaning(tokens, params));
  }

  lemma NameFirst(sql: string)
    requires |sql| > 1 && sql[0] == '@' && IsStart(sql[1])
    ensures var k := NameRun(sql[1..]); Tokens(sql) == [Name(sql[1..][..k])] + Tokens(sql[1..][k..])
  {
    hide NameRun;
  }

  lemma NameTail(sql: string)
    requires |sql| > 1 && sql[0] == '@' && IsStart(sql[1])
    ensures var k := NameRun(sql[1..]);
            var tail := sql[1..][k..];
            && Tokens(sql) == [Name(sql[1..][..k])] + Tokens(tail)
            && (tail != [] ==> !IsDigit(tail[0]))
            && (DollarDigit(sql) <==> DollarDigit(tail))
  {
    hide Tokens, NameRun, DollarDigit;
    var k := NameRun(sql[1..]);
    NameFirst(sql);
    NameRunIs(sql[1..]);
    assert forall i :: 1 <= i < 1 + k ==> sql[i] == sql[1..][i - 1];
    DollarDigitTail(sql, 1 + k);
    assert sql[1 + k..] == sql[1..][k..];
  }

  lemma {:induction false} KeptIff(sql: string, names: seq<string>, params: map<string, Value>)
    requires (forall n <- names :: n in params) && forall n | Used(Tokens(sql), n) :: n in names
    ensures Kept(Tokens(sql), names, params) <==> !DollarDigit(sql)
    decreases |sql|
  {
    hide Kept;
    if sql == [] {
      KeptEmpty(names, params);
    } else if |sql| > 1 && sql[0] == '@' && IsStart(sql[1]) {
      var k := NameRun(sql[1..]);
      var tail := sql[1..][k..];
      NameTail(sql);
      FirstShown(tail, names);
      NameKept(sql[1..][..k], Tokens(tail), names, params);
      KeptIff(tail, names, params);
    } else {
      assert Tokens(sql) == [Char(sql[0])] + Tokens(sql[1..]);
      FirstShown(sql[1..], names);
      CharKept(sql[0], Tokens(sql[1..]), names, params);
      KeptIff(sql[1..], names, params);
      DollarDigitHead(sql);
    }
  }

  lemma KeptEmpty(names: seq<string>, params: map<string, Value>)
    requires forall n <- names :: n in params
    ensures Kept([], names, params)
  {}

  lemma DollarDigitHead(sql: string)
    requires sql != []
    ensures DollarDigit(sql) <==> (|sql| > 1 && sql[0] == '$' && IsDigit(sql[1])) || DollarDigit(sql[1..])
  {
    if !(|sql| > 1 && sql[0] == '$' && IsDigit(sql[1])) {
      DollarDigitTail(sql, 1);
    }
  }

  /** Reading the positional statement and filling in the values says what the named one says,
      if and only if no `$` stands right before a digit. */
  lemma MeaningKeptIff(sql: string, params: map<string, Value>)
    requires forall n | Used(Tokens(sql), n) :: n in params
    ensures var names := Positions(Tokens(sql));
            && (forall n <- names :: n in params)
            && (PositionalMeaning(Text(Tokens(sql), names), Values(names, params)) == NamedMeaning(Tokens(sql), params)
                <==> !DollarDigit(sql))
  {
    PositionsAre(Tokens(sql));
    ShowIsText(Tokens(sql), Positions(Tokens(sql)));
    KeptIff(sql, Positions(Tokens(sql)), params);
  }

  /** The statement `@a$1` says: the value of a, a dollar, a one. */
  lemma DollarTokens()
    ensures Tokens("@a$1") == [Name("a"), Char('$'), Char('1')]
  {
    var sql := "@a$1";
    assert sql[1..] == "a$1" && "a$1"[1..] == "$1" && NameRun("$1") == 0;
    assert NameRun("a$1") == 1 && "a$1"[..1] == "a";
    assert "$1"[1..] == "1" && "1"[1..] == "";
    assert Tokens("1") == [Char('1')] && Tokens("$1") == [Char('$')] + Tokens("1");
  }

  /** Rewritten, its last two characters are read as a second parameter. */
  lemma DollarMisread(v: Value)
    ensures var params, tokens := map["a" := v], Tokens("@a$1");
            && (forall n | Used(tokens, n) :: n in params)
            && (forall n <- Positions(tokens) :: n in params)
            && PositionalMeaning(Text(tokens, Positions(tokens)), Values(Positions(tokens), params)) != NamedMeaning(tokens, params)
  {
    DollarTokens();
    var sql := "@a$1";
    assert sql[2] == '$' && IsDigit(sql[3]);
    assert DollarDigit(sql);
    MeaningKeptIff(sql, map["a" := v]);
  }
}
