/** Traefik match expressions: the literal hosts and paths of an IngressRoute rule, and the listing of IngressRoutes. */
module Traefik {
  import opened Text
  import opened Sequences
  import opened Catalog
  import opened Scanning

  const HOST_CALLS := ["host", "hostsni"]
  const PATH_CALLS := ["pathprefix", "path"]

  // -------------------------------------------------------------- the regular expressions

  /** `\w`, which is ASCII only. */
  predicate IsWord(c: char) { 'a' <= c <= 'z' || 'A' <= c <= 'Z' || '0' <= c <= '9' || c == '_' }

  /** The two letters outside ASCII that fold to ASCII letters. */
  const LONG_S := '\U{017F}'
  const KELVIN := '\U{212A}'

  /** Case folding as `(?i)` applies it to the letters of the call names. */
  function FoldCase(c: char): char {
    if 'A' <= c <= 'Z' then (c as int + 32) as char
    else if c == LONG_S then 's' else if c == KELVIN then 'k' else c
  }

  function FoldAll(s: string): (r: string)
    ensures |r| == |s| && forall i | 0 <= i < |s| :: r[i] == FoldCase(s[i])
  {
    Map(FoldCase, s)
  }

  /** `s` starts with this call name and an opening parenthesis. */
  predicate Opens(name: string, s: string) { |name| < |s| && FoldAll(s[..|name|]) == name && s[|name|] == '(' }

  /** The length of the first of the names that opens a call here. */
  function Opening(names: seq<string>, s: string): (n: Option<nat>)
    ensures n.Some? ==> n.value < |s| && s[n.value] == '('
    ensures n.None? ==> forall name | name in names :: !Opens(name, s)
  {
    if names == [] then None
    else if Opens(names[0], s) then Some(|names[0]|)
    else
      assert names == [names[0]] + names[1..];
      Opening(names[1..], s)
  }

  /** Where the arguments of a call that starts here begin. A call starts at a word boundary and ends at the next
      ')'; `word` tells whether the character before `s` is a word character. */
  function CallHere(names: seq<string>, word: bool, s: string): (n: Option<nat>)
    requires s != ""
    ensures n.Some? ==> 0 < n.value <= |s| && IndexOf(s[n.value..], ')') < |s| - n.value
  {
    var open := if word != IsWord(s[0]) then Opening(names, s) else None;
    if open.Some? && IndexOf(s[open.value + 1..], ')') < |s| - open.value - 1 then Some(open.value + 1) else None
  }

  /** The argument texts of the calls found in `s`, leftmost first and without overlaps. */
  function Calls(names: seq<string>, word: bool, s: string): seq<string>
    decreases |s|
  {
    if s == [] then []
    else
      match CallHere(names, word, s)
      case None => Calls(names, IsWord(s[0]), s[1..])
      case Some(n) =>
        var args := s[n..];
        var close := IndexOf(args, ')');
        [args[..close]] + Calls(names, false, args[close + 1..])
  }

  /** The first backtick-quoted literal of a text, and the text after it. */
  function Quoted(t: string): (first: Option<(string, string)>)
    ensures first.Some? ==> |first.value.1| < |t|
  {
    var p := IndexOf(t, '`');
    if p == |t| then None
    else
      var rest := t[p + 1..];
      var q := IndexOf(rest, '`');
      if q == |rest| then None else Some((rest[..q], rest[q + 1..]))
  }

  /** The backtick-quoted literals of a text. */
  function Literals(t: string): seq<string>
    decreases |t|
  {
    match Quoted(t)
    case None => []
    case Some((literal, rest)) => [literal] + Literals(rest)
  }

  // ------------------------------------------------------------------------- parsing

  predicate NonEmpty(s: string) { s != "" }

  /** Take one more literal, trimmed, unless it is empty or already there. */
  function AddLiteral(out: seq<string>, arg: string): seq<string> {
    var v := TrimSpace(arg);
    if v == "" then out else AddBy(Id, out, v)
  }

  function Cleaned(args: seq<string>): seq<string> { Fold(AddLiteral, [], args) }

  function Parsed(names: seq<string>, text: string): seq<string> {
    Cleaned(Flatten(Map(Literals, Calls(names, false, text))))
  }

  /** Cleaning trims the literals, drops the empty ones, and keeps first occurrences in order. */
  lemma {:induction false} CleanedExact(args: seq<string>)
    ensures Cleaned(args) == DedupBy(Id, Filter(NonEmpty, Map(TrimSpace, args)))
  {
    if args != [] {
      var n := |args| - 1;
      CleanedExact(args[..n]);
      MapNext(TrimSpace, args, n);
      assert args[..n + 1] == args;
      KeepNext(Map(TrimSpace, args[..n]), TrimSpace(args[n]));
    }
  }

  lemma KeepNext(vs: seq<string>, v: string)
    ensures DedupBy(Id, Filter(NonEmpty, vs + [v])) ==
            if v == "" then DedupBy(Id, Filter(NonEmpty, vs)) else AddBy(Id, DedupBy(Id, Filter(NonEmpty, vs)), v)
  {
  }

  method CollectLiterals(args: seq<string>, before: seq<string>) returns (out: seq<string>)
    ensures out == Fold(AddLiteral, before, args)
  {
    out := before;
    for i := 0 to |args|
      invariant out == Fold(AddLiteral, before, args[..i])
    {
      assert args[..i + 1] == args[..i] + [args[i]];
      FoldSnoc(AddLiteral, before, args[..i], args[i]);
      var v := TrimSpace(args[i]);
      if v != "" { out := AppendUnique(out, v); }
    }
    assert args[..|args|] == args;
  }

  lemma LiteralsNext(calls: seq<string>, i: nat)
    requires i < |calls|
    ensures Flatten(Map(Literals, calls[..i + 1])) == Flatten(Map(Literals, calls[..i])) + Literals(calls[i])
  {
    assert calls[..i + 1] == calls[..i] + [calls[i]];
    FlattenMapSnoc(Literals, calls[..i], calls[i]);
  }

  method ExtractBacktickArgs(names: seq<string>, text: string) returns (out: seq<string>)
    ensures out == Parsed(names, text)
  {
    var calls := Calls(names, false, text);
    out := [];
    for i := 0 to |calls|
      invariant out == Cleaned(Flatten(Map(Literals, calls[..i])))
    {
      LiteralsNext(calls, i);
      FoldAppend(AddLiteral, [], Flatten(Map(Literals, calls[..i])), Literals(calls[i]));
      out := CollectLiterals(Literals(calls[i]), out);
    }
    assert calls[..|calls|] == calls;
  }

  method ParseMatchHosts(text: string) returns (hosts: seq<string>)
    ensures hosts == Parsed(["host", "hostsni"], text)
  {
    hosts := ExtractBacktickArgs(HOST_CALLS, text);
  }

  method ParseMatchPaths(text: string) returns (paths: seq<string>)
    ensures paths == Parsed(["pathprefix", "path"], text)
  {
    paths := ExtractBacktickArgs(PATH_CALLS, text);
  }

  // ------------------------------------------------------------------------- printing

  /** One call of a match expression with the operators before it. */
  datatype Call = Call(before: string, name: string, args: seq<string>)

  function Quote(arg: string): string { "`" + arg + "`" }

  function MoreArgs(args: seq<string>): string {
    if args == [] then "" else ", " + Quote(args[0]) + MoreArgs(args[1..])
  }

  function ArgsText(args: seq<string>): string {
    if args == [] then "" else Quote(args[0]) + MoreArgs(args[1..])
  }

  function Print(calls: seq<Call>, tail: string): string {
    if calls == [] then tail
    else calls[0].before + calls[0].name + "(" + ArgsText(calls[0].args) + ")" + Print(calls[1..], tail)
  }

  /** Operators, blanks, negations, grouping: no word character. */
  predicate Operators(s: string) { forall c | c in s :: !IsWord(c) && c != LONG_S && c != KELVIN }

  predicate Name(s: string) { s != "" && forall c | c in s :: IsWord(c) }

  predicate Literal(s: string) { forall c | c in s :: c !in {'`', '(', ')', LONG_S, KELVIN} }

  predicate Wellformed(call: Call) {
    Operators(call.before) && Name(call.name) && forall a | a in call.args :: Literal(a)
  }

  /** The arguments of the calls with one of these names, in any case. */
  function ArgsOf(names: seq<string>, calls: seq<Call>): seq<string> {
    if calls == [] then []
    else (if FoldAll(calls[0].name) in names then calls[0].args else []) + ArgsOf(names, calls[1..])
  }

  /** Call names are made of lower-case letters. */
  predicate CallNames(names: seq<string>) { forall n | n in names :: n != "" && forall c | c in n :: 'a' <= c <= 'z' }

  lemma FoldedIsWord(c: char)
    requires 'a' <= FoldCase(c) <= 'z' && c != LONG_S && c != KELVIN
    ensures IsWord(c)
  {
  }

  /** No call opens at a character that is not a word character. */
  lemma NothingOpens(names: seq<string>, s: string)
    requires CallNames(names) && s != "" && !IsWord(s[0]) && s[0] != LONG_S && s[0] != KELVIN
    ensures Opening(names, s) == None
  {
    var open := Opening(names, s);
    if open.Some? {
      var n := OpeningName(names, s);
      assert n[0] in n && n[0] == FoldAll(s[..|n|])[0];
      FoldedIsWord(s[0]);
      assert false;
    }
  }

  lemma {:induction false} OpeningName(names: seq<string>, s: string) returns (n: string)
    requires Opening(names, s).Some?
    ensures n in names && Opens(n, s) && |n| == Opening(names, s).value
  {
    if Opens(names[0], s) { n := names[0]; } else { n := OpeningName(names[1..], s); }
  }

  lemma {:induction false} SkipOperators(names: seq<string>, word: bool, t: string, rest: string)
    requires CallNames(names) && Operators(t)
    ensures Calls(names, word, t + rest) == Calls(names, if t == "" then word else false, rest)
    decreases |t|
  {
    if t == "" {
      assert t + rest == rest;
    } else {
      var s := t + rest;
      assert s[0] == t[0] && s[1..] == t[1..] + rest;
      NothingOpens(names, s);
      SkipOperators(names, false, t[1..], rest);
    }
  }

  /** A call name matches only a whole name in front of the parenthesis. */
  lemma WholeName(n: string, name: string, rest: string)
    requires CallNames([n]) && Name(name) && Opens(n, name + "(" + rest)
    ensures n == FoldAll(name)
  {
    var s := name + "(" + rest;
    assert n in [n];
    assert forall k | 0 <= k < |n| :: n[k] in n && n[k] == FoldCase(s[k]);
    assert forall k | 0 <= k < |name| :: name[k] in name && s[k] == name[k];
    assert s[|name|] == '(' && |n| == |name|;
    assert s[..|n|] == name;
  }

  /** The rest of a word cannot start a call. */
  lemma {:induction false} SkipWord(names: seq<string>, t: string, rest: string)
    requires forall c | c in t :: IsWord(c)
    ensures Calls(names, true, t + rest) == Calls(names, true, rest)
    decreases |t|
  {
    if t == "" {
      assert t + rest == rest;
    } else {
      var s := t + rest;
      assert s[0] == t[0] && s[1..] == t[1..] + rest;
      SkipWord(names, t[1..], rest);
    }
  }

  lemma SkipName(names: seq<string>, name: string, rest: string)
    requires CallNames(names) && Name(name) && FoldAll(name) !in names
    ensures Calls(names, false, name + "(" + rest) == Calls(names, false, rest)
  {
    var s := name + "(" + rest;
    if Opening(names, s).Some? {
      var n := OpeningName(names, s);
      WholeName(n, name, rest);
      assert false;
    }
    assert s[0] == name[0] && s[1..] == name[1..] + ("(" + rest);
    SkipWord(names, name[1..], "(" + rest);
    SkipOperators(names, true, "(", rest);
  }

  lemma OpensWhole(names: seq<string>, name: string, inner: string)
    requires CallNames(names) && Name(name) && FoldAll(name) in names
    ensures Opening(names, name + "(" + inner) == Some(|name|)
  {
    var s := name + "(" + inner;
    assert s[..|name|] == name && s[|name|] == '(';
    assert Opens(FoldAll(name), s);
    var n := OpeningName(names, s);
    WholeName(n, name, inner);
  }

  lemma TakeCall(names: seq<string>, name: string, args: string, rest: string)
    requires CallNames(names) && Name(name) && FoldAll(name) in names && ')' !in args
    ensures Calls(names, false, name + "(" + (args + ")" + rest)) == [args] + Calls(names, false, rest)
  {
    var inner := args + ")" + rest;
    var s := name + "(" + inner;
    OpensWhole(names, name, inner);
    assert s[|name| + 1..] == inner && s[0] == name[0] && name[0] in name;
    IndexOfFirst(args, ')', rest);
    assert inner[..|args|] == args && inner[|args| + 1..] == rest;
    assert CallHere(names, false, s) == Some(|name| + 1);
  }

  /** Text without parentheses that ends outside a word cannot start a call. */
  lemma {:induction false} SkipPlain(names: seq<string>, word: bool, t: string, rest: string)
    requires CallNames(names) && '(' !in t && LONG_S !in t && KELVIN !in t && (t != "" ==> !IsWord(t[|t| - 1]))
    ensures Calls(names, word, t + rest) == Calls(names, if t == "" then word else false, rest)
    decreases |t|
  {
    if t == "" {
      assert t + rest == rest;
    } else {
      var s := t + rest;
      assert s[0] == t[0] && s[1..] == t[1..] + rest;
      if Opening(names, s).Some? {
        var n := OpeningName(names, s);
        NotAcross(n, t, rest);
        assert false;
      }
      SkipPlain(names, IsWord(t[0]), t[1..], rest);
    }
  }

  lemma NotAcross(n: string, t: string, rest: string)
    requires CallNames([n]) && t != "" && '(' !in t && LONG_S !in t && KELVIN !in t && !IsWord(t[|t| - 1])
    ensures !Opens(n, t + rest)
  {
    var s := t + rest;
    assert n in [n];
    assert forall k | 0 <= k < |t| :: t[k] in t && s[k] == t[k];
    assert |n| < |s| && FoldAll(s[..|n|]) == n ==> forall k | 0 <= k < |n| :: n[k] in n && n[k] == FoldCase(s[k]);
  }

  // ----------------------------------------------------------------------- round trip

  predicate ArgsPlain(t: string) { '(' !in t && ')' !in t && LONG_S !in t && KELVIN !in t }

  lemma {:induction false} MoreArgsPlain(args: seq<string>)
    requires forall a | a in args :: Literal(a)
    ensures ArgsPlain(MoreArgs(args))
  {
    if args != [] {
      assert args[0] in args;
      assert forall c | c in ", " + Quote(args[0]) :: c in {',', ' ', '`'} || c in args[0];
      MoreArgsPlain(args[1..]);
    }
  }

  lemma ArgsTextPlain(args: seq<string>)
    requires forall a | a in args :: Literal(a)
    ensures ArgsPlain(ArgsText(args))
  {
    if args != [] {
      assert args[0] in args;
      assert forall c | c in Quote(args[0]) :: c == '`' || c in args[0];
      MoreArgsPlain(args[1..]);
    }
  }

  lemma Unquoted(arg: string, rest: string)
    requires '`' !in arg
    ensures
      var inner := arg + "`" + rest;
      IndexOf(inner, '`') == |arg| < |inner| && inner[..|arg|] == arg && inner[|arg| + 1..] == rest
  {
    IndexOfFirst(arg, '`', rest);
    Parts(arg, '`', rest);
  }

  lemma QuotedFirst(pre: string, arg: string, rest: string)
    requires '`' !in pre && '`' !in arg
    ensures Quoted(pre + "`" + (arg + "`" + rest)) == Some((arg, rest))
  {
    Unquoted(pre, arg + "`" + rest);
    Unquoted(arg, rest);
  }

  lemma LiteralFirst(pre: string, arg: string, rest: string)
    requires '`' !in pre && '`' !in arg
    ensures Literals(pre + Quote(arg) + rest) == [arg] + Literals(rest)
  {
    QuotedFirst(pre, arg, rest);
    QuoteParts(pre, arg, rest);
  }

  lemma QuoteParts(pre: string, arg: string, rest: string)
    ensures pre + Quote(arg) + rest == pre + "`" + (arg + "`" + rest)
  {
  }

  lemma Parts(a: string, sep: char, b: string)
    ensures (a + [sep] + b)[..|a|] == a && (a + [sep] + b)[|a| + 1..] == b
  {
  }

  lemma {:induction false} MoreRoundTrip(args: seq<string>)
    requires forall a | a in args :: Literal(a)
    ensures Literals(MoreArgs(args)) == args
  {
    if args != [] {
      assert args[0] in args && args == [args[0]] + args[1..];
      MoreRoundTrip(args[1..]);
      LiteralFirst(", ", args[0], MoreArgs(args[1..]));
    }
  }

  /** The literals of a printed argument list are the arguments. */
  lemma ArgsRoundTrip(args: seq<string>)
    requires forall a | a in args :: Literal(a)
    ensures Literals(ArgsText(args)) == args
  {
    if args != [] {
      assert args[0] in args && args == [args[0]] + args[1..];
      MoreRoundTrip(args[1..]);
      LiteralHead(args[0], MoreArgs(args[1..]));
    }
  }

  lemma LiteralHead(arg: string, rest: string)
    requires '`' !in arg
    ensures Literals(Quote(arg) + rest) == [arg] + Literals(rest)
  {
    NothingBefore(Quote(arg));
    LiteralFirst("", arg, rest);
  }

  lemma NothingBefore(s: string)
    ensures "" + s == s
  {
  }

  /** The argument texts of the calls with one of the names. */
  function TextsOf(names: seq<string>, calls: seq<Call>): seq<string> {
    if calls == [] then []
    else (if FoldAll(calls[0].name) in names then [ArgsText(calls[0].args)] else []) + TextsOf(names, calls[1..])
  }

  lemma OneCall(names: seq<string>, call: Call, rest: string)
    requires CallNames(names) && Wellformed(call)
    ensures Calls(names, false, call.before + call.name + "(" + ArgsText(call.args) + ")" + rest) ==
            (if FoldAll(call.name) in names then [ArgsText(call.args)] else []) + Calls(names, false, rest)
  {
    var args := ArgsText(call.args);
    var body := call.name + "(" + (args + ")" + rest);
    assert call.before + call.name + "(" + args + ")" + rest == call.before + body;
    SkipOperators(names, false, call.before, body);
    ArgsTextPlain(call.args);
    if FoldAll(call.name) in names {
      TakeCall(names, call.name, args, rest);
    } else {
      SkipName(names, call.name, args + ")" + rest);
      SkipPlain(names, false, args + ")", rest);
    }
  }

  lemma {:induction false} CallsOfPrinted(names: seq<string>, calls: seq<Call>, tail: string)
    requires CallNames(names) && Operators(tail) && forall c | c in calls :: Wellformed(c)
    ensures Calls(names, false, Print(calls, tail)) == TextsOf(names, calls)
  {
    if calls == [] {
      SkipOperators(names, false, tail, "");
      assert tail + "" == tail;
    } else {
      assert calls[0] in calls;
      CallsOfPrinted(names, calls[1..], tail);
      OneCall(names, calls[0], Print(calls[1..], tail));
    }
  }

  lemma FlattenCons<T>(x: seq<T>, ss: seq<seq<T>>)
    ensures Flatten([x] + ss) == x + Flatten(ss)
  {
    FlattenAppend([x], ss);
    FlattenSnoc([], x);
    assert [] + [x] == [x] && [] + x == x;
  }

  lemma LiteralsCons(text: string, texts: seq<string>)
    ensures Flatten(Map(Literals, [text] + texts)) == Literals(text) + Flatten(Map(Literals, texts))
  {
    MapAppend(Literals, [text], texts);
    assert Map(Literals, [text]) == [Literals(text)];
    FlattenCons(Literals(text), Map(Literals, texts));
  }

  lemma {:induction false} LiteralsOfTexts(names: seq<string>, calls: seq<Call>)
    requires forall c | c in calls :: Wellformed(c)
    ensures Flatten(Map(Literals, TextsOf(names, calls))) == ArgsOf(names, calls)
  {
    if calls != [] {
      assert calls[0] in calls;
      var texts := TextsOf(names, calls[1..]);
      LiteralsOfTexts(names, calls[1..]);
      if FoldAll(calls[0].name) in names {
        ArgsRoundTrip(calls[0].args);
        LiteralsCons(ArgsText(calls[0].args), texts);
      } else {
        assert [] + texts == texts;
      }
    }
  }

  /** Parsing a printed expression gives back the arguments of the calls with the wanted names, in any letter case:
      trimmed, without the blank ones, first occurrences in order. Every other call, such as a regular-expression
      matcher, contributes nothing. */
  lemma MatchRoundTrip(names: seq<string>, calls: seq<Call>, tail: string)
    requires CallNames(names) && Operators(tail) && forall c | c in calls :: Wellformed(c)
    ensures Parsed(names, Print(calls, tail)) == DedupBy(Id, Filter(NonEmpty, Map(TrimSpace, ArgsOf(names, calls))))
  {
    CleanedExact(ArgsOf(names, calls));
    CallsOfPrinted(names, calls, tail);
    LiteralsOfTexts(names, calls);
  }

  /** The arguments of the calls with one of two names in any letter case, in order. */
  function ArgsNamed(one: string, other: string, calls: seq<Call>): seq<string> {
    if calls == [] then []
    else
      (if SameLetters(calls[0].name, one) || SameLetters(calls[0].name, other) then calls[0].args else []) +
      ArgsNamed(one, other, calls[1..])
  }

  predicate Lower(name: string) { name != "" && forall c | c in name :: 'a' <= c <= 'z' }

  lemma FoldedLetters(name: string, lower: string)
    requires Name(name) && Lower(lower)
    ensures FoldAll(name) == lower <==> SameLetters(name, lower)
  {
    forall i | 0 <= i < |name| && |name| == |lower|
      ensures FoldCase(name[i]) == lower[i] <==>
              name[i] == lower[i] || ('A' <= name[i] <= 'Z' && name[i] as int + 32 == lower[i] as int)
    {
      assert name[i] in name && lower[i] in lower && IsWord(name[i]);
      FoldedLetter(name[i], lower[i]);
    }
  }

  lemma FoldedLetter(c: char, d: char)
    requires IsWord(c) && 'a' <= d <= 'z'
    ensures FoldCase(c) == d <==> c == d || ('A' <= c <= 'Z' && c as int + 32 == d as int)
  {
  }

  lemma {:induction false} ArgsByName(one: string, other: string, calls: seq<Call>)
    requires Lower(one) && Lower(other) && forall c | c in calls :: Wellformed(c)
    ensures ArgsOf([one, other], calls) == ArgsNamed(one, other, calls)
  {
    if calls != [] {
      assert calls[0] in calls;
      FoldedLetters(calls[0].name, one);
      FoldedLetters(calls[0].name, other);
      ArgsByName(one, other, calls[1..]);
    }
  }

  lemma NamedRoundTrip(one: string, other: string, calls: seq<Call>, tail: string)
    requires Lower(one) && Lower(other) && Operators(tail) && forall c | c in calls :: Wellformed(c)
    ensures Parsed([one, other], Print(calls, tail)) ==
            DedupBy(Id, Filter(NonEmpty, Map(TrimSpace, ArgsNamed(one, other, calls))))
  {
    MatchRoundTrip([one, other], calls, tail);
    ArgsByName(one, other, calls);
  }

  /** The hosts of a printed expression are the trimmed, non-blank, distinct arguments of its calls to Host and HostSNI,
      its paths those of its calls to PathPrefix and Path, whatever the letter case of the names. */
  lemma HostsAndPaths(calls: seq<Call>, tail: string)
    requires Operators(tail) && forall c | c in calls :: Wellformed(c)
    ensures Parsed(["host", "hostsni"], Print(calls, tail)) ==
            DedupBy(Id, Filter(NonEmpty, Map(TrimSpace, ArgsNamed("host", "hostsni", calls))))
    ensures Parsed(["pathprefix", "path"], Print(calls, tail)) ==
            DedupBy(Id, Filter(NonEmpty, Map(TrimSpace, ArgsNamed("pathprefix", "path", calls))))
  {
    NamedRoundTrip("host", "hostsni", calls, tail);
    NamedRoundTrip("pathprefix", "path", calls, tail);
  }

  /** For trimmed, non-empty arguments: exactly the distinct arguments. */
  lemma TrimmedRoundTrip(one: string, other: string, calls: seq<Call>, tail: string)
    requires Lower(one) && Lower(other) && Operators(tail) && forall c | c in calls :: Wellformed(c)
    requires forall a | a in ArgsNamed(one, other, calls) :: a != "" && TrimSpace(a) == a
    ensures Parsed([one, other], Print(calls, tail)) == DedupBy(Id, ArgsNamed(one, other, calls))
  {
    var args := ArgsNamed(one, other, calls);
    NamedRoundTrip(one, other, calls, tail);
    MapIdentity(TrimSpace, args);
    FilterAll(NonEmpty, args);
  }

  // ------------------------------------------------------------------------- listing

  function RouteId(ir: IngressRouteInfo): string { JoinKey(ir.namespace, ir.name) }

  function Scoped(scope: Scope): IngressRouteInfo -> bool { (ir: IngressRouteInfo) => scope.ShouldScan(ir.namespace) }

  /** What an API group answered; nothing when it could not be listed. */
  function Answered(list: Option<seq<IngressRouteInfo>>): seq<IngressRouteInfo> { list.GetOr([]) }

  /** The objects in scope, each namespace/name once, the current API group before the legacy one. */
  function Listed(scope: Scope, lists: seq<Option<seq<IngressRouteInfo>>>): seq<IngressRouteInfo> {
    DedupBy(RouteId, Filter(Scoped(scope), Flatten(Map(Answered, lists))))
  }

  /** Add the objects of one API group. */
  method AddGroup(scope: Scope, items: seq<IngressRouteInfo>, seen: set<string>, before: seq<IngressRouteInfo>,
                  ghost was: seq<IngressRouteInfo>)
    returns (seen': set<string>, out: seq<IngressRouteInfo>)
    requires before == DedupBy(RouteId, Filter(Scoped(scope), was)) &&
             forall k :: k in seen <==> HasKey(RouteId, before, k)
    ensures out == DedupBy(RouteId, Filter(Scoped(scope), was + items)) &&
            forall k :: k in seen' <==> HasKey(RouteId, out, k)
  {
    seen', out := seen, before;
    assert was + items[..0] == was;
    for i := 0 to |items|
      invariant out == DedupBy(RouteId, Filter(Scoped(scope), was + items[..i]))
      invariant forall k :: k in seen' <==> HasKey(RouteId, out, k)
    {
      ListedNext(scope, was, items, i);
      if !scope.ShouldScan(items[i].namespace) { continue; }
      var key := JoinKey(items[i].namespace, items[i].name);
      if key in seen' { continue; }
      AddedKeys(out, items[i]);
      seen', out := seen' + {key}, out + [items[i]];
    }
    assert items[..|items|] == items;
  }

  lemma ListedNext(scope: Scope, was: seq<IngressRouteInfo>, items: seq<IngressRouteInfo>, i: nat)
    requires i < |items|
    ensures
      var out := DedupBy(RouteId, Filter(Scoped(scope), was + items[..i]));
      DedupBy(RouteId, Filter(Scoped(scope), was + items[..i + 1])) ==
      if Scoped(scope)(items[i]) then AddBy(RouteId, out, items[i]) else out
  {
    var upTo := was + items[..i + 1];
    assert upTo[..|upTo| - 1] == was + items[..i] && upTo[|upTo| - 1] == items[i];
    var kept := Filter(Scoped(scope), was + items[..i]);
    assert (kept + [items[i]])[..|kept|] == kept;
  }

  lemma AddedKeys(out: seq<IngressRouteInfo>, ir: IngressRouteInfo)
    ensures forall k :: HasKey(RouteId, out + [ir], k) <==> HasKey(RouteId, out, k) || k == RouteId(ir)
  {
  }

  method ListIngressRoutes(scope: Scope, lists: seq<Option<seq<IngressRouteInfo>>>) returns (out: seq<IngressRouteInfo>)
    ensures out == Listed(scope, lists)
  {
    var seen: set<string> := {};
    out := [];
    for g := 0 to |lists|
      invariant out == Listed(scope, lists[..g])
      invariant forall k :: k in seen <==> HasKey(RouteId, out, k)
    {
      assert lists[..g + 1] == lists[..g] + [lists[g]];
      FlattenMapSnoc(Answered, lists[..g], lists[g]);
      ghost var was := Flatten(Map(Answered, lists[..g]));
      if lists[g].None? {
        assert was + [] == was;
        continue;
      }
      seen, out := AddGroup(scope, lists[g].value, seen, out, was);
    }
    assert lists[..|lists|] == lists;
  }

  /** Object `i` is the first of its namespace and name. */
  ghost predicate FirstNamed(all: seq<IngressRouteInfo>, i: nat) {
    i < |all| && forall j | 0 <= j < i :: all[j].namespace != all[i].namespace || all[j].name != all[i].name
  }

  lemma FirstByKey(all: seq<IngressRouteInfo>, i: nat)
    requires forall ir | ir in all :: SlashFree(ir.namespace)
    ensures FirstOfKey(RouteId, all, i) <==> FirstNamed(all, i)
  {
    if i < |all| {
      forall j | 0 <= j < i ensures RouteId(all[j]) == RouteId(all[i]) ==>
                                    all[j].namespace == all[i].namespace && all[j].name == all[i].name
      {
        assert all[j] in all && all[i] in all;
        if RouteId(all[j]) == RouteId(all[i]) {
          KeyInjective(all[j].namespace, all[j].name, all[i].namespace, all[i].name, '/');
        }
      }
    }
  }

  lemma FirstListed(all: seq<IngressRouteInfo>, ir: IngressRouteInfo)
    requires forall x | x in all :: SlashFree(x.namespace)
    ensures ir in DedupBy(RouteId, all) <==> exists i: nat :: FirstNamed(all, i) && all[i] == ir
  {
    DedupFirst(RouteId, all, ir);
    if i: nat :| FirstOfKey(RouteId, all, i) && all[i] == ir { FirstByKey(all, i); }
    if i: nat :| FirstNamed(all, i) && all[i] == ir { FirstByKey(all, i); }
  }

  /** No namespace and name is listed twice, and every object in scope is listed in the version of the first API group
      that has one under its namespace and name. */
  lemma ListedExact(scope: Scope, lists: seq<Option<seq<IngressRouteInfo>>>)
    requires forall ir | ir in Flatten(Map(Answered, lists)) :: SlashFree(ir.namespace)
    ensures
      var out, all := Listed(scope, lists), Filter(Scoped(scope), Flatten(Map(Answered, lists)));
      && DistinctBy(RouteId, out) && forall ir :: ir in out <==> exists i: nat :: FirstNamed(all, i) && all[i] == ir
  {
    var all := Filter(Scoped(scope), Flatten(Map(Answered, lists)));
    AddAllByKeys(RouteId, [], all);
    forall ir | ir in all ensures SlashFree(ir.namespace) {
      FilterIn(Scoped(scope), Flatten(Map(Answered, lists)), ir);
    }
    assert Listed(scope, lists) == DedupBy(RouteId, all);
    forall ir ensures ir in Listed(scope, lists) <==> exists i: nat :: FirstNamed(all, i) && all[i] == ir {
      FirstListed(all, ir);
    }
  }
}
