/** Algorithm names: how cryptomgr_schedule_probe takes "template(arg,...)" apart, and
    how crypto_alloc_instance2 puts such names together. A name is the string before
    its terminating NUL. */
module NameParser {
  import opened Options

  const CRYPTO_MAX_ATTRS := 32
  const CRYPTO_MAX_ALG_NAME := 64

  // ----- characters

  /** isalnum as the kernel's table has it, Latin-1 letters included. */
  predicate IsAlnum(c: char) {
    || '0' <= c <= '9' || 'A' <= c <= 'Z' || 'a' <= c <= 'z'
    || (0xc0 as char <= c <= 0xff as char && c != 0xd7 as char && c != 0xf7 as char)
  }

  predicate IsDigit(c: char) {
    '0' <= c <= '9'
  }

  predicate IsIdent(c: char) {
    IsAlnum(c) || c == '-' || c == '_'
  }

  /** *p, which may be the terminator but nothing behind it. */
  function At(s: string, p: nat): char
    requires p <= |s|
  {
    if p < |s| then s[p] else 0 as char
  }

  // ----- the grammar

  ghost predicate AllIdent(s: string) {
    forall i :: 0 <= i < |s| ==> IsIdent(s[i])
  }

  /** Every parenthesis is closed, after `depth` more have been. */
  predicate Balanced(s: string, depth: nat) {
    if s == [] then depth == 0
    else if s[0] == '(' then Balanced(s[1..], depth + 1)
    else if s[0] == ')' then depth > 0 && Balanced(s[1..], depth - 1)
    else Balanced(s[1..], depth)
  }

  /** An argument: an identifier, a balanced parenthesis, or one behind the other. */
  ghost predicate IsArg(a: string) {
    a != [] && exists k :: 0 <= k <= |a| && ArgSplit(a, k)
  }

  ghost predicate ArgSplit(a: string, k: nat)
    requires k <= |a|
  {
    && AllIdent(a[..k])
    && (k == |a| || (|a| >= k + 2 && a[k] == '(' && a[|a| - 1] == ')' && Balanced(a[k + 1..|a| - 1], 0)))
  }

  ghost predicate AllDigits(a: string) {
    forall i :: 0 <= i < |a| ==> IsDigit(a[i])
  }

  /** A parsed argument: CRYPTOA_U32 for a number, CRYPTOA_ALG for anything else. */
  datatype Arg = Alg(text: string) | Num(text: string)

  ghost function Tag(a: string): Arg {
    if AllDigits(a) then Num(a) else Alg(a)
  }

  ghost function Tags(args: seq<string>): (r: seq<Arg>)
    ensures |r| == |args|
  {
    if args == [] then [] else Tags(args[..|args| - 1]) + [Tag(args[|args| - 1])]
  }

  lemma {:induction false} TagsGrow(args: seq<string>, a: string)
    ensures Tags(args + [a]) == Tags(args) + [Tag(a)]
  {
    assert (args + [a])[..|args|] == args;
  }

  // ----- the printer

  function Join(args: seq<string>): string
    requires args != []
  {
    if |args| == 1 then args[0] else args[0] + "," + Join(args[1..])
  }

  function Print(template: string, args: seq<string>): string
    requires args != []
  {
    template + "(" + Join(args) + ")"
  }

  /** snprintf(..., "%s(%s)", ...) into a name of CRYPTO_MAX_ALG_NAME bytes. */
  function InstanceName(template: string, alg: string): Option<string> {
    var name := template + "(" + alg + ")";
    if |name| >= CRYPTO_MAX_ALG_NAME then None else Some(name)
  }

  // ----- the scanner

  /** The end of the identifier at `p`. */
  function IdentEnd(s: string, p: nat): (e: nat)
    requires p <= |s|
    ensures p <= e <= |s|
    decreases |s| - p
  {
    if p < |s| && IsIdent(s[p]) then IdentEnd(s, p + 1) else p
  }

  /** The parenthesis that closes the one before `p`, `depth` others being open. */
  function Close(s: string, p: nat, depth: nat): (e: Option<nat>)
    requires p <= |s|
    ensures e.Some? ==> p <= e.value < |s| && s[e.value] == ')'
    decreases |s| - p
  {
    if p == |s| then None
    else if s[p] == '(' then Close(s, p + 1, depth + 1)
    else if s[p] == ')' then if depth == 0 then Some(p) else Close(s, p + 1, depth - 1)
    else Close(s, p + 1, depth)
  }

  function ArgEnd(s: string, p: nat): (e: Option<nat>)
    requires p <= |s|
    ensures e.Some? ==> p <= e.value <= |s|
  {
    var k := IdentEnd(s, p);
    if At(s, k) == '(' && k < |s| then
      var c := Close(s, k + 1, 0);
      if c.Some? then Some(c.value + 1) else None
    else Some(k)
  }

  /** The arguments from `p` on, `n` having been read. */
  function ParseArgs(s: string, p: nat, n: nat): Option<seq<string>>
    requires p <= |s|
    decreases |s| - p
  {
    var e := ArgEnd(s, p);
    if e.None? || e.value == p || n + 1 >= CRYPTO_MAX_ATTRS || e.value == |s| then None
    else if s[e.value] == ')' then Some([s[p..e.value]])
    else if s[e.value] == ',' then
      var rest := ParseArgs(s, e.value + 1, n + 1);
      if rest.None? then None else Some([s[p..e.value]] + rest.value)
    else None
  }

  datatype Parsed = Failed | Parsed(template: string, args: seq<string>)

  function Parse(s: string): Parsed {
    var k := IdentEnd(s, 0);
    if k == 0 || k == |s| || s[k] != '(' then Failed
    else
      var args := ParseArgs(s, k + 1, 0);
      if args.None? then Failed else Parsed(s[..k], args.value)
  }

  // ----- what the scanner finds

  /** `w` stands in `s` at `p`. */
  ghost predicate HasAt(s: string, p: nat, w: string) {
    p + |w| <= |s| && s[p..p + |w|] == w
  }

  lemma {:induction false} ConcatAssoc(u: string, v: string, w: string)
    ensures (u + v) + w == u + (v + w)
  {
  }

  lemma {:induction false} HasAtSplit(s: string, p: nat, u: string, v: string)
    ensures HasAt(s, p, u + v) == (HasAt(s, p, u) && HasAt(s, p + |u|, v))
  {
    if HasAt(s, p, u + v) {
      assert s[p..p + |u + v|][..|u|] == u && s[p..p + |u + v|][|u|..] == v;
    }
    if HasAt(s, p, u) && HasAt(s, p + |u|, v) {
      assert s[p..p + |u + v|] == s[p..p + |u|] + s[p + |u|..p + |u| + |v|];
    }
  }

  lemma {:induction false} SliceSlice(s: string, p: nat, e: nat, i: nat, j: nat)
    requires p <= e <= |s| && i <= j <= e - p
    ensures s[p..e][i..j] == s[p + i..p + j]
  {
    assert forall k :: 0 <= k < j - i ==> s[p..e][i..j][k] == s[p + i..p + j][k];
  }

  lemma {:induction false} IdentEndIs(s: string, p: nat)
    requires p <= |s|
    ensures var e := IdentEnd(s, p);
            AllIdent(s[p..e]) && (e == |s| || !IsIdent(s[e]))
    decreases |s| - p
  {
    if p < |s| && IsIdent(s[p]) {
      IdentEndIs(s, p + 1);
      assert s[p..IdentEnd(s, p)] == [s[p]] + s[p + 1..IdentEnd(s, p)];
    }
  }

  lemma {:induction false} IdentEndAt(s: string, p: nat, e: nat)
    requires p <= e <= |s| && AllIdent(s[p..e]) && (e == |s| || !IsIdent(s[e]))
    ensures IdentEnd(s, p) == e
    decreases |s| - p
  {
    if p < e {
      assert s[p..e][0] == s[p] && s[p + 1..e] == s[p..e][1..];
      IdentEndAt(s, p + 1, e);
    }
  }

  /** The closing parenthesis found is the one that balances what lies before it. */
  lemma {:induction false} CloseIs(s: string, p: nat, depth: nat)
    requires p <= |s| && Close(s, p, depth).Some?
    ensures Balanced(s[p..Close(s, p, depth).value], depth)
    decreases |s| - p
  {
    var q := Close(s, p, depth).value;
    if q > p {
      assert s[p..q][1..] == s[p + 1..q];
      CloseIs(s, p + 1, if s[p] == '(' then depth + 1 else if s[p] == ')' then depth - 1 else depth);
    }
  }

  lemma {:induction false} CloseAt(s: string, p: nat, q: nat, depth: nat)
    requires p <= q < |s| && s[q] == ')' && Balanced(s[p..q], depth)
    ensures Close(s, p, depth) == Some(q)
    decreases |s| - p
  {
    if p < q {
      assert s[p..q][1..] == s[p + 1..q];
      CloseAt(s, p + 1, q, if s[p] == '(' then depth + 1 else if s[p] == ')' then depth - 1 else depth);
    }
  }

  lemma {:induction false} ArgEndIs(s: string, p: nat)
    requires p <= |s| && ArgEnd(s, p).Some? && ArgEnd(s, p).value > p
    ensures IsArg(s[p..ArgEnd(s, p).value])
  {
    var k, e := IdentEnd(s, p), ArgEnd(s, p).value;
    var a := s[p..e];
    IdentEndIs(s, p);
    SliceSlice(s, p, e, 0, k - p);
    if e > k {
      CloseIs(s, k + 1, 0);
      SliceSlice(s, p, e, k - p + 1, |a| - 1);
    }
    assert ArgSplit(a, k - p);
  }

  lemma {:induction false} ArgEndAt(s: string, p: nat, a: string)
    requires IsArg(a) == true && HasAt(s, p, a) == true && p + |a| < |s| && (s[p + |a|] == ',' || s[p + |a|] == ')')
    ensures ArgEnd(s, p) == Some(p + |a|)
  {
    var k: nat :| k <= |a| && ArgSplit(a, k);
    SliceSlice(s, p, p + |a|, 0, k);
    if k < |a| {
      assert s[p + k] == a[k] && s[p + |a| - 1] == a[|a| - 1];
    }
    IdentEndAt(s, p, p + k);
    if k < |a| {
      SliceSlice(s, p, p + |a|, k + 1, |a| - 1);
      CloseAt(s, p + k + 1, p + |a| - 1, 0);
    }
  }

  // ----- what the parser finds

  ghost predicate AllArgs(args: seq<string>) {
    forall i :: 0 <= i < |args| ==> IsArg(args[i])
  }

  lemma {:induction false} JoinUnfolds(args: seq<string>)
    requires |args| > 1
    ensures Join(args) + ")" == args[0] + ("," + (Join(args[1..]) + ")"))
  {
    var tail := Join(args[1..]);
    ConcatAssoc(args[0], ",", tail);
    ConcatAssoc(args[0], "," + tail, ")");
    ConcatAssoc(",", tail, ")");
  }

  lemma {:induction false} ThreeParts(s: string, p: nat, u: string, v: string, w: string)
    ensures HasAt(s, p, u + (v + w)) == (HasAt(s, p, u) && HasAt(s, p + |u|, v) && HasAt(s, p + |u| + |v|, w))
  {
    HasAtSplit(s, p, u, v + w);
    HasAtSplit(s, p + |u|, v, w);
  }

  /** Where the parts of a printed argument list stand. */
  lemma {:induction false} JoinPartsLast(s: string, p: nat, a: string)
    ensures HasAt(s, p, Join([a]) + ")") == (HasAt(s, p, a) && HasAt(s, p + |a|, ")"))
  {
    HasAtSplit(s, p, a, ")");
  }

  lemma {:induction false} JoinPartsMore(s: string, p: nat, args: seq<string>)
    requires |args| > 1
    ensures HasAt(s, p, Join(args) + ")") ==
      (HasAt(s, p, args[0]) && HasAt(s, p + |args[0]|, ",") && HasAt(s, p + |args[0]| + 1, Join(args[1..]) + ")"))
  {
    JoinUnfolds(args);
    ThreeParts(s, p, args[0], ",", Join(args[1..]) + ")");
  }

  lemma {:induction false} HasCharAt(s: string, p: nat, c: char)
    ensures HasAt(s, p, [c]) <==> p < |s| && s[p] == c
  {
    if p < |s| { assert s[p..p + 1] == [s[p]]; }
  }

  lemma {:induction false} ParseArgsShape(s: string, p: nat, n: nat)
    requires p <= |s| && ParseArgs(s, p, n).Some?
    ensures var args := ParseArgs(s, p, n).value;
            args != [] && AllArgs(args) && n + |args| < CRYPTO_MAX_ATTRS
    decreases |s| - p
  {
    var e := ArgEnd(s, p).value;
    ArgEndIs(s, p);
    if s[e] != ')' { ParseArgsShape(s, e + 1, n + 1); }
  }

  lemma {:induction false} OneStands(s: string, p: nat, e: nat)
    requires p <= e < |s| && s[e] == ')'
    ensures HasAt(s, p, Join([s[p..e]]) + ")")
  {
    HasCharAt(s, e, ')');
    JoinPartsLast(s, p, s[p..e]);
  }

  lemma {:induction false} MoreStand(s: string, p: nat, e: nat, rest: seq<string>)
    requires p <= e < |s| && s[e] == ',' && rest != [] && HasAt(s, e + 1, Join(rest) + ")")
    ensures HasAt(s, p, Join([s[p..e]] + rest) + ")")
  {
    HasCharAt(s, e, ',');
    var args := [s[p..e]] + rest;
    assert args[1..] == rest;
    JoinPartsMore(s, p, args);
  }

  lemma {:induction false} ParseArgsStand(s: string, p: nat, n: nat)
    requires p <= |s| && ParseArgs(s, p, n).Some? && ParseArgs(s, p, n).value != []
    ensures HasAt(s, p, Join(ParseArgs(s, p, n).value) + ")")
    decreases |s| - p
  {
    var e := ArgEnd(s, p).value;
    if s[e] == ')' {
      OneStands(s, p, e);
    } else {
      ParseArgsShape(s, e + 1, n + 1);
      ParseArgsStand(s, e + 1, n + 1);
      MoreStand(s, p, e, ParseArgs(s, e + 1, n + 1).value);
    }
  }

  lemma {:induction false} ParseLast(s: string, p: nat, n: nat, a: string)
    requires p <= |s| && IsArg(a) == true && n + 1 < CRYPTO_MAX_ATTRS && HasAt(s, p, a) == true
    requires p + |a| < |s| && s[p + |a|] == ')'
    ensures ParseArgs(s, p, n) == Some([a])
  {
    ArgEndAt(s, p, a);
  }

  lemma {:induction false} ParseMore(s: string, p: nat, n: nat, a: string, rest: seq<string>)
    requires p <= |s| && IsArg(a) == true && n + 1 < CRYPTO_MAX_ATTRS && HasAt(s, p, a) == true
    requires p + |a| < |s| && s[p + |a|] == ',' && ParseArgs(s, p + |a| + 1, n + 1) == Some(rest)
    ensures ParseArgs(s, p, n) == Some([a] + rest)
  {
    ArgEndAt(s, p, a);
  }

  lemma {:induction false} AllArgsTail(args: seq<string>)
    requires args != [] && AllArgs(args) == true
    ensures AllArgs(args[1..]) == true && IsArg(args[0]) == true
  {
  }

  lemma {:induction false} FirstStands(s: string, p: nat, args: seq<string>)
    requires args != [] && HasAt(s, p, Join(args) + ")") == true
    ensures HasAt(s, p, args[0]) == true && p + |args[0]| < |s|
    ensures if |args| == 1 then s[p + |args[0]|] == ')'
            else s[p + |args[0]|] == ',' && HasAt(s, p + |args[0]| + 1, Join(args[1..]) + ")") == true
  {
    if |args| == 1 {
      assert args == [args[0]];
      JoinPartsLast(s, p, args[0]);
      HasCharAt(s, p + |args[0]|, ')');
    } else {
      JoinPartsMore(s, p, args);
      HasCharAt(s, p + |args[0]|, ',');
    }
  }

  lemma {:induction false} ParseOnly(s: string, p: nat, n: nat, args: seq<string>)
    requires p <= |s| && |args| == 1 && IsArg(args[0]) == true && n + 1 < CRYPTO_MAX_ATTRS
    requires HasAt(s, p, Join(args) + ")") == true
    ensures ParseArgs(s, p, n) == Some(args)
  {
    FirstStands(s, p, args);
    ParseLast(s, p, n, args[0]);
    assert args == [args[0]];
  }

  lemma {:induction false} ParseFirst(s: string, p: nat, n: nat, args: seq<string>)
    requires p <= |s| && |args| > 1 && IsArg(args[0]) == true && n + 1 < CRYPTO_MAX_ATTRS
    requires HasAt(s, p, Join(args) + ")") == true
    ensures var q := p + |args[0]| + 1;
            && q <= |s| && HasAt(s, q, Join(args[1..]) + ")") == true
            && (ParseArgs(s, q, n + 1) == Some(args[1..]) ==> ParseArgs(s, p, n) == Some(args))
  {
    FirstStands(s, p, args);
    if ParseArgs(s, p + |args[0]| + 1, n + 1) == Some(args[1..]) {
      ParseMore(s, p, n, args[0], args[1..]);
      assert args == [args[0]] + args[1..];
    }
  }

  lemma {:induction false} ParseArgsAt(s: string, p: nat, n: nat, args: seq<string>)
    requires p <= |s| && args != [] && AllArgs(args) == true && n + |args| < CRYPTO_MAX_ATTRS
    requires HasAt(s, p, Join(args) + ")") == true
    ensures ParseArgs(s, p, n) == Some(args)
    decreases |args|
  {
    AllArgsTail(args);
    if |args| == 1 {
      ParseOnly(s, p, n, args);
    } else {
      ParseFirst(s, p, n, args);
      ParseArgsAt(s, p + |args[0]| + 1, n + 1, args[1..]);
    }
  }

  /** A template identifier and between one and CRYPTO_MAX_ATTRS - 1 arguments. */
  ghost predicate Printable(template: string, args: seq<string>) {
    template != [] && AllIdent(template) && 1 <= |args| < CRYPTO_MAX_ATTRS && AllArgs(args)
  }

  lemma {:induction false} ParsedStands(s: string)
    requires Parse(s).Parsed?
    ensures Printable(Parse(s).template, Parse(s).args) && HasAt(s, 0, Print(Parse(s).template, Parse(s).args))
  {
    var k := IdentEnd(s, 0);
    IdentEndIs(s, 0);
    ParseArgsShape(s, k + 1, 0);
    ParseArgsStand(s, k + 1, 0);
    HasCharAt(s, k, '(');
    PrintSplit(s, s[..k], Parse(s).args);
  }

  lemma {:induction false} PrintedIsParsed(s: string, template: string, args: seq<string>)
    requires Printable(template, args) && HasAt(s, 0, Print(template, args))
    ensures Parse(s) == Parsed(template, args)
  {
    PrintSplit(s, template, args);
    var k := |template|;
    HasCharAt(s, k, '(');
    assert s[..k] == s[0..k] == template;
    IdentEndAt(s, 0, k);
    ParseArgsAt(s, k + 1, 0, args);
  }

  /** Parsing succeeds with a template and arguments exactly if the input starts with their
      printed form: what is printed is parsed, and what is parsed prints to a prefix. */
  lemma {:induction false} ParseExact(s: string, template: string, args: seq<string>)
    ensures Parse(s) == Parsed(template, args) <==> Printable(template, args) && HasAt(s, 0, Print(template, args))
  {
    if Parse(s) == Parsed(template, args) { ParsedStands(s); }
    if Printable(template, args) && HasAt(s, 0, Print(template, args)) { PrintedIsParsed(s, template, args); }
  }

  lemma {:induction false} PrintSplit(s: string, template: string, args: seq<string>)
    requires args != []
    ensures HasAt(s, 0, Print(template, args))
       <==> HasAt(s, 0, template) && HasAt(s, |template|, "(") && HasAt(s, |template| + 1, Join(args) + ")")
  {
    assert Print(template, args) == template + ("(" + (Join(args) + ")"));
    HasAtSplit(s, 0, template, "(" + (Join(args) + ")"));
    HasAtSplit(s, |template|, "(", Join(args) + ")");
  }

  /** The round trip. */
  lemma {:induction false} PrintParses(template: string, args: seq<string>)
    requires Printable(template, args)
    ensures Parse(Print(template, args)) == Parsed(template, args)
  {
    ParseExact(Print(template, args), template, args);
  }

  // ----- nesting

  lemma {:induction false} BalancedConcat(u: string, v: string, depth: nat, more: nat)
    requires Balanced(u, depth) && Balanced(v, more)
    ensures Balanced(u + v, depth + more)
  {
    if u == [] {
      assert u + v == v;
    } else {
      assert (u + v)[1..] == u[1..] + v;
      BalancedConcat(u[1..], v, if u[0] == '(' then depth + 1 else if u[0] == ')' then depth - 1 else depth, more);
    }
  }

  lemma {:induction false} IdentBalanced(u: string)
    requires AllIdent(u)
    ensures Balanced(u, 0)
  {
    if u != [] { IdentBalanced(u[1..]); }
  }

  lemma {:induction false} Parenthesised(u: string)
    requires Balanced(u, 0)
    ensures Balanced("(" + u + ")", 0)
  {
    BalancedConcat(u, ")", 0, 1);
    assert ("(" + u + ")")[1..] == u + ")";
  }

  lemma {:induction false} ArgBalanced(a: string)
    requires IsArg(a)
    ensures Balanced(a, 0)
  {
    var k: nat :| k <= |a| && ArgSplit(a, k);
    IdentBalanced(a[..k]);
    if k < |a| {
      Parenthesised(a[k + 1..|a| - 1]);
      assert a == a[..k] + ("(" + a[k + 1..|a| - 1] + ")");
      BalancedConcat(a[..k], "(" + a[k + 1..|a| - 1] + ")", 0, 0);
    } else {
      assert a == a[..k];
    }
  }

  /** A template around an argument is an argument again. */
  lemma {:induction false} WrappedIsArg(template: string, a: string)
    requires AllIdent(template) && IsArg(a)
    ensures IsArg(template + "(" + a + ")")
  {
    var w, k := template + "(" + a + ")", |template|;
    ArgBalanced(a);
    assert w[..k] == template && w[k + 1..|w| - 1] == a;
    assert ArgSplit(w, k);
  }

  /** Templates wrapped around an algorithm, outermost first. */
  function Nested(templates: seq<string>, alg: string): string {
    if templates == [] then alg else templates[0] + "(" + Nested(templates[1..], alg) + ")"
  }

  ghost predicate AllTemplates(templates: seq<string>) {
    forall i :: 0 <= i < |templates| ==> templates[i] != [] && AllIdent(templates[i])
  }

  lemma {:induction false} NestedIsArg(templates: seq<string>, alg: string)
    requires AllTemplates(templates) && IsArg(alg)
    ensures IsArg(Nested(templates, alg))
  {
    if templates != [] {
      NestedIsArg(templates[1..], alg);
      WrappedIsArg(templates[0], Nested(templates[1..], alg));
    }
  }

  /** However deep names nest, each parse takes off the outermost template. */
  lemma {:induction false} NestedParses(templates: seq<string>, alg: string)
    requires AllTemplates(templates) && templates != [] && IsArg(alg)
    ensures Parse(Nested(templates, alg)) == Parsed(templates[0], [Nested(templates[1..], alg)])
  {
    NestedIsArg(templates[1..], alg);
    PrintParses(templates[0], [Nested(templates[1..], alg)]);
  }

  /** A name that crypto_alloc_instance2 builds parses into what it was built from. */
  lemma {:induction false} InstanceNameParses(template: string, alg: string)
    requires template != [] && AllIdent(template) && IsArg(alg)
    ensures InstanceName(template, alg).Some? <==> |template| + |alg| + 2 < CRYPTO_MAX_ALG_NAME
    ensures InstanceName(template, alg).Some? ==>
              Parse(InstanceName(template, alg).value) == Parsed(template, [alg]) && IsArg(InstanceName(template, alg).value)
  {
    PrintParses(template, [alg]);
    WrappedIsArg(template, alg);
  }

  // ----- the loops of the parser

  /** A C string has no NUL in it. */
  ghost predicate IsCString(s: string) {
    forall i :: 0 <= i < |s| ==> s[i] != 0 as char
  }

  lemma {:induction false} OneMoreDigit(s: string, start: nat, p: nat)
    requires start <= p < |s|
    ensures AllDigits(s[start..p + 1]) <==> AllDigits(s[start..p]) && IsDigit(s[p])
  {
    var u, v := s[start..p], s[start..p + 1];
    assert v == u + [s[p]];
    if AllDigits(v) {
      assert forall i :: 0 <= i < |u| ==> u[i] == v[i];
      assert v[|u|] == s[p];
    }
  }

  /** The loop over an identifier, which notes whether it is a number. */
  method ScanIdent(s: string, start: nat) returns (p: nat, notnum: bool)
    requires IsCString(s) && start <= |s|
    ensures p == IdentEnd(s, start) && start <= p <= |s| && notnum == !AllDigits(s[start..p])
  {
    p, notnum := start, false;
    while IsIdent(At(s, p))
      invariant start <= p <= |s| && IdentEnd(s, p) == IdentEnd(s, start)
      invariant notnum == !AllDigits(s[start..p])
      decreases |s| - p
    {
      OneMoreDigit(s, start, p);
      notnum := notnum || !IsDigit(At(s, p));
      p := p + 1;
    }
  }

  /** The loop to the closing parenthesis. */
  method ScanClose(s: string, open: nat) returns (e: Option<nat>)
    requires IsCString(s) && open < |s|
    ensures e == Close(s, open + 1, 0)
  {
    var p, recursion := open, 0;
    while true
      invariant open <= p < |s| && Close(s, p + 1, recursion) == Close(s, open + 1, 0)
      decreases |s| - p
    {
      p := p + 1;
      if At(s, p) == 0 as char { return None; }
      if At(s, p) == '(' {
        recursion := recursion + 1;
      } else if At(s, p) == ')' {
        if recursion == 0 { return Some(p); }
        recursion := recursion - 1;
      }
    }
  }

  lemma {:induction false} ParenIsNoDigit(s: string, start: nat, k: nat, p: nat)
    requires start <= k < p <= |s| && s[k] == '('
    ensures !AllDigits(s[start..p])
  {
    assert s[start..p][k - start] == '(';
  }

  /** One argument: where it ends, and whether it is a number. */
  method ScanArg(s: string, start: nat) returns (e: Option<nat>, notnum: bool)
    requires IsCString(s) && start <= |s|
    ensures e == ArgEnd(s, start)
    ensures e.Some? ==> notnum == !AllDigits(s[start..e.value])
  {
    var p;
    p, notnum := ScanIdent(s, start);
    if At(s, p) == '(' {
      var c := ScanClose(s, p);
      if c.None? { return None, notnum; }
      ParenIsNoDigit(s, start, p, c.value + 1);
      return Some(c.value + 1), true;
    }
    e := Some(p);
  }

  ghost function Behind(texts: seq<string>, rest: Option<seq<string>>): Option<seq<string>> {
    if rest.None? then None else Some(texts + rest.value)
  }

  /** After `texts` have been read up to the separator at `p`, `all` is what there is. */
  ghost predicate Pending(all: Option<seq<string>>, s: string, p: nat, texts: seq<string>)
    requires p < |s|
  {
    all == Behind(texts, ParseArgs(s, p + 1, |texts|))
  }

  lemma {:induction false} PendingStarts(s: string, open: nat)
    requires open < |s|
    ensures Pending(ParseArgs(s, open + 1, 0), s, open, [])
  {
    var r := ParseArgs(s, open + 1, 0);
    if r.Some? { assert [] + r.value == r.value; }
  }

  lemma {:induction false} BehindOne(all: Option<seq<string>>, texts: seq<string>, t: string,
                                     here: Option<seq<string>>, rest: Option<seq<string>>)
    requires all == Behind(texts, here) && here == Behind([t], rest)
    ensures all == Behind(texts + [t], rest)
  {
    if rest.Some? { assert texts + ([t] + rest.value) == (texts + [t]) + rest.value; }
  }

  lemma {:induction false} CommaSplits(s: string, p: nat, n: nat)
    requires p <= |s| && ArgEnd(s, p).Some?
    requires var e := ArgEnd(s, p).value;
             p < e < |s| && n + 1 < CRYPTO_MAX_ATTRS && s[e] == ','
    ensures var e := ArgEnd(s, p).value;
            ParseArgs(s, p, n) == Behind([s[p..e]], ParseArgs(s, e + 1, n + 1))
  {
  }

  lemma {:induction false} PendingNext(all: Option<seq<string>>, s: string, p: nat, texts: seq<string>)
    requires p < |s| && Pending(all, s, p, texts) && ArgEnd(s, p + 1).Some?
    requires var e := ArgEnd(s, p + 1).value;
             p + 1 < e < |s| && |texts| + 1 < CRYPTO_MAX_ATTRS && s[e] == ','
    ensures Pending(all, s, ArgEnd(s, p + 1).value, texts + [s[p + 1..ArgEnd(s, p + 1).value]])
  {
    var e := ArgEnd(s, p + 1).value;
    CommaSplits(s, p + 1, |texts|);
    BehindOne(all, texts, s[p + 1..e], ParseArgs(s, p + 1, |texts|), ParseArgs(s, e + 1, |texts| + 1));
    assert |texts + [s[p + 1..e]]| == |texts| + 1;
  }

  /** The loop over the arguments; `open` is where the parenthesis stands. */
  method ScanArgs(s: string, open: nat) returns (ok: bool, args: seq<Arg>)
    requires IsCString(s) && open < |s|
    ensures ok == ParseArgs(s, open + 1, 0).Some?
    ensures ok ==> args == Tags(ParseArgs(s, open + 1, 0).value)
  {
    args := [];
    ghost var all, texts: seq<string> := ParseArgs(s, open + 1, 0), [];
    var p := open;
    PendingStarts(s, open);
    while true
      invariant p < |s| && args == Tags(texts) && Pending(all, s, p, texts)
      decreases |s| - p
    {
      var name := p + 1;
      var e, notnum := ScanArg(s, name);
      if e.None? || e.value == name { return false, []; }
      var text := s[name..e.value];
      TagsGrow(texts, text);
      args := args + [if notnum then Alg(text) else Num(text)];
      if |args| >= CRYPTO_MAX_ATTRS { return false, []; }
      if At(s, e.value) == ')' { return true, args; }
      if At(s, e.value) != ',' { return false, []; }
      PendingNext(all, s, p, texts);
      texts := texts + [text];
      p := e.value;
    }
  }

  /** The parser of cryptomgr_schedule_probe. */
  method ParseName(s: string) returns (ok: bool, template: string, args: seq<Arg>)
    requires IsCString(s)
    ensures ok == Parse(s).Parsed?
    ensures ok ==> template == Parse(s).template && args == Tags(Parse(s).args)
  {
    template, args := [], [];
    var p, notnum := ScanIdent(s, 0);
    if p == 0 || At(s, p) != '(' { return false, [], []; }
    ok, args := ScanArgs(s, p);
    template := s[..p];
  }
}
