/** Sigma conditions, which the evaluator takes apart as strings. */
module Sigma {

  // ---- String operations ----

  /** Whitespace as Python strips it. */
  predicate IsSpace(c: char) {
    var n := c as int;
    || 9 <= n <= 13 || 28 <= n <= 32 || n == 133 || n == 160 || n == 5760 || 8192 <= n <= 8202
    || n == 8232 || n == 8233 || n == 8239 || n == 8287 || n == 12288
  }

  function StripLeft(s: string): string {
    if s != "" && IsSpace(s[0]) then StripLeft(s[1..]) else s
  }

  function StripRight(s: string): string {
    if s != "" && IsSpace(s[|s| - 1]) then StripRight(s[..|s| - 1]) else s
  }

  function Strip(s: string): string {
    StripRight(StripLeft(s))
  }

  predicate StartsWith(s: string, p: string) {
    |p| <= |s| && s[..|p|] == p
  }

  predicate EndsWith(s: string, p: string) {
    |p| <= |s| && s[|s| - |p|..] == p
  }

  predicate MatchAt(s: string, p: string, i: nat) {
    i + |p| <= |s| && s[i..i + |p|] == p
  }

  /** Where `p` first occurs in `s` at or after `i`; -1 if it does not. */
  function FindFrom(s: string, p: string, i: nat): (r: int)
    requires i <= |s|
    ensures r == -1 || (i <= r && MatchAt(s, p, r))
    decreases |s| - i
  {
    if MatchAt(s, p, i) then i else if i == |s| then -1 else FindFrom(s, p, i + 1)
  }

  function Find(s: string, p: string): int {
    FindFrom(s, p, 0)
  }

  predicate Contains(s: string, p: string) {
    Find(s, p) != -1
  }

  function Split(s: string, sep: string): (parts: seq<string>)
    requires sep != ""
    ensures parts != []
    decreases |s|
  {
    var i := Find(s, sep);
    if i == -1 then [s] else [s[..i]] + Split(s[i + |sep|..], sep)
  }

  // ---- Conditions ----

  /** Which selections matched the event. */
  type Matches = map<string, bool>

  predicate Get(m: Matches, name: string) {
    name in m && m[name]
  }

  predicate AnyWithPrefix(m: Matches, prefix: string) {
    exists k :: k in m && StartsWith(k, prefix) && m[k]
  }

  predicate AllWithPrefix(m: Matches, prefix: string) {
    (exists k :: k in m && StartsWith(k, prefix)) && forall k :: k in m && StartsWith(k, prefix) ==> m[k]
  }

  const ONE_OF := "1 of "
  const ALL_OF := "all of "

  predicate EvalOne(m: Matches, rest: string) {
    if EndsWith(rest, "*") then AnyWithPrefix(m, rest[..|rest| - 1]) else Get(m, rest)
  }

  predicate EvalAll(m: Matches, rest: string) {
    if EndsWith(rest, "*") then AllWithPrefix(m, rest[..|rest| - 1]) else Get(m, rest)
  }

  predicate EvalAtom(m: Matches, atom: string) {
    if StartsWith(atom, ONE_OF) then EvalOne(m, Strip(atom[|ONE_OF|..]))
    else if StartsWith(atom, ALL_OF) then EvalAll(m, Strip(atom[|ALL_OF|..]))
    else Get(m, atom)
  }

  predicate EvalAlternatives(m: Matches, parts: seq<string>) {
    exists i :: 0 <= i < |parts| && EvalAtom(m, Strip(parts[i]))
  }

  predicate EvalCondition(m: Matches, raw: string) {
    var c := Strip(raw);
    if c == "selection" then Get(m, "selection")
    else if StartsWith(c, ONE_OF) then EvalOne(m, Strip(c[|ONE_OF|..]))
    else if StartsWith(c, ALL_OF) then EvalAll(m, Strip(c[|ALL_OF|..]))
    else if Contains(c, " and not ") then
      var pos := Find(c, " and not ");
      EvalAtom(m, Strip(c[..pos])) && !EvalAtom(m, Strip(c[pos + |" and not "|..]))
    else if Contains(c, " or ") && !Contains(c, " and ") then
      EvalAlternatives(m, Split(c, " or "))
    else if Contains(c, " | ") then EvalAtom(m, Strip(Split(c, " | ")[0]))
    else false
  }

  // ---- The documented conditions as a language with a meaning ----

  datatype Atom = Name(name: string) | OneOf(prefix: string) | AllOf(prefix: string)

  datatype Condition =
    | Single(name: string)
    | Quantified(atom: Atom)
    | AndNot(left: Atom, right: Atom)
    | AnyOf(atoms: seq<Atom>)
    | Aggregate(base: Atom, tail: string)

  predicate MeansAtom(m: Matches, a: Atom) {
    match a
    case Name(n) => Get(m, n)
    case OneOf(p) => AnyWithPrefix(m, p)
    case AllOf(p) => AllWithPrefix(m, p)
  }

  /** The boolean reading; an aggregation counts as met when its base matches. */
  predicate Means(m: Matches, c: Condition) {
    match c
    case Single(n) => Get(m, n)
    case Quantified(a) => MeansAtom(m, a)
    case AndNot(l, r) => MeansAtom(m, l) && !MeansAtom(m, r)
    case AnyOf(atoms) => exists i :: 0 <= i < |atoms| && MeansAtom(m, atoms[i])
    case Aggregate(b, _) => MeansAtom(m, b)
  }

  predicate PlainChar(c: char) {
    !IsSpace(c) && c != '*' && c != '|'
  }

  predicate Plain(s: string) {
    forall i :: 0 <= i < |s| ==> PlainChar(s[i])
  }

  predicate PlainAtom(a: Atom) {
    match a
    case Name(n) => n != "" && Plain(n) && n != "and"
    case OneOf(p) => Plain(p)
    case AllOf(p) => Plain(p)
  }

  predicate WellFormed(c: Condition) {
    match c
    case Single(n) => PlainAtom(Name(n))
    case Quantified(a) => PlainAtom(a) && !a.Name?
    case AndNot(l, r) => PlainAtom(l) && PlainAtom(r)
    case AnyOf(atoms) => |atoms| >= 2 && forall i :: 0 <= i < |atoms| ==> PlainAtom(atoms[i])
    case Aggregate(b, tail) =>
      PlainAtom(b) && tail != "" && !IsSpace(tail[|tail| - 1])
      && !Contains(" " + tail, " or ") && !Contains(" " + tail, " and not ")
  }

  function Show(a: Atom): (s: string)
    ensures PlainAtom(a) ==> s != ""
  {
    match a
    case Name(n) => n
    case OneOf(p) => ONE_OF + (p + "*")
    case AllOf(p) => ALL_OF + (p + "*")
  }

  function ShowList(atoms: seq<Atom>): string
    requires atoms != []
  {
    if |atoms| == 1 then Show(atoms[0]) else Show(atoms[0]) + (" or " + ShowList(atoms[1..]))
  }

  function Print(c: Condition): string
    requires WellFormed(c)
  {
    match c
    case Single(n) => n
    case Quantified(a) => Show(a)
    case AndNot(l, r) => Show(l) + (" and not " + Show(r))
    case AnyOf(atoms) => ShowList(atoms)
    case Aggregate(b, tail) => Show(b) + (" | " + tail)
  }

  /** The evaluator recognises the condition: a compound must start with a plain name, and a
      lone name must be "selection". */
  predicate Recognised(c: Condition) {
    match c
    case Single(n) => n == "selection"
    case Quantified(_) => true
    case AndNot(l, _) => l.Name?
    case AnyOf(atoms) => atoms != [] && atoms[0].Name?
    case Aggregate(b, _) => b.Name?
  }

  // ---- Facts about the string operations ----

  predicate Trimmed(s: string) {
    s != "" && !IsSpace(s[0]) && !IsSpace(s[|s| - 1])
  }

  lemma StripTrimmed(s: string)
    requires Trimmed(s)
    ensures Strip(s) == s
  {
  }

  lemma ShowTrimmed(a: Atom)
    requires PlainAtom(a)
    ensures Trimmed(Show(a))
  {
    var s := Show(a);
    match a
    case Name(n) => assert PlainChar(n[0]) && PlainChar(n[|n| - 1]);
    case OneOf(p) => assert s[0] == '1' && s[|s| - 1] == '*';
    case AllOf(p) => assert s[0] == 'a' && s[|s| - 1] == '*';
  }

  lemma {:induction false} FindFromFirst(s: string, p: string, from: nat, i: nat)
    requires from <= i && MatchAt(s, p, i) && forall j :: from <= j < i ==> !MatchAt(s, p, j)
    ensures FindFrom(s, p, from) == i
    decreases i - from
  {
    if from < i {
      FindFromFirst(s, p, from + 1, i);
    }
  }

  lemma {:induction false} FindFromNone(s: string, p: string, from: nat)
    requires from <= |s|
    ensures FindFrom(s, p, from) == -1 <==> forall j :: from <= j ==> !MatchAt(s, p, j)
    decreases |s| - from
  {
    if !MatchAt(s, p, from) && from < |s| {
      FindFromNone(s, p, from + 1);
    }
  }

  lemma FindFirst(s: string, p: string, i: nat)
    requires MatchAt(s, p, i) && forall j :: 0 <= j < i ==> !MatchAt(s, p, j)
    ensures Find(s, p) == i && Contains(s, p)
  {
    FindFromFirst(s, p, 0, i);
  }

  lemma ContainsIffMatch(s: string, p: string)
    ensures Contains(s, p) <==> exists j: nat :: MatchAt(s, p, j)
  {
    FindFromNone(s, p, 0);
  }

  /** One wrong character rules a match out. */
  lemma Mismatch(s: string, p: string, i: nat, k: nat)
    requires k < |p| && (i + k < |s| ==> s[i + k] != p[k])
    ensures !MatchAt(s, p, i)
  {
    if i + |p| <= |s| { assert s[i..i + |p|][k] == s[i + k]; }
  }

  lemma MatchAtJoint(a: string, p: string, b: string)
    ensures MatchAt(a + (p + b), p, |a|)
  {
    var s := a + (p + b);
    assert s[|a|..|a| + |p|] == p;
  }

  lemma MatchShift(a: string, b: string, p: string, j: nat)
    requires j >= |a|
    ensures MatchAt(a + b, p, j) <==> MatchAt(b, p, j - |a|)
  {
    if j + |p| <= |a + b| {
      assert (a + b)[j..j + |p|] == b[j - |a|..j - |a| + |p|];
    }
  }

  /** No separator that starts with a blank begins inside a plain name. */
  lemma NoMatchInName(n: string, t: string, p: string, j: nat)
    requires Plain(n) && p != "" && p[0] == ' ' && j < |n|
    ensures !MatchAt(n + t, p, j)
  {
    assert PlainChar(n[j]);
    Mismatch(n + t, p, j, 0);
  }

  /** A separator is a blank, a letter word without '*', and a blank; none begins inside an atom. */
  predicate Separator(p: string) {
    p == " or " || p == " and "
  }

  lemma NoMatchInAtom(a: Atom, t: string, p: string, j: nat)
    requires PlainAtom(a) && Separator(p) && j < |Show(a)|
    ensures !MatchAt(Show(a) + t, p, j)
  {
    match a
    case Name(n) => NoMatchInName(n, t, p, j);
    case OneOf(q) => NoMatchInQuantifier(ONE_OF, 1, q, t, p, j);
    case AllOf(q) => NoMatchInQuantifier(ALL_OF, 3, q, t, p, j);
  }

  lemma NoMatchInQuantifier(head: string, gap: nat, q: string, t: string, p: string, j: nat)
    requires (head == ONE_OF && gap == 1) || (head == ALL_OF && gap == 3)
    requires Plain(q) && Separator(p) && j < |head + (q + "*")|
    ensures !MatchAt(head + (q + "*") + t, p, j)
  {
    var s := head + (q + "*") + t;
    var h := |head|;
    if j == gap && j != h - 1 {
      assert s[j + 1] == 'o' && s[j + 2] == 'f';
      Mismatch(s, p, j, if p[1] == 'o' then 2 else 1);
    } else if j == h - 1 {
      StarBreaksWord(s, h, q, p);
    } else {
      assert s[j] != ' ' by {
        if j < h {
          assert s[j] == head[j];
        } else if j < h + |q| {
          assert s[j] == q[j - h] && PlainChar(q[j - h]);
        } else {
          assert s[j] == '*';
        }
      }
      Mismatch(s, p, j, 0);
    }
  }

  /** Behind a quantifier comes a word that ends in '*', so no separator starts there. */
  lemma StarBreaksWord(s: string, h: nat, q: string, p: string)
    requires Plain(q) && Separator(p) && 0 < h && h + |q| < |s|
    requires (forall k :: 0 <= k < |q| ==> s[h + k] == q[k]) && s[h + |q|] == '*'
    ensures !MatchAt(s, p, h - 1)
  {
    var w := |p| - 2;
    if |q| <= w {
      assert s[h - 1 + (|q| + 1)] == '*';
      Mismatch(s, p, h - 1, |q| + 1);
    } else {
      assert s[h + w] == q[w] && PlainChar(q[w]);
      Mismatch(s, p, h - 1, w + 1);
    }
  }

  // ---- Atoms ----

  lemma {:induction false} AtomMeaning(m: Matches, a: Atom)
    requires PlainAtom(a)
    ensures EvalAtom(m, Show(a)) == MeansAtom(m, a)
  {
    match a
    case Name(n) => PlainStart(n, ""); assert n + "" == n;
    case OneOf(p) => StarWord(p); OneOfAtom(m, p + "*");
    case AllOf(p) => StarWord(p); AllOfAtom(m, p + "*");
  }

  lemma OneOfAtom(m: Matches, rest: string)
    ensures EvalAtom(m, ONE_OF + rest) == EvalOne(m, Strip(rest))
  {
    assert (ONE_OF + rest)[..|ONE_OF|] == ONE_OF && (ONE_OF + rest)[|ONE_OF|..] == rest;
  }

  lemma AllOfAtom(m: Matches, rest: string)
    ensures EvalAtom(m, ALL_OF + rest) == EvalAll(m, Strip(rest))
  {
    var s := ALL_OF + rest;
    assert s[0] == 'a' && s[..|ONE_OF|][0] == 'a' && ONE_OF[0] == '1';
    assert s[..|ALL_OF|] == ALL_OF && s[|ALL_OF|..] == rest;
  }

  lemma StarWord(p: string)
    requires Plain(p)
    ensures Strip(p + "*") == p + "*" && EndsWith(p + "*", "*") && (p + "*")[..|p + "*"| - 1] == p
  {
    var s := p + "*";
    assert s[|s| - 1..] == "*" && s[..|s| - 1] == p;
    assert !IsSpace(s[0]) by {
      if p != "" { assert PlainChar(p[0]); }
    }
    StripTrimmed(s);
  }

  /** A plain name followed by nothing or by " a", " or" or " |" is not a quantifier. */
  lemma PlainStart(n: string, t: string)
    requires n != "" && Plain(n)
    requires t == "" || StartsWith(t, " a") || StartsWith(t, " or") || StartsWith(t, " |")
    ensures !StartsWith(n + t, ONE_OF) && !StartsWith(n + t, ALL_OF)
  {
    QuantifierAfterName(n, t, ONE_OF, 1);
    QuantifierAfterName(n, t, ALL_OF, 3);
  }

  lemma QuantifierAfterName(n: string, t: string, head: string, gap: nat)
    requires n != "" && Plain(n)
    requires (head == ONE_OF && gap == 1) || (head == ALL_OF && gap == 3)
    requires t == "" || StartsWith(t, " a") || StartsWith(t, " or") || StartsWith(t, " |")
    ensures !StartsWith(n + t, head)
  {
    var s := n + t;
    if |n| > gap {
      assert s[gap] == n[gap] && PlainChar(n[gap]);
      Mismatch(s, head, 0, gap);
    } else if |n| < gap {
      assert t != "" ==> t[0] == t[..1][0] == ' ' && s[|n|] == ' ';
      Mismatch(s, head, 0, |n|);
    } else if t == "" {
      assert |s| == gap;
    } else if StartsWith(t, " or") {
      assert t[2] == t[..3][2] == 'r' && s[gap + 2] == 'r';
      Mismatch(s, head, 0, gap + 2);
    } else {
      assert t[1] == t[..2][1] != 'o' && s[gap + 1] == t[1];
      Mismatch(s, head, 0, gap + 1);
    }
    if |head| <= |s| { assert s[0..|head|] == s[..|head|]; }
  }

  // ---- Compounds that start with a quantifier are never recognised ----

  /** No selection name contains a blank. */
  predicate Spaceless(m: Matches) {
    forall k :: k in m ==> ' ' !in k
  }

  lemma BlankNeverMatches(m: Matches, rest: string)
    requires Spaceless(m) && ' ' in rest
    ensures !EvalOne(m, rest) && !EvalAll(m, rest)
  {
    if EndsWith(rest, "*") {
      var prefix := rest[..|rest| - 1];
      assert rest == prefix + "*";
      assert ' ' in prefix;
      var i :| 0 <= i < |prefix| && prefix[i] == ' ';
      forall k | k in m ensures !StartsWith(k, prefix) {
        if |prefix| <= |k| { assert k[..|prefix|][i] == k[i]; }
      }
    }
  }

  /** What the quantifier is asked to look up still contains the blank of the second operand. */
  lemma QuantifierRest(p: string, t: string)
    requires Plain(p) && |t| >= 2 && t[0] == ' ' && !IsSpace(t[|t| - 1])
    ensures Strip((p + "*") + t) == (p + "*") + t && ' ' in (p + "*") + t
  {
    var rest := (p + "*") + t;
    assert !IsSpace(rest[0]) by {
      if p == "" { assert rest[0] == '*'; } else { assert rest[0] == p[0] && PlainChar(p[0]); }
    }
    assert rest[|rest| - 1] == t[|t| - 1];
    StripTrimmed(rest);
    assert rest[|p| + 1] == ' ';
  }

  lemma {:induction false} QuantifierFirst(m: Matches, a: Atom, t: string)
    requires Spaceless(m) && PlainAtom(a) && !a.Name?
    requires |t| >= 2 && t[0] == ' ' && !IsSpace(t[|t| - 1])
    ensures !EvalCondition(m, Show(a) + t)
  {
    var rest := (a.prefix + "*") + t;
    var head := if a.OneOf? then ONE_OF else ALL_OF;
    QuantifierTrimmed(a, t);
    Reassociate(head, a.prefix + "*", t);
    QuantifierRest(a.prefix, t);
    BlankNeverMatches(m, rest);
    if a.OneOf? { OneOfLooksUp(m, rest); } else { AllOfLooksUp(m, rest); }
  }

  lemma Reassociate(a: string, b: string, c: string)
    ensures (a + b) + c == a + (b + c)
  {
  }

  lemma QuantifierTrimmed(a: Atom, t: string)
    requires PlainAtom(a) && t != "" && !IsSpace(t[|t| - 1])
    ensures Strip(Show(a) + t) == Show(a) + t
  {
    var c := Show(a) + t;
    ShowTrimmed(a);
    assert c[0] == Show(a)[0] && c[|c| - 1] == t[|t| - 1];
    StripTrimmed(c);
  }

  lemma OneOfLooksUp(m: Matches, rest: string)
    requires Strip(ONE_OF + rest) == ONE_OF + rest
    ensures EvalCondition(m, ONE_OF + rest) == EvalOne(m, Strip(rest))
  {
    var c := ONE_OF + rest;
    assert c[1] == ' ';
    HasBlank(c, 1);
    assert c[..|ONE_OF|] == ONE_OF && c[|ONE_OF|..] == rest;
  }

  lemma AllOfLooksUp(m: Matches, rest: string)
    requires Strip(ALL_OF + rest) == ALL_OF + rest
    ensures EvalCondition(m, ALL_OF + rest) == EvalAll(m, Strip(rest))
  {
    var c := ALL_OF + rest;
    assert c[3] == ' ';
    HasBlank(c, 3);
    assert c[0] == 'a' && c[..|ONE_OF|][0] == 'a' && ONE_OF[0] == '1';
    assert c[..|ALL_OF|] == ALL_OF && c[|ALL_OF|..] == rest;
  }

  // ---- Compounds that start with a name ----

  lemma AndNotMeaning(m: Matches, n: string, r: Atom)
    requires PlainAtom(Name(n)) && PlainAtom(r)
    ensures EvalCondition(m, n + (" and not " + Show(r))) == (Get(m, n) && !MeansAtom(m, r))
  {
    var sep := " and not ";
    var c := n + (sep + Show(r));
    CompoundTrimmed(n, sep, Show(r), r);
    PlainStart(n, sep + Show(r));
    MatchAtJoint(n, sep, Show(r));
    forall j | 0 <= j < |n| ensures !MatchAt(c, sep, j) { NoMatchInName(n, sep + Show(r), sep, j); }
    FindFirst(c, sep, |n|);
    assert c[..|n|] == n && c[|n| + |sep|..] == Show(r);
    ShowTrimmed(Name(n));
    ShowTrimmed(r);
    StripTrimmed(n);
    StripTrimmed(Show(r));
    AtomMeaning(m, Name(n));
    AtomMeaning(m, r);
    assert |c| > |"selection"| || c[|n|] == ' ';
  }

  lemma CompoundTrimmed(n: string, sep: string, last: string, a: Atom)
    requires PlainAtom(Name(n)) && PlainAtom(a) && last == Show(a) && sep != "" && sep[0] == ' '
    ensures Strip(n + (sep + last)) == n + (sep + last) && n + (sep + last) != "selection"
  {
    var c := n + (sep + last);
    ShowTrimmed(Name(n));
    ShowTrimmed(a);
    assert c[0] == n[0] && c[|c| - 1] == last[|last| - 1];
    StripTrimmed(c);
    assert c[|n|] == ' ';
    HasBlank(c, |n|);
  }

  lemma HasBlank(c: string, i: nat)
    requires i < |c| && c[i] == ' '
    ensures c != "selection"
  {
    assert forall k :: 0 <= k < |"selection"| ==> "selection"[k] != ' ';
  }

  lemma AggregateMeaning(m: Matches, n: string, tail: string)
    requires WellFormed(Aggregate(Name(n), tail))
    ensures EvalCondition(m, n + (" | " + tail)) == Get(m, n)
  {
    var sep := " | ";
    var c := n + (sep + tail);
    ShowTrimmed(Name(n));
    assert c[0] == n[0] && c[|c| - 1] == tail[|tail| - 1];
    StripTrimmed(c);
    assert c[|n|] == ' ';
    HasBlank(c, |n|);
    PlainStart(n, sep + tail);
    TailHasNo(n, tail, " and not ");
    TailHasNo(n, tail, " or ");
    MatchAtJoint(n, sep, tail);
    forall j | 0 <= j < |n| ensures !MatchAt(c, sep, j) { NoMatchInName(n, sep + tail, sep, j); }
    FindFirst(c, sep, |n|);
    assert Split(c, sep)[0] == c[..|n|] == n;
    StripTrimmed(n);
    AtomMeaning(m, Name(n));
  }

  lemma TailHasNo(n: string, tail: string, p: string)
    requires Plain(n) && (p == " and not " || p == " or ") && !Contains(" " + tail, p)
    ensures !Contains(n + (" | " + tail), p)
  {
    var c := n + (" | " + tail);
    ContainsIffMatch(c, p);
    ContainsIffMatch(" " + tail, p);
    forall j: nat ensures !MatchAt(c, p, j) {
      if j < |n| {
        NoMatchInName(n, " | " + tail, p, j);
      } else if j < |n| + 2 {
        assert c[|n| + 1] == '|';
        Mismatch(c, p, j, |n| + 1 - j);
      } else {
        assert c == (n + " |") + (" " + tail);
        MatchShift(n + " |", " " + tail, p, j);
      }
    }
  }

  // ---- Lists of alternatives ----

  lemma {:induction false} ListHasNoAnd(atoms: seq<Atom>, j: nat)
    requires atoms != [] && forall i :: 0 <= i < |atoms| ==> PlainAtom(atoms[i])
    ensures !MatchAt(ShowList(atoms), " and ", j)
    decreases |atoms|
  {
    var a, s := Show(atoms[0]), ShowList(atoms);
    if |atoms| == 1 {
      assert s + "" == s;
      if j < |a| { NoMatchInAtom(atoms[0], "", " and ", j); }
    } else {
      var rest := ShowList(atoms[1..]);
      if j < |a| {
        NoMatchInAtom(atoms[0], " or " + rest, " and ", j);
      } else if j >= |a| + 4 {
        assert s == (a + " or ") + rest;
        MatchShift(a + " or ", rest, " and ", j);
        ListHasNoAnd(atoms[1..], j - |a| - 4);
      } else {
        JointHasNoAnd(a, atoms[1..], j);
      }
    }
  }

  /** No " and " begins at an " or ". */
  lemma {:induction false} JointHasNoAnd(a: string, atoms: seq<Atom>, j: nat)
    requires atoms != [] && forall i :: 0 <= i < |atoms| ==> PlainAtom(atoms[i])
    requires |a| <= j < |a| + 4
    ensures !MatchAt(a + (" or " + ShowList(atoms)), " and ", j)
  {
    var rest := ShowList(atoms);
    ListStart(atoms);
    MatchShift(a, " or " + rest, " and ", j);
    OrIsNotAnd(rest, j - |a|);
  }

  predicate StartsWithAnd(s: string) {
    |s| >= 4 && s[0] == 'a' && s[1] == 'n' && s[2] == 'd' && s[3] == ' '
  }

  lemma OrIsNotAnd(rest: string, j: nat)
    requires !StartsWithAnd(rest) && j < 4
    ensures !MatchAt(" or " + rest, " and ", j)
  {
    var s := " or " + rest;
    if j < 3 {
      Mismatch(s, " and ", j, if j == 0 then 1 else 0);
    } else {
      var k := if |rest| < 1 || rest[0] != 'a' then 0 else if |rest| < 2 || rest[1] != 'n' then 1
               else if |rest| < 3 || rest[2] != 'd' then 2 else 3;
      assert k < |rest| ==> s[3 + (k + 1)] == rest[k];
      Mismatch(s, " and ", 3, k + 1);
    }
  }

  lemma NameIsNotAnd(n: string, t: string)
    requires PlainAtom(Name(n)) && (t == "" || t[0] == ' ')
    ensures !StartsWithAnd(n + t)
  {
    if |n| >= 4 {
      assert PlainChar(n[3]);
    } else if |n| == 3 {
      assert n == [n[0], n[1], n[2]];
    } else if t != "" {
      assert (n + t)[|n|] == ' ';
    }
  }

  lemma AtomIsNotAnd(a: Atom, t: string)
    requires PlainAtom(a) && (t == "" || t[0] == ' ')
    ensures !StartsWithAnd(Show(a) + t)
  {
    match a
    case Name(n) => NameIsNotAnd(n, t);
    case OneOf(p) => assert (Show(a) + t)[0] == ONE_OF[0] == '1';
    case AllOf(p) => assert (Show(a) + t)[1] == ALL_OF[1] == 'l';
  }

  /** A list does not start with the word "and". */
  lemma {:induction false} ListStart(atoms: seq<Atom>)
    requires atoms != [] && forall i :: 0 <= i < |atoms| ==> PlainAtom(atoms[i])
    ensures !StartsWithAnd(ShowList(atoms))
  {
    if |atoms| == 1 {
      AtomIsNotAnd(atoms[0], "");
      assert Show(atoms[0]) + "" == Show(atoms[0]);
    } else {
      AtomIsNotAnd(atoms[0], " or " + ShowList(atoms[1..]));
    }
  }

  lemma SplitOnce(a: string, sep: string, rest: string)
    requires sep != "" && forall j :: 0 <= j < |a| ==> !MatchAt(a + (sep + rest), sep, j)
    ensures Split(a + (sep + rest), sep) == [a] + Split(rest, sep)
  {
    var s := a + (sep + rest);
    MatchAtJoint(a, sep, rest);
    FindFirst(s, sep, |a|);
    assert s[..|a|] == a && s[|a| + |sep|..] == rest;
  }

  lemma NoSeparatorInAtom(a: Atom)
    requires PlainAtom(a)
    ensures Split(Show(a), " or ") == [Show(a)]
  {
    var s := Show(a);
    assert s + "" == s;
    forall j: nat ensures !MatchAt(s, " or ", j) {
      if j < |s| { NoMatchInAtom(a, "", " or ", j); }
    }
    ContainsIffMatch(s, " or ");
  }

  lemma {:induction false} ListSplits(atoms: seq<Atom>)
    requires atoms != [] && forall i :: 0 <= i < |atoms| ==> PlainAtom(atoms[i])
    ensures var parts := Split(ShowList(atoms), " or ");
            |parts| == |atoms| && forall i :: 0 <= i < |atoms| ==> parts[i] == Show(atoms[i])
    decreases |atoms|
  {
    if |atoms| == 1 {
      NoSeparatorInAtom(atoms[0]);
    } else {
      FirstAlternative(atoms[0], ShowList(atoms[1..]));
      ListSplits(atoms[1..]);
    }
  }

  lemma FirstAlternative(a: Atom, rest: string)
    requires PlainAtom(a)
    ensures Split(Show(a) + (" or " + rest), " or ") == [Show(a)] + Split(rest, " or ")
  {
    var s, sep := Show(a), " or ";
    forall j | 0 <= j < |s| ensures !MatchAt(s + (sep + rest), sep, j) { NoMatchInAtom(a, sep + rest, sep, j); }
    SplitOnce(s, sep, rest);
  }

  lemma {:induction false} ListEndsTrimmed(atoms: seq<Atom>)
    requires atoms != [] && forall i :: 0 <= i < |atoms| ==> PlainAtom(atoms[i])
    ensures Trimmed(ShowList(atoms))
    decreases |atoms|
  {
    var a, s := Show(atoms[0]), ShowList(atoms);
    ShowTrimmed(atoms[0]);
    if |atoms| > 1 {
      ListEndsTrimmed(atoms[1..]);
      var rest := ShowList(atoms[1..]);
      assert s[0] == a[0] && s[|s| - 1] == rest[|rest| - 1];
    }
  }

  lemma AndNotNeedsAnd(s: string)
    requires !Contains(s, " and ")
    ensures !Contains(s, " and not ")
  {
    ContainsIffMatch(s, " and ");
    ContainsIffMatch(s, " and not ");
    if j: nat :| MatchAt(s, " and not ", j) {
      assert s[j..j + 5] == s[j..j + 9][..5] == " and ";
      assert MatchAt(s, " and ", j);
    }
  }

  lemma {:induction false} AnyOfMeaning(m: Matches, atoms: seq<Atom>)
    requires WellFormed(AnyOf(atoms)) && atoms[0].Name?
    ensures EvalCondition(m, ShowList(atoms)) == Means(m, AnyOf(atoms))
  {
    var n, rest, sep := atoms[0].name, ShowList(atoms[1..]), " or ";
    var c := n + (sep + rest);
    ListIsAlternatives(m, n, atoms[1..]);
    ListSplits(atoms);
    var parts := Split(c, sep);
    forall i | 0 <= i < |atoms|
      ensures EvalAtom(m, Strip(parts[i])) == MeansAtom(m, atoms[i])
    {
      AlternativeMeaning(m, atoms[i]);
    }
  }

  /** A list that starts with a name reaches the " or " branch. */
  lemma {:induction false} ListIsAlternatives(m: Matches, n: string, others: seq<Atom>)
    requires PlainAtom(Name(n)) && others != []
    requires forall i :: 0 <= i < |others| ==> PlainAtom(others[i])
    ensures var c := n + (" or " + ShowList(others)); EvalCondition(m, c) == EvalAlternatives(m, Split(c, " or "))
  {
    var sep, rest, atoms := " or ", ShowList(others), [Name(n)] + others;
    var c := n + (sep + rest);
    assert atoms[1..] == others && ShowList(atoms) == c;
    ListEndsTrimmed(atoms);
    StripTrimmed(c);
    assert c[|n|] == ' ';
    HasBlank(c, |n|);
    PlainStart(n, sep + rest);
    ContainsIffMatch(c, " and ");
    forall j: nat ensures !MatchAt(c, " and ", j) { ListHasNoAnd(atoms, j); }
    AndNotNeedsAnd(c);
    MatchAtJoint(n, sep, rest);
    ContainsIffMatch(c, sep);
  }

  lemma {:induction false} AlternativeMeaning(m: Matches, a: Atom)
    requires PlainAtom(a)
    ensures EvalAtom(m, Strip(Show(a))) == MeansAtom(m, a)
  {
    ShowTrimmed(a);
    StripTrimmed(Show(a));
    AtomMeaning(m, a);
  }

  lemma SingleMeaning(m: Matches, n: string)
    requires PlainAtom(Name(n))
    ensures EvalCondition(m, n) == (n == "selection" && Get(m, n))
  {
    ShowTrimmed(Name(n));
    StripTrimmed(n);
    PlainStart(n, "");
    NameHasNo(n, " and not ");
    NameHasNo(n, " or ");
    NameHasNo(n, " | ");
    assert n + "" == n;
  }

  lemma NameHasNo(n: string, p: string)
    requires Plain(n) && p != "" && p[0] == ' '
    ensures !Contains(n, p)
  {
    ContainsIffMatch(n, p);
    assert n + "" == n;
    forall j: nat ensures !MatchAt(n, p, j) {
      if j < |n| { NoMatchInName(n, "", p, j); }
    }
  }

  lemma {:induction false} QuantifiedMeaning(m: Matches, a: Atom)
    requires PlainAtom(a) && !a.Name?
    ensures EvalCondition(m, Show(a)) == MeansAtom(m, a)
  {
    ShowTrimmed(a);
    StripTrimmed(Show(a));
    StarWord(a.prefix);
    if a.OneOf? {
      OneOfLooksUp(m, a.prefix + "*");
    } else {
      AllOfLooksUp(m, a.prefix + "*");
    }
  }

  /** Evaluating the printed condition gives its boolean meaning exactly when the evaluator
      recognises it; otherwise the result is false whatever the selections say. */
  lemma {:induction false} EvaluationMeaning(m: Matches, c: Condition)
    requires WellFormed(c) && (Recognised(c) || Spaceless(m))
    ensures EvalCondition(m, Print(c)) == (Recognised(c) && Means(m, c))
  {
    match c
    case Single(n) => SingleMeaning(m, n);
    case Quantified(a) => QuantifiedMeaning(m, a);
    case AndNot(l, r) =>
      if l.Name? {
        AndNotMeaning(m, l.name, r);
      } else {
        ShowTrimmed(r);
        assert (" and not " + Show(r))[|" and not " + Show(r)| - 1] == Show(r)[|Show(r)| - 1];
        QuantifierFirst(m, l, " and not " + Show(r));
      }
    case AnyOf(atoms) =>
      if atoms[0].Name? {
        AnyOfMeaning(m, atoms);
      } else {
        var rest := ShowList(atoms[1..]);
        ListEndsTrimmed(atoms[1..]);
        assert (" or " + rest)[|" or " + rest| - 1] == rest[|rest| - 1];
        QuantifierFirst(m, atoms[0], " or " + rest);
      }
    case Aggregate(b, tail) =>
      if b.Name? {
        AggregateMeaning(m, b.name, tail);
      } else {
        assert (" | " + tail)[|" | " + tail| - 1] == tail[|tail| - 1];
        QuantifierFirst(m, b, " | " + tail);
      }
  }

  /** The agreement fails exactly for conditions that are not recognised but whose boolean
      reading holds; the documented form "X and not Y" with a quantifier as X is one. */
  lemma QuantifiedCompoundMissed()
    ensures var m, c := map["selection_a" := true], AndNot(OneOf("selection_"), Name("filter"));
            WellFormed(c) && Spaceless(m) && Means(m, c) && !EvalCondition(m, Print(c))
  {
    var m, c := map["selection_a" := true], AndNot(OneOf("selection_"), Name("filter"));
    assert "filter"[0] == 'f' && "selection_a"[0] == 's';
    assert "selection_a" in m && "selection_a"[..|"selection_"|] == "selection_";
    EvaluationMeaning(m, c);
  }
}
