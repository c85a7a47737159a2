/** Matching a detection block against an event. */
module Detection {
  import opened Prelude
  import opened Values
  import opened Sigma
  import Text

  function Coerced(b: Builtins, v: Value): string {
    if v.Null? then "" else Shown(b, v)
  }

  predicate FieldMatch(b: Builtins, found: Value, modifier: Option<string>, target: Value) {
    var ev, tv := b.lower(Coerced(b, found)), b.lower(Coerced(b, target));
    match modifier
    case None => ev == tv
    case Some(m) =>
      if m == "endswith" then EndsWith(ev, tv)
      else if m == "startswith" then StartsWith(ev, tv)
      else if m == "contains" then Contains(ev, tv)
      else if m == "gt" || m == "lt" || m == "gte" || m == "lte" then b.compare(m, found, target)
      else ev == tv
  }

  /** The first modifier besides "all". */
  function Operator(modifiers: seq<string>): Option<string> {
    if modifiers == [] then None
    else if modifiers[0] != "all" then Some(modifiers[0])
    else Operator(modifiers[1..])
  }

  predicate MatchesEntry(b: Builtins, event: Dict, e: Entry) {
    var parts := Split(e.key, "|");
    var found := Lookup(event, parts[0]);
    && found.Some? && !found.value.Null?
    && MatchesTarget(b, found.value, parts[1..], e.value)
  }

  predicate MatchesTarget(b: Builtins, found: Value, modifiers: seq<string>, target: Value) {
    var op := Operator(modifiers);
    match target
    case Listing(items) =>
      if "all" in modifiers then forall i :: 0 <= i < |items| ==> FieldMatch(b, found, op, items[i])
      else exists i :: 0 <= i < |items| && FieldMatch(b, found, op, items[i])
    case Flag(flag) => b.truthy(found) == flag
    case _ => FieldMatch(b, found, op, target)
  }

  predicate MatchesSelection(b: Builtins, event: Dict, selection: Dict) {
    forall i :: 0 <= i < |selection| ==> MatchesEntry(b, event, selection[i])
  }

  function SelectionMatches(b: Builtins, event: Dict, detection: Dict): Matches {
    if detection == [] then map[] else
      var e, others := detection[|detection| - 1], SelectionMatches(b, event, detection[..|detection| - 1]);
      if e.key == "condition" || !e.value.Fields? then others
      else others[e.key := MatchesSelection(b, event, e.value.entries)]
  }

  /** A missing detection block is the empty one. */
  predicate Evaluate(b: Builtins, detection: Dict, event: Dict) {
    var c := Lookup(detection, "condition");
    EvalCondition(SelectionMatches(b, event, detection), if c.None? then "" else Shown(b, c.value))
  }

  // ---- Properties ----

  predicate PipeFree(s: string) {
    '|' !in s
  }

  /** A field key is taken apart into exactly the field and the modifiers it was joined from. */
  lemma {:induction false} KeyRoundTrip(parts: seq<string>)
    requires parts != [] && forall i :: 0 <= i < |parts| ==> PipeFree(parts[i])
    ensures Split(Text.Join(parts, '|'), "|") == parts
  {
    var a := parts[0];
    if |parts| == 1 {
      NoPipe(a);
    } else {
      var rest := Text.Join(parts[1..], '|');
      KeyRoundTrip(parts[1..]);
      forall j | 0 <= j < |a| ensures !MatchAt(a + ("|" + rest), "|", j) {
        Mismatch(a + ("|" + rest), "|", j, 0);
      }
      SplitOnce(a, "|", rest);
      assert a + ['|'] + rest == a + ("|" + rest);
      assert parts == [a] + parts[1..];
    }
  }

  lemma NoPipe(s: string)
    requires PipeFree(s)
    ensures Split(s, "|") == [s]
  {
    ContainsIffMatch(s, "|");
    forall j: nat ensures !MatchAt(s, "|", j) { Mismatch(s, "|", j, 0); }
  }

  /** A joined key asks for its field, and "all" may stand anywhere among the modifiers. */
  lemma JoinedKeyMeaning(b: Builtins, event: Dict, field: string, modifiers: seq<string>, target: Value)
    requires PipeFree(field) && forall i :: 0 <= i < |modifiers| ==> PipeFree(modifiers[i])
    ensures MatchesEntry(b, event, Entry(Text.Join([field] + modifiers, '|'), target)) <==>
            (var found := Lookup(event, field);
             found.Some? && !found.value.Null? && MatchesTarget(b, found.value, modifiers, target))
  {
    KeyRoundTrip([field] + modifiers);
    assert ([field] + modifiers)[1..] == modifiers;
  }

  predicate BlanklessKeys(d: Dict) {
    forall i :: 0 <= i < |d| ==> ' ' !in d[i].key
  }

  lemma {:induction false} SelectionsAreKeys(b: Builtins, event: Dict, d: Dict)
    ensures forall k :: k in SelectionMatches(b, event, d) ==> exists i :: 0 <= i < |d| && d[i].key == k
  {
    if d != [] {
      var n := |d| - 1;
      SelectionsAreKeys(b, event, d[..n]);
      forall k | k in SelectionMatches(b, event, d)
        ensures exists i :: 0 <= i < |d| && d[i].key == k
      {
        if k == d[n].key {
          assert d[n].key == k;
        } else {
          assert k in SelectionMatches(b, event, d[..n]);
          var i :| 0 <= i < n && d[..n][i].key == k;
          assert d[i].key == k;
        }
      }
    }
  }

  /** A rule whose condition is a documented one means that condition over its selections, up to
      the compounds the evaluator does not recognise, which never match. */
  lemma RuleMeaning(b: Builtins, detection: Dict, event: Dict, c: Condition)
    requires WellFormed(c) && Lookup(detection, "condition") == Some(Str(Print(c)))
    requires Recognised(c) || BlanklessKeys(detection)
    ensures Evaluate(b, detection, event) ==
            (Recognised(c) && Means(SelectionMatches(b, event, detection), c))
  {
    var m := SelectionMatches(b, event, detection);
    SelectionsAreKeys(b, event, detection);
    if !Recognised(c) {
      forall k | k in m ensures ' ' !in k {
        var i :| 0 <= i < |detection| && detection[i].key == k;
      }
    }
    EvaluationMeaning(m, c);
  }

  /** An entry without modifiers and with a text target asks for equality up to case. */
  lemma PlainEntryMeaning(b: Builtins, event: Dict, field: string, target: string)
    requires PipeFree(field)
    ensures MatchesEntry(b, event, Entry(field, Str(target))) <==>
            (var found := Lookup(event, field);
             found.Some? && !found.value.Null? && b.lower(Shown(b, found.value)) == b.lower(target))
  {
    NoPipe(field);
  }

  /** The text modifiers in terms of concatenation. */
  lemma ModifierMeaning(b: Builtins, found: Value, target: Value)
    ensures var ev, tv := b.lower(Coerced(b, found)), b.lower(Coerced(b, target));
            && (FieldMatch(b, found, Some("startswith"), target) <==> exists rest :: ev == tv + rest)
            && (FieldMatch(b, found, Some("endswith"), target) <==> exists front :: ev == front + tv)
            && (FieldMatch(b, found, Some("contains"), target) <==> exists front, rest :: ev == front + (tv + rest))
            && (FieldMatch(b, found, None, target) <==> ev == tv)
    ensures forall m :: m in ["gt", "lt", "gte", "lte"] ==> (FieldMatch(b, found, Some(m), target) <==> b.compare(m, found, target))
    ensures Coerced(b, Null) == "" && forall text :: Coerced(b, Str(text)) == text
  {
    var ev, tv := b.lower(Coerced(b, found)), b.lower(Coerced(b, target));
    PrefixMeaning(ev, tv);
    SuffixMeaning(ev, tv);
    ContainsMeaning(ev, tv);
    assert "startswith"[0] == 's' && "endswith"[0] == 'e' && "contains"[0] == 'c';
  }

  lemma PrefixMeaning(s: string, p: string)
    ensures StartsWith(s, p) <==> exists rest :: s == p + rest
  {
    if StartsWith(s, p) {
      assert s == p + s[|p|..];
    }
  }

  lemma SuffixMeaning(s: string, p: string)
    ensures EndsWith(s, p) <==> exists front :: s == front + p
  {
    if EndsWith(s, p) {
      assert s == s[..|s| - |p|] + p;
    }
  }

  lemma ContainsMeaning(s: string, p: string)
    ensures Contains(s, p) <==> exists front, rest :: s == front + (p + rest)
  {
    ContainsIffMatch(s, p);
    if j: nat :| MatchAt(s, p, j) {
      assert s == s[..j] + (s[j..j + |p|] + s[j + |p|..]);
    }
    if front, rest :| s == front + (p + rest) {
      MatchAtJoint(front, p, rest);
    }
  }

  /** A list of targets is the disjunction of its members, or their conjunction under "all": the
      parts of a list combine accordingly and a single member stands for itself. */
  lemma ListTargets(b: Builtins, found: Value, modifiers: seq<string>, xs: seq<Value>, ys: seq<Value>, t: Value)
    ensures MatchesTarget(b, found, modifiers, Listing(xs + ys)) <==>
            if "all" in modifiers
            then MatchesTarget(b, found, modifiers, Listing(xs)) && MatchesTarget(b, found, modifiers, Listing(ys))
            else MatchesTarget(b, found, modifiers, Listing(xs)) || MatchesTarget(b, found, modifiers, Listing(ys))
    ensures !t.Listing? && !t.Flag? ==>
            (MatchesTarget(b, found, modifiers, Listing([t])) <==> MatchesTarget(b, found, modifiers, t))
    ensures MatchesTarget(b, found, modifiers, Listing([])) <==> "all" in modifiers
  {
    var op, all := Operator(modifiers), xs + ys;
    forall i | 0 <= i < |xs| ensures all[i] == xs[i] {}
    forall i | 0 <= i < |ys| ensures all[|xs| + i] == ys[i] {}
    assert [t][0] == t;
  }

  /** Which selections the condition can refer to, and what it learns of them. */
  lemma {:induction false} SelectionsByName(b: Builtins, event: Dict, d: Dict, i: nat)
    requires DistinctKeys(d) && i < |d| && d[i].key != "condition" && d[i].value.Fields?
    ensures var m := SelectionMatches(b, event, d);
            d[i].key in m && m[d[i].key] == MatchesSelection(b, event, d[i].value.entries)
  {
    var n := |d| - 1;
    if i < n {
      SelectionsByName(b, event, d[..n], i);
      assert d[i].key != d[n].key;
    }
  }

  /** The condition can refer to exactly the entries that hold fields, other than itself. */
  lemma {:induction false} SelectionNames(b: Builtins, event: Dict, d: Dict, name: string)
    ensures name in SelectionMatches(b, event, d) <==>
            exists i :: 0 <= i < |d| && d[i].key == name && name != "condition" && d[i].value.Fields?
  {
    if d != [] {
      var n := |d| - 1;
      SelectionNames(b, event, d[..n], name);
      if i :| 0 <= i < |d| && d[i].key == name && name != "condition" && d[i].value.Fields? {
        assert i < n ==> d[..n][i] == d[i];
      }
    }
  }

  // ---- From a key to its comparison ----

  predicate AllAll(mods: seq<string>) {
    forall i :: 0 <= i < |mods| ==> mods[i] == "all"
  }

  lemma {:induction false} OperatorFound(front: seq<string>, m: string, rest: seq<string>)
    requires AllAll(front) && m != "all"
    ensures Operator(front + [m] + rest) == Some(m)
  {
    var mods := front + [m] + rest;
    if front != [] {
      assert mods[0] == "all" && mods[1..] == front[1..] + [m] + rest;
      OperatorFound(front[1..], m, rest);
    }
  }

  lemma {:induction false} NoOperator(mods: seq<string>)
    requires AllAll(mods)
    ensures Operator(mods) == None
  {
    if mods != [] {
      NoOperator(mods[1..]);
    }
  }

  /** A target compared by the given operator: each member of a list, as many of them as "all" asks for; the truth
      value of the field for a flag; and the field's text otherwise. */
  predicate Compared(b: Builtins, found: Value, op: Option<string>, everyMember: bool, target: Value) {
    match target
    case Listing(items) =>
      if everyMember then forall i :: 0 <= i < |items| ==> FieldMatch(b, found, op, items[i])
      else exists i :: 0 <= i < |items| && FieldMatch(b, found, op, items[i])
    case Flag(flag) => b.truthy(found) == flag
    case _ => FieldMatch(b, found, op, target)
  }

  predicate PipeFreeAll(parts: seq<string>) {
    forall i :: 0 <= i < |parts| ==> PipeFree(parts[i])
  }

  /** What a key asks for: the first modifier besides "all" is the comparison, wherever "all" stands. */
  lemma KeyMeaning(b: Builtins, event: Dict, field: string, front: seq<string>, m: string, rest: seq<string>, target: Value)
    requires PipeFree(field) && PipeFreeAll(front) && PipeFree(m) && PipeFreeAll(rest) && AllAll(front) && m != "all"
    ensures var mods := front + [m] + rest;
            MatchesEntry(b, event, Entry(Text.Join([field] + mods, '|'), target)) <==>
            (var found := Lookup(event, field);
             found.Some? && found.value != Null && Compared(b, found.value, Some(m), "all" in mods, target))
  {
    JoinedKeyMeaning(b, event, field, front + [m] + rest, target);
    OperatorFound(front, m, rest);
  }

  /** A key without another modifier than "all" asks for equality. */
  lemma PlainKeyMeaning(b: Builtins, event: Dict, field: string, mods: seq<string>, target: Value)
    requires PipeFree(field) && PipeFreeAll(mods) && AllAll(mods)
    ensures MatchesEntry(b, event, Entry(Text.Join([field] + mods, '|'), target)) <==>
            (var found := Lookup(event, field);
             found.Some? && found.value != Null && Compared(b, found.value, None, mods != [], target))
  {
    JoinedKeyMeaning(b, event, field, mods, target);
    NoOperator(mods);
    assert mods != [] ==> mods[0] == "all";
  }

  /** So a key such as "Image|endswith" with a text target asks that the field's text ends with it, up to case. */
  lemma TextKeyMeaning(b: Builtins, event: Dict, field: string, text: string)
    requires PipeFree(field)
    ensures var found := Lookup(event, field);
            var given := found.Some? && found.value != Null;
            var ev, tv := if given then b.lower(Coerced(b, found.value)) else "", b.lower(text);
            && (MatchesEntry(b, event, Entry(Text.Join([field, "endswith"], '|'), Str(text))) <==>
                given && exists front :: ev == front + tv)
            && (MatchesEntry(b, event, Entry(Text.Join([field, "startswith"], '|'), Str(text))) <==>
                given && exists rest :: ev == tv + rest)
            && (MatchesEntry(b, event, Entry(Text.Join([field, "contains"], '|'), Str(text))) <==>
                given && exists front, rest :: ev == front + (tv + rest))
  {
    ModifierKey(b, event, field, "endswith", text);
    ModifierKey(b, event, field, "startswith", text);
    ModifierKey(b, event, field, "contains", text);
    var found := Lookup(event, field);
    if found.Some? {
      ModifierMeaning(b, found.value, Str(text));
    }
  }

  lemma ModifierKey(b: Builtins, event: Dict, field: string, m: string, text: string)
    requires PipeFree(field) && (m == "endswith" || m == "startswith" || m == "contains")
    ensures MatchesEntry(b, event, Entry(Text.Join([field, m], '|'), Str(text))) <==>
            (var found := Lookup(event, field);
             found.Some? && found.value != Null && FieldMatch(b, found.value, Some(m), Str(text)))
  {
    assert m[0] != "all"[0];
    assert [field] + ([] + [m] + []) == [field, m];
    KeyMeaning(b, event, field, [], m, [], Str(text));
  }
}
