/** Catalog entries: rendering of event templates, expansion of scale packs, registration. */
module Catalog {
  import opened Prelude
  import opened Values
  import opened Text
  import Sigma
  import Detection
  import MixedRadix

  // ---- Rendering ----

  /** Length of the replacement field's name that starts `s`. */
  function NameLength(s: string): (n: nat)
    ensures n <= |s|
    ensures forall i :: 0 <= i < n ==> s[i] !in "{}[.!:"
    ensures n < |s| ==> s[n] in "{}[.!:"
  {
    if s == "" || s[0] in "{}[.!:" then 0 else NameLength(s[1..]) + 1
  }

  function Before(text: string, r: Rendering): Rendering {
    if r.Rendered? then Rendered(text + r.text) else r
  }

  /** String formatting with named parameters only, left to right. Positional fields and
      unbalanced braces raise; an unknown name is reported as a missing key. */
  function Format(b: Builtins, s: string, params: Params): Rendering
    decreases |s|
  {
    if s == "" then Rendered("")
    else if s[0] == '}' then
      if |s| >= 2 && s[1] == '}' then Before("}", Format(b, s[2..], params)) else Raises
    else if s[0] != '{' then Before(s[..1], Format(b, s[1..], params))
    else if |s| == 1 then Raises
    else if s[1] == '{' then Before("{", Format(b, s[2..], params))
    else
      var n := NameLength(s[1..]);
      var name := s[1..n + 1];
      if n + 1 == |s| then Raises
      else if s[n + 1] != '}' then b.elaborate(s, params)
      else if forall i :: 0 <= i < |name| ==> IsDigit(name[i]) then Raises
      else if name !in params then KeyMissing
      else Before(Shown(b, params[name]), Format(b, s[n + 2..], params))
  }

  /** A text with a missing key stays as it is; `None` stands for an exception. */
  function RenderText(b: Builtins, s: string, params: Params): Option<string> {
    match Format(b, s, params)
    case Rendered(t) => Some(t)
    case KeyMissing => Some(s)
    case Raises => None
  }

  function RenderValue(b: Builtins, v: Value, params: Params): Option<Value> {
    match v
    case Str(s) => (match RenderText(b, s, params) case Some(t) => Some(Str(t)) case None => None)
    case Listing(items) =>
      var rs := seq(|items|, i requires 0 <= i < |items| => RenderValue(b, items[i], params));
      if exists i :: 0 <= i < |rs| && rs[i].None? then None
      else Some(Listing(seq(|rs|, i requires 0 <= i < |rs| && rs[i].Some? => rs[i].value)))
    case Fields(entries) =>
      var rs := seq(|entries|, i requires 0 <= i < |entries| => RenderValue(b, entries[i].value, params));
      if exists i :: 0 <= i < |rs| && rs[i].None? then None
      else Some(Fields(seq(|rs|, i requires 0 <= i < |rs| && rs[i].Some? => Entry(entries[i].key, rs[i].value))))
    case _ => Some(v)
  }

  predicate BraceFree(s: string) {
    '{' !in s && '}' !in s
  }

  lemma {:induction false} BraceFreeUnchanged(b: Builtins, s: string, params: Params)
    requires BraceFree(s)
    ensures Format(b, s, params) == Rendered(s)
  {
    if s != "" {
      assert s[0] in s;
      BraceFreeUnchanged(b, s[1..], params);
      assert s[..1] + s[1..] == s;
    }
  }

  predicate PlaceholderName(name: string) {
    NameLength(name) == |name| && exists i :: 0 <= i < |name| && !IsDigit(name[i])
  }

  lemma {:induction false} NameLengthStops(name: string, rest: string)
    requires NameLength(name) == |name|
    ensures NameLength(name + ("}" + rest)) == |name|
  {
    var s := name + ("}" + rest);
    if name == "" {
      assert s[0] == '}';
    } else {
      assert name[0] !in "{}[.!:";
      assert s[1..] == name[1..] + ("}" + rest);
      NameLengthStops(name[1..], rest);
    }
  }

  lemma PlaceholderParts(name: string)
    ensures var s := Placeholder(name);
            && |s| == |name| + 2 && s[0] == '{' && s[1..] == name + "}" && s[|name| + 1] == '}'
            && s[1..|name| + 1] == name && s[|name| + 2..] == ""
  {
    var s := Placeholder(name);
    assert s[1..] == name + "}";
    assert s[1..|name| + 1] == s[1..][..|name|];
  }

  /** A placeholder becomes the text of its parameter, which is not rendered again; without the
      parameter the placeholder stays. */
  lemma PlaceholderRenders(b: Builtins, name: string, params: Params)
    requires PlaceholderName(name)
    ensures RenderText(b, Placeholder(name), params) ==
            Some(if name in params then Shown(b, params[name]) else Placeholder(name))
  {
    var s := Placeholder(name);
    PlaceholderParts(name);
    NameLengthStops(name, "");
    assert name + ("}" + "") == s[1..];
    assert name[0] !in "{}[.!:" && s[1] == name[0];
    assert Format(b, "", params) == Rendered("");
    if name in params { assert Shown(b, params[name]) + "" == Shown(b, params[name]); }
  }

  // ---- Expansion of a scale pack ----

  datatype Generator = Generator(
    pack: string,
    count: int,
    idPrefix: string,
    slug: string,
    dataset: string,
    category: string,
    telemetry: seq<string>,
    fidelities: seq<string>,
    formats: seq<string>,
    scopes: seq<string>)

  datatype Base = Base(attackId: string, name: string, tactic: string)

  /** A parameter schema keeps the default of each parameter that has one. */
  datatype Parameter = Parameter(name: string, default: Option<Value>)

  datatype Item = Item(
    id: string,
    attackId: string,
    pack: string,
    scope: string,
    schema: seq<Parameter>,
    detection: Dict,
    events: seq<Dict>)

  function Radices(g: Generator): seq<nat> {
    [|g.telemetry|, |g.fidelities|, |g.formats|, |g.scopes|]
  }

  /** The list positions used by the item with running number `k`, counted from 0. */
  function Positions(g: Generator, k: nat): (ps: seq<int>)
    requires MixedRadix.Positive(Radices(g))
    ensures MixedRadix.InRange(Radices(g), ps)
  {
    MixedRadix.DigitsInRange(Radices(g), k);
    MixedRadix.Digits(Radices(g), k)
  }

  function WithoutSuffix(s: string, suffix: string): string {
    if suffix != "" && Sigma.EndsWith(s, suffix) then s[..|s| - |suffix|] else s
  }

  function Default(name: string, text: string): Parameter {
    Parameter(name, Some(Str(text)))
  }

  function Schema(idx: nat, telemetry: string, format: string, fidelity: string): seq<Parameter> {
    [ Default("principal", "lab-user-" + Padded(idx, 4)),
      Default("asset", "lab-asset-" + Padded(idx, 4)),
      Default("telemetry_source", telemetry),
      Default("siem_format", format),
      Default("fidelity", fidelity) ]
  }

  function Variant(g: Generator, idx: nat): string {
    g.slug + ("_" + Padded(idx, 4))
  }

  function Selection(g: Generator, attackId: string, variant: string, telemetry: string): Dict {
    [ Entry("event.dataset", Str(g.dataset)),
      Entry("attack.technique.id", Str(attackId)),
      Entry("apt_sim.variant", Str(variant)),
      Entry("apt_sim.telemetry_source", Str(telemetry)) ]
  }

  function Rule(selection: Dict): Dict {
    [ Entry("selection", Fields(selection)), Entry("condition", Str("selection")) ]
  }

  function Placeholder(name: string): string {
    "{" + (name + "}")
  }

  function Template(g: Generator, attackId: string, variant: string, tactic: string, technique: string): Dict {
    [ Entry("category", Str(g.category)),
      Entry("event.dataset", Str(g.dataset)),
      Entry("event.action", Str(variant)),
      Entry("attack.tactic", Str(tactic)),
      Entry("attack.technique.id", Str(attackId)),
      Entry("attack.technique.name", Str(technique)),
      Entry("apt_sim.variant", Str(variant)),
      Entry("apt_sim.variant_family", Str(g.pack)),
      Entry("apt_sim.telemetry_source", Str(Placeholder("telemetry_source"))),
      Entry("apt_sim.siem_format", Str(Placeholder("siem_format"))),
      Entry("apt_sim.fidelity", Str(Placeholder("fidelity"))),
      Entry("user.name", Str(Placeholder("principal"))),
      Entry("host.name", Str(Placeholder("asset"))) ]
  }

  function Made(b: Builtins, g: Generator, base: Base, idx: nat,
                telemetry: string, fidelity: string, format: string, scope: string): Item
  {
    var attackId, variant := Upper(b, base.attackId), Variant(g, idx);
    Item(attackId + (":" + (g.idPrefix + ("_" + Padded(idx, 4)))), attackId, g.pack, scope,
         Schema(idx, telemetry, format, fidelity),
         Rule(Selection(g, attackId, variant, telemetry)),
         [Template(g, attackId, variant, base.tactic, WithoutSuffix(base.name, " Marker"))])
  }

  /** The item with running number `k`. */
  function ItemAt(b: Builtins, g: Generator, bases: seq<Base>, k: nat): Item
    requires bases != [] && MixedRadix.Positive(Radices(g))
  {
    var ps := Positions(g, k);
    Made(b, g, bases[k % |bases|], k + 1, g.telemetry[ps[0]], g.fidelities[ps[1]], g.formats[ps[2]], g.scopes[ps[3]])
  }

  lemma PositionsAre(g: Generator, k: nat)
    requires MixedRadix.Positive(Radices(g))
    ensures var t, f, s, p := |g.telemetry|, |g.fidelities|, |g.formats|, |g.scopes|;
            t > 0 && f > 0 && s > 0 && p > 0 && t * f > 0 && t * f * s > 0
            && Positions(g, k) == [k % t, k / t % f, k / (t * f) % s, k / (t * f * s) % p]
  {
    var rs := Radices(g);
    var t, f, s, p := rs[0], rs[1], rs[2], rs[3];
    MixedRadix.MulMono(t, 1, f);
    MixedRadix.MulMono(t * f, 1, s);
    MixedRadix.DivDiv(k, t, f);
    MixedRadix.DivDiv(k, t * f, s);
    FourDigits(t, f, s, p, k);
  }

  lemma FourDigits(t: nat, f: nat, s: nat, p: nat, k: nat)
    requires t > 0 && f > 0 && s > 0 && p > 0
    ensures MixedRadix.Digits([t, f, s, p], k) == [k % t, k / t % f, k / t / f % s, k / t / f / s % p]
  {
    assert [t, f, s, p][1..] == [f, s, p] && [f, s, p][1..] == [s, p] && [s, p][1..] == [p] && [p][1..] == [];
    assert MixedRadix.Digits([p], k / t / f / s) == [k / t / f / s % p];
    assert MixedRadix.Digits([s, p], k / t / f) == [k / t / f % s, k / t / f / s % p];
    assert MixedRadix.Digits([f, s, p], k / t) == [k / t % f, k / t / f % s, k / t / f / s % p];
  }

  lemma EmptyList(g: Generator)
    requires |g.telemetry| == 0 || |g.fidelities| == 0 || |g.formats| == 0 || |g.scopes| == 0
    ensures !MixedRadix.Positive(Radices(g))
  {
    var rs := Radices(g);
    assert rs[0] == 0 || rs[1] == 0 || rs[2] == 0 || rs[3] == 0;
  }

  lemma NoEmptyList(g: Generator)
    requires |g.telemetry| > 0 && |g.fidelities| > 0 && |g.formats| > 0 && |g.scopes| > 0
    ensures MixedRadix.Positive(Radices(g))
  {
  }

  /** The same item with the positions computed by division. */
  lemma ItemAtIs(b: Builtins, g: Generator, bases: seq<Base>, k: nat)
    requires bases != [] && MixedRadix.Positive(Radices(g))
    ensures var t, f, s, p := |g.telemetry|, |g.fidelities|, |g.formats|, |g.scopes|;
            && t > 0 && f > 0 && s > 0 && p > 0 && t * f > 0 && t * f * s > 0
            && ItemAt(b, g, bases, k) == Made(b, g, bases[k % |bases|], k + 1, g.telemetry[k % t], g.fidelities[k / t % f],
                                              g.formats[k / (t * f) % s], g.scopes[k / (t * f * s) % p])
  {
    PositionsAre(g, k);
  }

  method ExpandOne(b: Builtins, g: Generator, bases: seq<Base>, idx: nat) returns (item: Item)
    requires idx >= 1 && bases != [] && MixedRadix.Positive(Radices(g))
    ensures item == ItemAt(b, g, bases, idx - 1)
  {
    ItemAtIs(b, g, bases, idx - 1);
    var t, f, s, p := |g.telemetry|, |g.fidelities|, |g.formats|, |g.scopes|;
    var base := bases[(idx - 1) % |bases|];
    var telemetry := g.telemetry[(idx - 1) % t];
    var fidelity := g.fidelities[(idx - 1) / t % f];
    var format := g.formats[(idx - 1) / (t * f) % s];
    var scope := g.scopes[(idx - 1) / (t * f * s) % p];
    item := Made(b, g, base, idx, telemetry, fidelity, format, scope);
  }

  /** Expands a pack; `None` stands for the division by an empty list. */
  method Expand(b: Builtins, g: Generator, bases: seq<Base>) returns (r: Option<seq<Item>>)
    ensures bases == [] || g.count <= 0 ==> r == Some([])
    ensures r.None? <==> bases != [] && g.count > 0 && !MixedRadix.Positive(Radices(g))
    ensures bases != [] && g.count > 0 && r.Some? ==>
            |r.value| == g.count && forall k :: 0 <= k < g.count ==> r.value[k] == ItemAt(b, g, bases, k)
  {
    if bases == [] {
      return Some([]);
    }
    var items := [];
    var t, f, s, p := |g.telemetry|, |g.fidelities|, |g.formats|, |g.scopes|;
    var idx := 1;
    while idx < g.count + 1
      invariant 1 <= idx && (g.count > 0 ==> idx <= g.count + 1) && (g.count <= 0 ==> idx == 1)
      invariant idx > 1 ==> MixedRadix.Positive(Radices(g))
      invariant |items| == idx - 1
      invariant forall k :: 0 <= k < idx - 1 ==> items[k] == ItemAt(b, g, bases, k)
    {
      if t == 0 || f == 0 || s == 0 || p == 0 {
        EmptyList(g);
        return None;
      }
      NoEmptyList(g);
      var item := ExpandOne(b, g, bases, idx);
      items := items + [item];
      idx := idx + 1;
    }
    return Some(items);
  }

  /** Item `k` takes its technique from the bases in turn and its number from `k`: its identifier is the attack id,
      the prefix and the number from 1, padded to four digits. */
  lemma ItemIdentity(b: Builtins, g: Generator, bases: seq<Base>, k: nat)
    requires bases != [] && MixedRadix.Positive(Radices(g))
    ensures var item, attackId := ItemAt(b, g, bases, k), Upper(b, bases[k % |bases|].attackId);
            && item.attackId == attackId && item.pack == g.pack
            && item.id == attackId + ":" + g.idPrefix + "_" + Padded(k + 1, 4)
  {
    var attackId := Upper(b, bases[k % |bases|].attackId);
    assert attackId + (":" + (g.idPrefix + ("_" + Padded(k + 1, 4)))) == attackId + ":" + g.idPrefix + "_" + Padded(k + 1, 4);
  }

  // ---- Coverage ----

  /** Every window as long as the product of the list lengths uses each combination of list
      positions exactly once, wherever the window starts. */
  lemma WindowCoversEachOnce(g: Generator, start: nat, ps: seq<int>)
    requires MixedRadix.Positive(Radices(g)) && MixedRadix.InRange(Radices(g), ps)
    ensures var n := MixedRadix.Product(Radices(g));
            && (exists k :: start <= k < start + n && Positions(g, k) == ps)
            && forall k, k' | start <= k < start + n && start <= k' < start + n ::
                 Positions(g, k) == ps == Positions(g, k') ==> k == k'
  {
    var rs := Radices(g);
    MixedRadix.ProductPositive(rs);
    var n, v := MixedRadix.Product(rs), MixedRadix.IndexOf(rs, ps);
    MixedRadix.DigitsOfIndex(rs, ps);
    var k := start + (v - start) % n;
    SameResidue(start, v, n);
    MixedRadix.DigitsModulo(rs, k);
    assert Positions(g, k) == ps;
    forall i, j | start <= i < start + n && start <= j < start + n && Positions(g, i) == ps && Positions(g, j) == ps
      ensures i == j
    {
      MixedRadix.DigitsModulo(rs, i);
      MixedRadix.DigitsModulo(rs, j);
      MixedRadix.DigitsInjective(rs, i % n, j % n);
      WindowResidues(start, n, i, j);
    }
  }

  lemma SameResidue(start: nat, v: nat, n: nat)
    requires n > 0 && v < n
    ensures (start + (v - start) % n) % n == v
  {
    var q, d := (v - start) / n, (v - start) % n;
    assert v - start == n * q + d;
    var x := start + d;
    assert x == n * (-q) + v;
    MixedRadix.UniqueQuotient(n, x / n, x % n, -q, v);
  }

  lemma WindowResidues(start: nat, n: nat, i: nat, j: nat)
    requires n > 0 && start <= i < start + n && start <= j < start + n && i % n == j % n
    ensures i == j
  {
    var a, c := i / n, j / n;
    assert i - j == n * a - n * c;
    if a < c { MixedRadix.MulMono(n, a + 1, c); } else if c < a { MixedRadix.MulMono(n, c + 1, a); }
  }

  // ---- Registration ----

  /** The registry's key: the item's identifier is raised to upper case when the entry is built
      and again when it is registered. */
  function Key(b: Builtins, item: Item): string {
    Upper(b, Upper(b, item.id))
  }

  type Table = map<string, Item>

  function Registered(b: Builtins, table: Table, items: seq<Item>): Table {
    if items == [] then table
    else Registered(b, table, items[..|items| - 1])[Key(b, items[|items| - 1]) := items[|items| - 1]]
  }

  predicate KeepsMarks(b: Builtins) {
    b.upper('_') == "_" && forall c :: IsDigit(c) ==> b.upper(c) == [c]
  }

  lemma UpperSplits(b: Builtins, head: string, digits: string)
    requires KeepsMarks(b) && forall i :: 0 <= i < |digits| ==> IsDigit(digits[i])
    ensures Upper(b, head + ("_" + digits)) == Upper(b, head) + ("_" + digits)
  {
    UpperAppend(b, head, "_" + digits);
    UpperFixed(b, "_" + digits);
  }

  lemma KeyShape(b: Builtins, g: Generator, bases: seq<Base>, k: nat)
    requires KeepsMarks(b) && bases != [] && MixedRadix.Positive(Radices(g))
    ensures exists head :: Key(b, ItemAt(b, g, bases, k)) == head + ['_'] + Padded(k + 1, 4)
  {
    var attackId, d := Upper(b, bases[k % |bases|].attackId), Padded(k + 1, 4);
    var head := attackId + (":" + g.idPrefix);
    Regroup(attackId, ":", g.idPrefix, "_" + d);
    UpperTwice(b, head, d);
  }

  lemma Regroup(a: string, b: string, c: string, d: string)
    ensures a + (b + (c + d)) == (a + (b + c)) + d
  {
  }

  lemma UpperTwice(b: Builtins, head: string, digits: string)
    requires KeepsMarks(b) && forall i :: 0 <= i < |digits| ==> IsDigit(digits[i])
    ensures Upper(b, Upper(b, head + ("_" + digits))) == Upper(b, Upper(b, head)) + ['_'] + digits
  {
    UpperSplits(b, head, digits);
    UpperSplits(b, Upper(b, head), digits);
    assert Upper(b, Upper(b, head)) + ("_" + digits) == Upper(b, Upper(b, head)) + ['_'] + digits;
  }

  /** Two entries of one pack never share a key. */
  lemma KeysDistinct(b: Builtins, g: Generator, bases: seq<Base>, k: nat, k': nat)
    requires KeepsMarks(b) && bases != [] && MixedRadix.Positive(Radices(g))
    requires Key(b, ItemAt(b, g, bases, k)) == Key(b, ItemAt(b, g, bases, k'))
    ensures k == k'
  {
    KeyShape(b, g, bases, k);
    KeyShape(b, g, bases, k');
    var h :| Key(b, ItemAt(b, g, bases, k)) == h + ['_'] + Padded(k + 1, 4);
    var h' :| Key(b, ItemAt(b, g, bases, k')) == h' + ['_'] + Padded(k' + 1, 4);
    SplitAtLast('_', h, Padded(k + 1, 4), h', Padded(k' + 1, 4));
    PaddedInjective(k + 1, k' + 1, 4);
  }

  predicate KeyAmong(b: Builtins, items: seq<Item>, key: string) {
    exists i :: 0 <= i < |items| && Key(b, items[i]) == key
  }

  /** Registering leaves the entries under other keys alone. */
  lemma {:induction false} RegisteredLeaves(b: Builtins, table: Table, items: seq<Item>, key: string)
    requires !KeyAmong(b, items, key)
    ensures var after := Registered(b, table, items);
            (key in after <==> key in table) && (key in table ==> after[key] == table[key])
  {
    if items != [] {
      var n := |items| - 1;
      assert Key(b, items[n]) != key;
      forall i | 0 <= i < n ensures Key(b, items[..n][i]) != key { assert items[..n][i] == items[i]; }
      RegisteredLeaves(b, table, items[..n], key);
    }
  }

  /** Among items with distinct keys each one stays retrievable. */
  lemma {:induction false} RegisteredKeeps(b: Builtins, table: Table, items: seq<Item>, i: nat)
    requires i < |items| && forall j :: i < j < |items| ==> Key(b, items[j]) != Key(b, items[i])
    ensures var after := Registered(b, table, items);
            Key(b, items[i]) in after && after[Key(b, items[i])] == items[i]
  {
    var n := |items| - 1;
    if i < n {
      forall j | i < j < n ensures Key(b, items[..n][j]) != Key(b, items[i]) {}
      RegisteredKeeps(b, table, items[..n], i);
    }
  }

  /** Registering a pack overwrites none of its own entries. */
  lemma PackSurvivesRegistration(b: Builtins, table: Table, g: Generator, bases: seq<Base>, items: seq<Item>)
    requires KeepsMarks(b) && bases != [] && MixedRadix.Positive(Radices(g))
    requires forall k :: 0 <= k < |items| ==> items[k] == ItemAt(b, g, bases, k)
    ensures var after := Registered(b, table, items);
            && (forall i :: 0 <= i < |items| ==> Key(b, items[i]) in after && after[Key(b, items[i])] == items[i])
            && (forall key :: key in table && !KeyAmong(b, items, key) ==> key in after && after[key] == table[key])
  {
    forall i | 0 <= i < |items|
      ensures var after := Registered(b, table, items);
              Key(b, items[i]) in after && after[Key(b, items[i])] == items[i]
    {
      forall j | i < j < |items| ensures Key(b, items[j]) != Key(b, items[i]) {
        if Key(b, items[j]) == Key(b, items[i]) { KeysDistinct(b, g, bases, i, j); }
      }
      RegisteredKeeps(b, table, items, i);
    }
    forall key | key in table && !KeyAmong(b, items, key)
      ensures var after := Registered(b, table, items); key in after && after[key] == table[key]
    {
      RegisteredLeaves(b, table, items, key);
    }
  }

  class Registry {
    var items: Table
    var loaded: bool

    constructor ()
      ensures items == map[] && !loaded
    {
      items, loaded := map[], false;
    }

    /** An entry without identifier is refused. */
    method Register(b: Builtins, item: Item) returns (ok: bool)
      modifies this`items
      ensures ok <==> Upper(b, item.id) != ""
      ensures items == if ok then old(items)[Key(b, item) := item] else old(items)
    {
      var id := Upper(b, item.id);
      if id == "" {
        return false;
      }
      items := items[Upper(b, id) := item];
      return true;
    }

    method Get(b: Builtins, id: string) returns (item: Option<Item>)
      ensures item == if Upper(b, id) in items then Some(items[Upper(b, id)]) else None
    {
      var key := Upper(b, id);
      if key in items {
        item := Some(items[key]);
      } else {
        item := None;
      }
    }

    /** Registers the catalog once. A refused entry ends the loop with the entries before it kept. */
    method RegisterCatalog(b: Builtins, catalog: seq<Item>) returns (count: Option<nat>)
      modifies this
      ensures old(loaded) ==> count == Some(0) && items == old(items) && loaded
      ensures !old(loaded) && (forall i :: 0 <= i < |catalog| ==> Upper(b, catalog[i].id) != "") ==>
              count == Some(|catalog|) && items == Registered(b, old(items), catalog) && loaded
      ensures !old(loaded) && (exists i :: 0 <= i < |catalog| && Upper(b, catalog[i].id) == "") ==>
              count == None && !loaded
              && exists i :: 0 <= i < |catalog| && Upper(b, catalog[i].id) == ""
                             && items == Registered(b, old(items), catalog[..i])
    {
      if loaded {
        return Some(0);
      }
      var n := 0;
      while n < |catalog|
        invariant 0 <= n <= |catalog| && !loaded
        invariant forall i :: 0 <= i < n ==> Upper(b, catalog[i].id) != ""
        invariant items == Registered(b, old(items), catalog[..n])
      {
        var ok := Register(b, catalog[n]);
        if !ok {
          return None;
        }
        assert catalog[..n + 1][..n] == catalog[..n];
        n := n + 1;
      }
      assert catalog[..n] == catalog;
      loaded := true;
      return Some(n);
    }
  }

  // ---- Events and self-detection ----

  function Defaults(schema: seq<Parameter>): Params {
    if schema == [] then map[] else
      var p, others := schema[|schema| - 1], Defaults(schema[..|schema| - 1]);
      if p.default.Some? then others[p.name := p.default.value] else others
  }

  method ParamDefaults(schema: seq<Parameter>) returns (defaults: Params)
    ensures defaults == Defaults(schema)
    ensures forall name :: name in defaults <==> exists i :: Declares(schema, i, name)
    ensures forall i, name :: LastDeclares(schema, i, name) ==> name in defaults && defaults[name] == schema[i].default.value
  {
    defaults := map[];
    for i := 0 to |schema|
      invariant defaults == Defaults(schema[..i])
    {
      assert schema[..i + 1][..i] == schema[..i];
      match schema[i].default
      case Some(v) => defaults := defaults[schema[i].name := v];
      case None =>
    }
    assert schema[..|schema|] == schema;
    forall name ensures name in defaults <==> exists i :: Declares(schema, i, name) {
      DefaultsDeclared(schema, name);
    }
    forall i, name | LastDeclares(schema, i, name)
      ensures name in defaults && defaults[name] == schema[i].default.value
    {
      DefaultsLast(schema, i, name);
    }
  }

  /** Parameter `i` gives `name` a default. */
  predicate Declares(schema: seq<Parameter>, i: int, name: string) {
    0 <= i < |schema| && schema[i].name == name && schema[i].default.Some?
  }

  predicate LastDeclares(schema: seq<Parameter>, i: int, name: string) {
    Declares(schema, i, name) && forall j :: i < j < |schema| ==> !Declares(schema, j, name)
  }

  lemma {:induction false} DefaultsDeclared(schema: seq<Parameter>, name: string)
    ensures name in Defaults(schema) <==> exists i :: Declares(schema, i, name)
  {
    if schema != [] {
      var n := |schema| - 1;
      DefaultsDeclared(schema[..n], name);
      if i :| Declares(schema[..n], i, name) {
        assert Declares(schema, i, name);
      }
      if i :| Declares(schema, i, name) {
        assert i < n ==> Declares(schema[..n], i, name);
      }
      if name in Defaults(schema) && name !in Defaults(schema[..n]) {
        assert Declares(schema, n, name);
      }
    }
  }

  lemma {:induction false} DefaultsLast(schema: seq<Parameter>, i: nat, name: string)
    requires LastDeclares(schema, i, name)
    ensures name in Defaults(schema) && Defaults(schema)[name] == schema[i].default.value
  {
    var n := |schema| - 1;
    if i < n {
      assert !Declares(schema, n, name);
      forall j | i < j < n ensures !Declares(schema[..n], j, name) {
        assert !Declares(schema, j, name);
      }
      assert Declares(schema[..n], i, name);
      DefaultsLast(schema[..n], i, name);
    }
  }

  function Merged(item: Item, params: Params): Params {
    Defaults(item.schema) + params
  }

  function SetDefault(d: Dict, key: string, text: string): Dict {
    if Lookup(d, key).Some? then d else d + [Entry(key, Str(text))]
  }

  function Completed(b: Builtins, item: Item, event: Dict): Dict {
    var e1 := SetDefault(event, "_sim", "APT_SIM_CATALOG_TTP");
    var e2 := SetDefault(e1, "attack_id", Upper(b, item.attackId));
    var e3 := SetDefault(e2, "catalog_id", Upper(b, item.id));
    var e4 := SetDefault(e3, "safety_tier", "marker-only");
    SetDefault(e4, "pack", item.pack)
  }

  /** The rendered events; `None` when rendering raises. */
  function SyntheticEvents(b: Builtins, item: Item, params: Params): Option<seq<Dict>> {
    var merged := Merged(item, params);
    var rs := seq(|item.events|, i requires 0 <= i < |item.events| => RenderValue(b, Fields(item.events[i]), merged));
    if exists i :: 0 <= i < |rs| && !(rs[i].Some? && rs[i].value.Fields?) then None
    else Some(seq(|rs|, i requires 0 <= i < |rs| && rs[i].Some? && rs[i].value.Fields? => Completed(b, item, rs[i].value.entries)))
  }

  predicate RendersAll(b: Builtins, d: Dict, params: Params) {
    forall i :: 0 <= i < |d| ==> RenderValue(b, d[i].value, params).Some?
  }

  /** Event `e` is template `d` with each value rendered. */
  predicate IsRendering(b: Builtins, d: Dict, params: Params, e: Dict) {
    |e| == |d| && forall i :: 0 <= i < |d| ==> e[i].key == d[i].key && RenderValue(b, d[i].value, params) == Some(e[i].value)
  }

  lemma RenderedEntries(b: Builtins, d: Dict, params: Params)
    ensures var r := RenderValue(b, Fields(d), params);
            (r.Some? <==> RendersAll(b, d, params)) && (r.Some? ==> r.value.Fields? && IsRendering(b, d, params, r.value.entries))
  {
    var rs := seq(|d|, i requires 0 <= i < |d| => RenderValue(b, d[i].value, params));
    assert (exists i :: 0 <= i < |rs| && rs[i].None?) <==> !RendersAll(b, d, params) by {
      assert forall i :: 0 <= i < |d| ==> rs[i] == RenderValue(b, d[i].value, params);
    }
  }

  lemma {:induction false} LookupFirst(d: Dict, i: nat)
    requires i < |d| && forall j :: 0 <= j < i ==> d[j].key != d[i].key
    ensures Lookup(d, d[i].key) == Some(d[i].value)
  {
    if i > 0 {
      assert d[0].key != d[i].key;
      LookupFirst(d[1..], i - 1);
    }
  }

  lemma {:induction false} LookupAppend(d: Dict, e: Entry, key: string)
    requires Lookup(d, key).Some?
    ensures Lookup(d + [e], key) == Lookup(d, key)
  {
    if d[0].key != key {
      assert (d + [e])[1..] == d[1..] + [e];
      LookupAppend(d[1..], e, key);
    }
  }

  lemma SetDefaultKeeps(d: Dict, key: string, text: string, k: string)
    requires Lookup(d, k).Some?
    ensures Lookup(SetDefault(d, key, text), k) == Lookup(d, k)
  {
    LookupAppend(d, Entry(key, Str(text)), k);
  }

  /** Completing an event never changes a field it already has. */
  lemma CompletedKeeps(b: Builtins, item: Item, event: Dict, k: string)
    requires Lookup(event, k).Some?
    ensures Lookup(Completed(b, item, event), k) == Lookup(event, k)
  {
    var e1 := SetDefault(event, "_sim", "APT_SIM_CATALOG_TTP");
    var e2 := SetDefault(e1, "attack_id", Upper(b, item.attackId));
    var e3 := SetDefault(e2, "catalog_id", Upper(b, item.id));
    var e4 := SetDefault(e3, "safety_tier", "marker-only");
    SetDefaultKeeps(event, "_sim", "APT_SIM_CATALOG_TTP", k);
    SetDefaultKeeps(e1, "attack_id", Upper(b, item.attackId), k);
    SetDefaultKeeps(e2, "catalog_id", Upper(b, item.id), k);
    SetDefaultKeeps(e3, "safety_tier", "marker-only", k);
    SetDefaultKeeps(e4, "pack", item.pack, k);
  }

  /** An item with a single event template. */
  lemma OneEvent(b: Builtins, item: Item, params: Params)
    requires |item.events| == 1
    ensures var r := SyntheticEvents(b, item, params);
            && (r.Some? <==> RendersAll(b, item.events[0], Merged(item, params)))
            && (r.Some? ==> |r.value| == 1 && exists e :: IsRendering(b, item.events[0], Merged(item, params), e)
                                                          && r.value[0] == Completed(b, item, e))
  {
    var merged := Merged(item, params);
    RenderedEntries(b, item.events[0], merged);
    var rs := seq(|item.events|, i requires 0 <= i < |item.events| => RenderValue(b, Fields(item.events[i]), merged));
    assert rs[0] == RenderValue(b, Fields(item.events[0]), merged);
    if rs[0].Some? {
      assert IsRendering(b, item.events[0], merged, rs[0].value.entries);
    }
  }

  lemma SelectionRule(b: Builtins, selection: Dict, event: Dict)
    ensures Detection.Evaluate(b, Rule(selection), event) == Detection.MatchesSelection(b, event, selection)
  {
    var d := Rule(selection);
    assert "condition"[0] != "selection"[0];
    LookupFirst(d, 1);
    var first := d[..1];
    assert first == [d[0]] && first[..0] == [];
    assert Detection.SelectionMatches(b, event, first[..0]) == map[];
    var m := Detection.SelectionMatches(b, event, first);
    assert m == map["selection" := Detection.MatchesSelection(b, event, selection)];
    assert Detection.SelectionMatches(b, event, d) == m;
    assert Sigma.Trimmed("selection");
    Sigma.StripTrimmed("selection");
  }

  /** The text survives rendering up to case. */
  predicate SameText(b: Builtins, s: string, params: Params) {
    var r := RenderText(b, s, params);
    r.Some? && b.lower(r.value) == b.lower(s)
  }

  /** Selection entry `j` asks for the template's field at `at[j]`, by a key without modifiers that
      no earlier field has. */
  predicate Asks(t: Dict, sel: Dict, at: seq<nat>) {
    |at| == |sel| && forall j :: 0 <= j < |sel| ==> AsksFor(t, sel[j], at[j])
  }

  predicate AsksFor(t: Dict, wanted: Entry, i: nat) {
    && i < |t| && wanted.key == t[i].key && wanted.value.Str? && t[i].value.Str?
    && Detection.PipeFree(wanted.key) && forall k :: 0 <= k < i ==> t[k].key != t[i].key
  }

  /** What the entry demands of the rendered event. */
  predicate Meets(b: Builtins, source: Value, params: Params, target: Value) {
    && source.Str? && target.Str? && RenderText(b, source.text, params).Some?
    && b.lower(RenderText(b, source.text, params).value) == b.lower(target.text)
  }

  lemma EntryMeaning(b: Builtins, item: Item, t: Dict, params: Params, e: Dict, wanted: Entry, i: nat)
    requires IsRendering(b, t, params, e) && AsksFor(t, wanted, i)
    ensures Detection.MatchesEntry(b, Completed(b, item, e), wanted) <==> Meets(b, t[i].value, params, wanted.value)
  {
    forall k | 0 <= k < i ensures e[k].key != e[i].key {
      assert e[k].key == t[k].key && e[i].key == t[i].key;
    }
    LookupFirst(e, i);
    CompletedKeeps(b, item, e, t[i].key);
    assert RenderValue(b, t[i].value, params) == Some(e[i].value);
    Detection.PlainEntryMeaning(b, Completed(b, item, e), wanted.key, wanted.value.text);
  }

  /** A selection of plain fields against the completed rendering of a template. */
  lemma SelectionMeaning(b: Builtins, item: Item, t: Dict, params: Params, e: Dict, sel: Dict, at: seq<nat>)
    requires IsRendering(b, t, params, e) && Asks(t, sel, at)
    ensures Detection.MatchesSelection(b, Completed(b, item, e), sel) <==>
            forall j :: 0 <= j < |sel| ==> Meets(b, t[at[j]].value, params, sel[j].value)
  {
    forall j | 0 <= j < |sel|
      ensures Detection.MatchesEntry(b, Completed(b, item, e), sel[j]) <==> Meets(b, t[at[j]].value, params, sel[j].value)
    {
      EntryMeaning(b, item, t, params, e, sel[j], at[j]);
    }
  }

  /** Whether an item with one event template and one selection of plain fields detects itself. */
  lemma RuleAgainstOwnEvent(b: Builtins, item: Item, params: Params, sel: Dict, at: seq<nat>)
    requires |item.events| == 1 && item.detection == Rule(sel) && Asks(item.events[0], sel, at)
    ensures var r, merged, t := SyntheticEvents(b, item, params), Merged(item, params), item.events[0];
            && (r.Some? <==> RendersAll(b, t, merged))
            && (r.Some? ==>
                |r.value| == 1
                && (Detection.Evaluate(b, item.detection, r.value[0]) <==>
                    forall j :: 0 <= j < |sel| ==> Meets(b, t[at[j]].value, merged, sel[j].value)))
  {
    var r, merged, t := SyntheticEvents(b, item, params), Merged(item, params), item.events[0];
    OneEvent(b, item, params);
    if r.Some? {
      var e :| IsRendering(b, t, merged, e) && r.value[0] == Completed(b, item, e);
      SelectionMeaning(b, item, t, merged, e, sel, at);
      SelectionRule(b, sel, r.value[0]);
    }
  }

  lemma TemplateKeys(g: Generator, attackId: string, variant: string, tactic: string, technique: string)
    ensures var t := Template(g, attackId, variant, tactic, technique);
            && |t| == 13 && |t[0].key| == 8 && |t[1].key| == 13 && |t[2].key| == 12 && |t[3].key| == 13
            && |t[4].key| == 19 && |t[5].key| == 21 && |t[6].key| == 15 && |t[7].key| == 22 && |t[8].key| == 24
  {
  }

  lemma PlainKeys()
    ensures Detection.PipeFree("event.dataset") && Detection.PipeFree("attack.technique.id")
    ensures Detection.PipeFree("apt_sim.variant") && Detection.PipeFree("apt_sim.telemetry_source")
  {
  }

  lemma LengthsApart(t: Dict, i: nat)
    requires |t| == 13 && |t[0].key| == 8 && |t[1].key| == 13 && |t[2].key| == 12 && |t[3].key| == 13
    requires |t[4].key| == 19 && |t[5].key| == 21 && |t[6].key| == 15 && |t[7].key| == 22 && |t[8].key| == 24
    requires i == 1 || i == 4 || i == 6 || i == 8
    ensures forall k :: 0 <= k < i ==> t[k].key != t[i].key
  {
    assert forall k :: 0 <= k < i ==> |t[k].key| != |t[i].key|;
  }

  lemma GeneratedAsks(g: Generator, attackId: string, variant: string, tactic: string, technique: string, telemetry: string)
    ensures Asks(Template(g, attackId, variant, tactic, technique), Selection(g, attackId, variant, telemetry), [1, 4, 6, 8])
  {
    var t, sel := Template(g, attackId, variant, tactic, technique), Selection(g, attackId, variant, telemetry);
    TemplateKeys(g, attackId, variant, tactic, technique);
    LengthsApart(t, 1);
    LengthsApart(t, 4);
    LengthsApart(t, 6);
    LengthsApart(t, 8);
    PlainKeys();
    assert AsksFor(t, sel[0], 1) && AsksFor(t, sel[1], 4) && AsksFor(t, sel[2], 6) && AsksFor(t, sel[3], 8);
  }

  lemma LettersArePlaceholder(name: string)
    requires name != "" && forall i :: 0 <= i < |name| ==> 'a' <= name[i] <= 'z' || name[i] == '_'
    ensures PlaceholderName(name)
  {
    assert !IsDigit(name[0]);
    LettersOnly(name);
  }

  lemma {:induction false} LettersOnly(name: string)
    requires forall i :: 0 <= i < |name| ==> 'a' <= name[i] <= 'z' || name[i] == '_'
    ensures NameLength(name) == |name|
  {
    if name != "" {
      assert name[0] !in "{}[.!:";
      LettersOnly(name[1..]);
    }
  }

  lemma TelemetryParameter(idx: nat, telemetry: string, format: string, fidelity: string)
    ensures var d := Defaults(Schema(idx, telemetry, format, fidelity));
            "telemetry_source" in d && d["telemetry_source"] == Str(telemetry)
  {
    var s := Schema(idx, telemetry, format, fidelity);
    assert s[..5] == s && s[..5][..4] == s[..4] && s[..4][..3] == s[..3] && s[..3][..2] == s[..2];
    assert |"telemetry_source"| == 16 && |"siem_format"| == 11 && |"fidelity"| == 8;
    assert Defaults(s[..3]) == Defaults(s[..2])["telemetry_source" := Str(telemetry)];
    assert Defaults(s[..4]) == Defaults(s[..3])["siem_format" := Str(format)];
    assert Defaults(s) == Defaults(s[..4])["fidelity" := Str(fidelity)];
  }

  lemma TelemetryRenders(b: Builtins, params: Params)
    requires "telemetry_source" in params
    ensures RenderText(b, Placeholder("telemetry_source"), params) == Some(Shown(b, params["telemetry_source"]))
  {
    LettersArePlaceholder("telemetry_source");
    PlaceholderRenders(b, "telemetry_source", params);
  }

  lemma FourConditions(b: Builtins, t: Dict, params: Params, sel: Dict)
    requires Asks(t, sel, [1, 4, 6, 8]) && |sel| == 4 && |t| >= 9
    ensures (forall j :: 0 <= j < |sel| ==> Meets(b, t[[1, 4, 6, 8][j]].value, params, sel[j].value)) <==>
            Meets(b, t[1].value, params, sel[0].value) && Meets(b, t[4].value, params, sel[1].value)
            && Meets(b, t[6].value, params, sel[2].value) && Meets(b, t[8].value, params, sel[3].value)
  {
    var at: seq<nat> := [1, 4, 6, 8];
    assert at[0] == 1 && at[1] == 4 && at[2] == 6 && at[3] == 8;
  }

  /** The condition under which an item with the generated fields detects itself. */
  ghost predicate DetectedExactlyWhen(b: Builtins, item: Item, params: Params, dataset: string, variant: string, telemetry: string) {
    var merged, r := Merged(item, params), SyntheticEvents(b, item, params);
    && |item.events| == 1 && "telemetry_source" in merged
    && (r.Some? <==> RendersAll(b, item.events[0], merged))
    && (r.Some? ==>
        |r.value| == 1
        && (Detection.Evaluate(b, item.detection, r.value[0]) <==>
            SameText(b, dataset, merged) && SameText(b, item.attackId, merged) && SameText(b, variant, merged)
            && b.lower(Shown(b, merged["telemetry_source"])) == b.lower(telemetry)))
  }

  lemma FourFields(b: Builtins, item: Item, params: Params, t: Dict, sel: Dict, dataset: string, variant: string, telemetry: string)
    requires item.events == [t] && item.detection == Rule(sel) && Asks(t, sel, [1, 4, 6, 8]) && |sel| == 4 && |t| >= 9
    requires t[1].value == sel[0].value == Str(dataset) && t[4].value == sel[1].value == Str(item.attackId)
    requires t[6].value == sel[2].value == Str(variant)
    requires t[8].value == Str(Placeholder("telemetry_source")) && sel[3].value == Str(telemetry)
    requires "telemetry_source" in Merged(item, params)
    ensures DetectedExactlyWhen(b, item, params, dataset, variant, telemetry)
  {
    RuleAgainstOwnEvent(b, item, params, sel, [1, 4, 6, 8]);
    TelemetryRenders(b, Merged(item, params));
    FourConditions(b, t, Merged(item, params), sel);
  }

  /** Exactly when the rule of a generated item matches the item's own event, for any pack
      declaration and any parameters: the three fixed texts must survive rendering up to case,
      and the telemetry source in force must equal the declared one up to case. */
  lemma DetectionCondition(b: Builtins, g: Generator, base: Base, idx: nat, telemetry: string, fidelity: string,
                           format: string, scope: string, params: Params)
    ensures var item := Made(b, g, base, idx, telemetry, fidelity, format, scope);
            DetectedExactlyWhen(b, item, params, g.dataset, Variant(g, idx), telemetry)
  {
    var item := Made(b, g, base, idx, telemetry, fidelity, format, scope);
    var technique := WithoutSuffix(base.name, " Marker");
    TelemetryParameter(idx, telemetry, format, fidelity);
    GeneratedAsks(g, item.attackId, Variant(g, idx), base.tactic, technique, telemetry);
    FourFields(b, item, params, Template(g, item.attackId, Variant(g, idx), base.tactic, technique),
               Selection(g, item.attackId, Variant(g, idx), telemetry), g.dataset, Variant(g, idx), telemetry);
  }

  predicate Renderable(b: Builtins, s: string, params: Params) {
    RenderText(b, s, params).Some?
  }

  /** The five parameters of a generated item. */
  predicate IsParameter(name: string) {
    name == "telemetry_source" || name == "siem_format" || name == "fidelity" || name == "principal" || name == "asset"
  }

  lemma ParametersAreLetters(name: string)
    requires IsParameter(name)
    ensures name != "" && forall i :: 0 <= i < |name| ==> 'a' <= name[i] <= 'z' || name[i] == '_'
  {
    if name == "telemetry_source" {
    } else if name == "siem_format" {
    } else if name == "fidelity" {
    } else if name == "principal" {
    } else {
    }
  }

  lemma PlaceholderRenderable(b: Builtins, name: string, params: Params)
    requires IsParameter(name)
    ensures Renderable(b, Placeholder(name), params)
  {
    ParametersAreLetters(name);
    LettersArePlaceholder(name);
    PlaceholderRenders(b, name, params);
  }

  /** The values of the template, without its keys. */
  function Texts(g: Generator, attackId: string, variant: string, tactic: string, technique: string): seq<string> {
    [ g.category, g.dataset, variant, tactic, attackId, technique, variant, g.pack, Placeholder("telemetry_source"),
      Placeholder("siem_format"), Placeholder("fidelity"), Placeholder("principal"), Placeholder("asset") ]
  }

  lemma TemplateTexts(g: Generator, attackId: string, variant: string, tactic: string, technique: string)
    ensures var t, texts := Template(g, attackId, variant, tactic, technique), Texts(g, attackId, variant, tactic, technique);
            |t| == |texts| && forall i :: 0 <= i < |t| ==> t[i].value == Str(texts[i])
  {
  }

  lemma TemplateRenders(b: Builtins, g: Generator, attackId: string, variant: string, tactic: string, technique: string, params: Params)
    requires Renderable(b, g.category, params) && Renderable(b, g.dataset, params) && Renderable(b, variant, params)
    requires Renderable(b, tactic, params) && Renderable(b, attackId, params) && Renderable(b, technique, params)
    requires Renderable(b, g.pack, params)
    ensures RendersAll(b, Template(g, attackId, variant, tactic, technique), params)
  {
    TemplateTexts(g, attackId, variant, tactic, technique);
    TextsRender(b, g, attackId, variant, tactic, technique, params);
    TextsSuffice(b, Template(g, attackId, variant, tactic, technique), Texts(g, attackId, variant, tactic, technique), params);
  }

  lemma TextsSuffice(b: Builtins, t: Dict, texts: seq<string>, params: Params)
    requires |t| == |texts| && forall i :: 0 <= i < |t| ==> t[i].value == Str(texts[i]) && Renderable(b, texts[i], params)
    ensures RendersAll(b, t, params)
  {
  }

  lemma TextsRender(b: Builtins, g: Generator, attackId: string, variant: string, tactic: string, technique: string, params: Params)
    requires Renderable(b, g.category, params) && Renderable(b, g.dataset, params) && Renderable(b, variant, params)
    requires Renderable(b, tactic, params) && Renderable(b, attackId, params) && Renderable(b, technique, params)
    requires Renderable(b, g.pack, params)
    ensures forall i :: 0 <= i < 13 ==> Renderable(b, Texts(g, attackId, variant, tactic, technique)[i], params)
  {
    PlaceholderRenderable(b, "telemetry_source", params);
    PlaceholderRenderable(b, "siem_format", params);
    PlaceholderRenderable(b, "fidelity", params);
    PlaceholderRenderable(b, "principal", params);
    PlaceholderRenderable(b, "asset", params);
    RenderableList(b, params, g.category, g.dataset, variant, tactic, attackId, technique, g.pack, Placeholder("telemetry_source"),
                   Placeholder("siem_format"), Placeholder("fidelity"), Placeholder("principal"), Placeholder("asset"));
  }

  lemma RenderableList(b: Builtins, params: Params, c: string, d: string, v: string, ta: string, a: string, te: string, p: string,
                       p0: string, p1: string, p2: string, p3: string, p4: string)
    requires Renderable(b, c, params) && Renderable(b, d, params) && Renderable(b, v, params) && Renderable(b, ta, params)
    requires Renderable(b, a, params) && Renderable(b, te, params) && Renderable(b, p, params) && Renderable(b, p0, params)
    requires Renderable(b, p1, params) && Renderable(b, p2, params) && Renderable(b, p3, params) && Renderable(b, p4, params)
    ensures var texts := [c, d, v, ta, a, te, v, p, p0, p1, p2, p3, p4];
            forall i :: 0 <= i < 13 ==> Renderable(b, texts[i], params)
  {
  }

  lemma BraceFreeIsSame(b: Builtins, s: string, params: Params)
    requires BraceFree(s)
    ensures SameText(b, s, params)
  {
    BraceFreeUnchanged(b, s, params);
  }

  lemma VariantBraceFree(g: Generator, idx: nat)
    requires BraceFree(g.slug)
    ensures BraceFree(Variant(g, idx))
  {
    assert forall i :: 0 <= i < |Padded(idx, 4)| ==> IsDigit(Padded(idx, 4)[i]);
  }

  /** Every item of a pack whose data set, slug and attack identifiers are free of braces detects
      its own event, under any parameters, exactly when the telemetry source in force is the
      declared one up to case; so it always does unless the caller overrides that parameter. */
  lemma SelfDetection(b: Builtins, g: Generator, bases: seq<Base>, k: nat, params: Params)
    requires bases != [] && MixedRadix.Positive(Radices(g))
    requires BraceFree(g.dataset) && BraceFree(g.slug) && BraceFree(Upper(b, bases[k % |bases|].attackId))
    requires var base, merged := bases[k % |bases|], Merged(ItemAt(b, g, bases, k), params);
             && Renderable(b, g.category, merged) && Renderable(b, g.pack, merged) && Renderable(b, base.tactic, merged)
             && Renderable(b, WithoutSuffix(base.name, " Marker"), merged)
    ensures var item, telemetry := ItemAt(b, g, bases, k), g.telemetry[Positions(g, k)[0]];
            var merged, r := Merged(item, params), SyntheticEvents(b, item, params);
            && r.Some? && |r.value| == 1 && "telemetry_source" in merged
            && (Detection.Evaluate(b, item.detection, r.value[0]) <==>
                b.lower(Shown(b, merged["telemetry_source"])) == b.lower(telemetry))
            && ("telemetry_source" !in params ==> Detection.Evaluate(b, item.detection, r.value[0]))
  {
    var item, ps, base := ItemAt(b, g, bases, k), Positions(g, k), bases[k % |bases|];
    var merged, variant := Merged(item, params), Variant(g, k + 1);
    var telemetry := g.telemetry[ps[0]];
    VariantBraceFree(g, k + 1);
    BraceFreeIsSame(b, g.dataset, merged);
    BraceFreeIsSame(b, item.attackId, merged);
    BraceFreeIsSame(b, variant, merged);
    TemplateRenders(b, g, item.attackId, variant, base.tactic, WithoutSuffix(base.name, " Marker"), merged);
    DetectionCondition(b, g, base, k + 1, telemetry, g.fidelities[ps[1]], g.formats[ps[2]], g.scopes[ps[3]], params);
    TelemetryParameter(k + 1, telemetry, g.formats[ps[2]], g.fidelities[ps[1]]);
  }

  lemma FidelityParameter(idx: nat, telemetry: string, format: string, fidelity: string)
    ensures var d := Defaults(Schema(idx, telemetry, format, fidelity));
            "fidelity" in d && d["fidelity"] == Str(fidelity)
  {
    var s := Schema(idx, telemetry, format, fidelity);
    assert LastDeclares(s, 4, "fidelity");
    DefaultsLast(s, 4, "fidelity");
  }

  lemma PlaceholderDatasetRenders(b: Builtins, dataset: string, fidelity: string, params: Params)
    requires dataset == Placeholder("fidelity") && "fidelity" in params && params["fidelity"] == Str(fidelity)
    ensures RenderText(b, dataset, params) == Some(fidelity)
    ensures SameText(b, dataset, params) <==> b.lower(fidelity) == b.lower(dataset)
  {
    ParametersAreLetters("fidelity");
    LettersArePlaceholder("fidelity");
    PlaceholderRenders(b, "fidelity", params);
  }

  /** A data set written as a placeholder is rendered in the event but not in the rule: an item of such
      a pack detects its own event exactly if its fidelity happens to read like the placeholder. */
  lemma PlaceholderDatasetDetection(b: Builtins, g: Generator, bases: seq<Base>, k: nat)
    requires bases != [] && MixedRadix.Positive(Radices(g))
    requires g.dataset == Placeholder("fidelity") && BraceFree(g.slug) && BraceFree(Upper(b, bases[k % |bases|].attackId))
    requires var base := bases[k % |bases|];
             BraceFree(g.category) && BraceFree(g.pack) && BraceFree(base.tactic) && BraceFree(WithoutSuffix(base.name, " Marker"))
    ensures var item, r := ItemAt(b, g, bases, k), SyntheticEvents(b, ItemAt(b, g, bases, k), map[]);
            && r.Some? && |r.value| == 1
            && (Detection.Evaluate(b, item.detection, r.value[0]) <==>
                b.lower(g.fidelities[Positions(g, k)[1]]) == b.lower(g.dataset))
  {
    var item, ps, base := ItemAt(b, g, bases, k), Positions(g, k), bases[k % |bases|];
    var merged, variant := Merged(item, map[]), Variant(g, k + 1);
    var telemetry, fidelity := g.telemetry[ps[0]], g.fidelities[ps[1]];
    assert merged == Defaults(item.schema);
    FidelityParameter(k + 1, telemetry, g.formats[ps[2]], fidelity);
    TelemetryParameter(k + 1, telemetry, g.formats[ps[2]], fidelity);
    PlaceholderDatasetRenders(b, g.dataset, fidelity, merged);
    VariantBraceFree(g, k + 1);
    BraceFreeIsSame(b, item.attackId, merged);
    BraceFreeIsSame(b, variant, merged);
    BraceFreeIsSame(b, g.category, merged);
    BraceFreeIsSame(b, g.pack, merged);
    BraceFreeIsSame(b, base.tactic, merged);
    BraceFreeIsSame(b, WithoutSuffix(base.name, " Marker"), merged);
    TemplateRenders(b, g, item.attackId, variant, base.tactic, WithoutSuffix(base.name, " Marker"), merged);
    DetectionCondition(b, g, base, k + 1, telemetry, fidelity, g.formats[ps[2]], g.scopes[ps[3]], map[]);
  }

  /** A pack whose only item has this defect. */
  function BracedPack(): Generator {
    Generator("pack", 1, "V", "v", Placeholder("fidelity"), "c", ["t"], ["high"], ["json"], ["host"])
  }

  function BracedBase(): Base {
    Base("T1", "n", "discovery")
  }

  lemma BracedPackShape()
    ensures MixedRadix.Positive(Radices(BracedPack())) && Positions(BracedPack(), 0)[1] == 0
    ensures BraceFree("v") && BraceFree("c") && BraceFree("pack") && BraceFree("discovery")
    ensures WithoutSuffix("n", " Marker") == "n" && BraceFree("n")
  {
    PositionsAre(BracedPack(), 0);
  }

  /** Its rule does not match its own event. */
  lemma BracesBreakSelfDetection(b: Builtins)
    requires b.lower("high") == "high" && b.lower(Placeholder("fidelity")) == Placeholder("fidelity")
    requires BraceFree(Upper(b, "T1"))
    ensures var item := ItemAt(b, BracedPack(), [BracedBase()], 0);
            var r := SyntheticEvents(b, item, map[]);
            r.Some? && |r.value| == 1 && !Detection.Evaluate(b, item.detection, r.value[0])
  {
    BracedPackShape();
    PlaceholderDatasetDetection(b, BracedPack(), [BracedBase()], 0);
    assert Placeholder("fidelity")[0] == '{' && "high"[0] == 'h';
  }
}
