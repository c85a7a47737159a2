/** Scenario generation: the numbering of scenario variants and the construction of step
    graphs from random choices. */
module ScenarioBuilder {
  import opened Prelude
  import opened Graphs
  import opened Scenarios
  import opened Text
  import MixedRadix
  import Combinations
  import RunModel
  import PlannerModel
  import RunProperties
  import Completion
  import Schedules

  // ---- The variant space ----

  const DEFAULT_POOL := ["windows", "linux", "darwin"]

  /** Every non-empty combination of the pool, or of the default pool when none is given. */
  function PlatformSets(platforms: seq<string>): seq<seq<string>> {
    Combinations.NonEmptyCombos(if platforms == [] then DEFAULT_POOL else platforms)
  }

  datatype Dimensions = Dimensions(
    actors: seq<string>,
    difficulties: seq<string>,
    platformSets: seq<seq<string>>,
    maxSteps: int,
    seedValues: int)

  datatype Coordinates = Coordinates(platform: nat, seed: int, steps: int, difficulty: nat, actor: nat)

  datatype Variant = NegativeIndex | OutsideSpace(total: int) | At(c: Coordinates)

  function Radices(d: Dimensions): seq<int> {
    [|d.platformSets|, d.seedValues, d.maxSteps, |d.difficulties|, |d.actors|]
  }

  function Total(d: Dimensions): int {
    |d.actors| * |d.difficulties| * |d.platformSets| * d.maxSteps * d.seedValues
  }

  /** Steps are counted from 1. */
  function AsDigits(c: Coordinates): seq<int> {
    [c.platform, c.seed, c.steps - 1, c.difficulty, c.actor]
  }

  /** Each coordinate is a remainder modulo its dimension: for positive dimensions 0 <= seed < seedValues and
      1 <= steps <= maxSteps. */
  predicate InSpace(d: Dimensions, c: Coordinates) {
    && c.platform < |d.platformSets| && MixedRadix.Within(c.seed, d.seedValues) && MixedRadix.Within(c.steps - 1, d.maxSteps)
    && c.difficulty < |d.difficulties| && c.actor < |d.actors|
  }

  /** The index of a variant. */
  function Index(d: Dimensions, c: Coordinates): (x: int)
    requires Total(d) > 0
    ensures 0 <= x < Total(d)
  {
    TotalIsProduct(d);
    MixedRadix.IndexOf(Radices(d), AsDigits(c))
  }

  lemma TotalIsProduct(d: Dimensions)
    ensures Total(d) == MixedRadix.Product(Radices(d))
    ensures Total(d) != 0 ==> MixedRadix.NonZero(Radices(d))
  {
    var p, s, t, f, a := |d.platformSets|, d.seedValues, d.maxSteps, |d.difficulties|, |d.actors|;
    Product5(p, s, t, f, a);
    Reorder(p, s, t, f, a);
    if Total(d) != 0 {
      NoZeroFactor(p, s, t, f, a);
    }
  }

  lemma Product5(p: int, s: int, t: int, f: int, a: int)
    ensures MixedRadix.Product([p, s, t, f, a]) == p * (s * (t * (f * a)))
  {
    assert [p, s, t, f, a][1..] == [s, t, f, a] && [s, t, f, a][1..] == [t, f, a];
    assert [t, f, a][1..] == [f, a] && [f, a][1..] == [a] && [a][1..] == [];
    assert MixedRadix.Product([]) == 1;
    assert MixedRadix.Product([a]) == a;
    assert MixedRadix.Product([f, a]) == f * a;
    assert MixedRadix.Product([t, f, a]) == t * (f * a);
    assert MixedRadix.Product([s, t, f, a]) == s * (t * (f * a));
  }

  lemma Swap(x: int, y: int, z: int)
    ensures x * y * z == y * (z * x)
  {
  }

  lemma Reorder(p: int, s: int, t: int, f: int, a: int)
    ensures a * f * p * t * s == p * (s * (t * (f * a)))
  {
    var x := f * a;
    Swap(x, p, t);
    Swap(p, t * x, s);
  }

  lemma NoZeroFactor(p: int, s: int, t: int, f: int, a: int)
    requires p * (s * (t * (f * a))) != 0
    ensures p != 0 && s != 0 && t != 0 && f != 0 && a != 0
  {
  }

  /** Decodes an index by dividing out one dimension after the other, rounding down. */
  method DecodeVariant(d: Dimensions, start: int) returns (v: Variant)
    ensures v.NegativeIndex? <==> start < 0
    ensures v.OutsideSpace? <==> start >= 0 && start >= Total(d)
    ensures v.At? ==> InSpace(d, v.c) && Index(d, v.c) == start
  {
    if start < 0 {
      return NegativeIndex;
    }
    var total := |d.actors| * |d.difficulties| * |d.platformSets| * d.maxSteps * d.seedValues;
    if start >= total {
      return OutsideSpace(total);
    }
    TotalIsProduct(d);
    Dimensioned(d);
    var index := start;
    var platform := index % |d.platformSets|;
    index := index / |d.platformSets|;
    var seed := MixedRadix.FloorMod(index, d.seedValues);
    index := MixedRadix.FloorDiv(index, d.seedValues);
    var steps := MixedRadix.FloorMod(index, d.maxSteps) + 1;
    index := MixedRadix.FloorDiv(index, d.maxSteps);
    var difficulty := index % |d.difficulties|;
    index := index / |d.difficulties|;
    var actor := index % |d.actors|;
    var c := Coordinates(platform, seed, steps, difficulty, actor);
    DigitsOfFive(|d.platformSets|, d.seedValues, d.maxSteps, |d.difficulties|, |d.actors|, start);
    assert AsDigits(c) == MixedRadix.Digits(Radices(d), start);
    MixedRadix.DigitsInRange(Radices(d), start);
    InRangeIsInSpace(d, c);
    MixedRadix.IndexOfDigits(Radices(d), start);
    return At(c);
  }

  lemma Dimensioned(d: Dimensions)
    requires Total(d) > 0
    ensures |d.platformSets| > 0 && d.seedValues != 0 && d.maxSteps != 0 && |d.difficulties| > 0 && |d.actors| > 0
  {
    TotalIsProduct(d);
    var rs := Radices(d);
    assert rs[0] != 0 && rs[1] != 0 && rs[2] != 0 && rs[3] != 0 && rs[4] != 0;
  }

  lemma DigitsOfFive(p: int, s: int, t: int, f: int, a: int, x: int)
    requires p > 0 && s != 0 && t != 0 && f > 0 && a > 0
    ensures var y := MixedRadix.FloorDiv(x / p, s);
            var z := MixedRadix.FloorDiv(y, t);
            MixedRadix.Digits([p, s, t, f, a], x) ==
            [x % p, MixedRadix.FloorMod(x / p, s), MixedRadix.FloorMod(y, t), z % f, z / f % a]
  {
    var y := MixedRadix.FloorDiv(x / p, s);
    var z := MixedRadix.FloorDiv(y, t);
    DigitsStep(a, [], z / f);
    DigitsStep(f, [a], z);
    DigitsStep(t, [f, a], y);
    DigitsStep(s, [t, f, a], x / p);
    DigitsStep(p, [s, t, f, a], x);
    assert [a] + [] == [a] && [f] + [a] == [f, a] && [t] + [f, a] == [t, f, a];
    assert [s] + [t, f, a] == [s, t, f, a] && [p] + [s, t, f, a] == [p, s, t, f, a];
  }

  lemma DigitsStep(r: int, rs: seq<int>, x: int)
    requires r != 0 && MixedRadix.NonZero(rs)
    ensures MixedRadix.Digits([r] + rs, x) == [MixedRadix.FloorMod(x, r)] + MixedRadix.Digits(rs, MixedRadix.FloorDiv(x, r))
  {
    assert ([r] + rs)[1..] == rs;
  }

  lemma InRangeIsInSpace(d: Dimensions, c: Coordinates)
    requires |d.platformSets| > 0 && |d.difficulties| > 0 && |d.actors| > 0
    ensures InSpace(d, c) <==> MixedRadix.InRange(Radices(d), AsDigits(c))
  {
    var rs, ds := Radices(d), AsDigits(c);
    if MixedRadix.InRange(rs, ds) {
      assert MixedRadix.Within(ds[0], rs[0]) && MixedRadix.Within(ds[1], rs[1]) && MixedRadix.Within(ds[2], rs[2]);
      assert MixedRadix.Within(ds[3], rs[3]) && MixedRadix.Within(ds[4], rs[4]);
    }
  }

  /** The index numbers the whole space: different variants have different indices in [0, total). */
  lemma IndexIsBijective(d: Dimensions, c: Coordinates, c': Coordinates)
    requires Total(d) > 0 && InSpace(d, c) && InSpace(d, c')
    ensures 0 <= Index(d, c) < Total(d)
    ensures Index(d, c) == Index(d, c') <==> c == c'
  {
    var rs := Radices(d);
    TotalIsProduct(d);
    InRangeIsInSpace(d, c);
    InRangeIsInSpace(d, c');
    MixedRadix.DigitsOfIndex(rs, AsDigits(c));
    MixedRadix.DigitsOfIndex(rs, AsDigits(c'));
    if Index(d, c) == Index(d, c') {
      assert AsDigits(c)[0] == AsDigits(c')[0] && AsDigits(c)[1] == AsDigits(c')[1] && AsDigits(c)[2] == AsDigits(c')[2];
      assert AsDigits(c)[3] == AsDigits(c')[3] && AsDigits(c)[4] == AsDigits(c')[4];
    }
  }

  // ---- Batches ----

  datatype Batch = Rejected | Accepted(variants: seq<Coordinates>)

  /** The variant is one of those at offset, offset + stride, ... */
  ghost predicate Wanted(d: Dimensions, c: Coordinates, offset: int, stride: int, count: int) {
    Total(d) > 0 && InSpace(d, c) && exists i :: 0 <= i < count && Index(d, c) == Place(offset, stride, i)
  }

  function Place(offset: int, stride: int, i: int): int {
    offset + i * stride
  }

  /** Builds the variants at offset, offset + stride, ...; an index outside the space, or a variant
      for which no technique is eligible, rejects the batch. */
  method BuildBatch(d: Dimensions, count: int, offset: int, stride: int, maxCount: int, eligible: Coordinates -> bool)
    returns (b: Batch)
    ensures b.Accepted? <==>
              && 1 <= count <= maxCount && stride >= 1 && offset >= 0 && Place(offset, stride, count - 1) < Total(d)
              && forall c :: Wanted(d, c, offset, stride, count) ==> eligible(c)
    ensures b.Accepted? ==>
              && |b.variants| == count
              && Total(d) > 0
              && (forall i :: 0 <= i < count ==> InSpace(d, b.variants[i]) && Index(d, b.variants[i]) == Place(offset, stride, i))
              && NoDuplicates(b.variants)
  {
    if count < 1 || count > maxCount || stride < 1 {
      return Rejected;
    }
    var variants := [];
    for i := 0 to count
      invariant |variants| == i
      invariant i > 0 ==> Total(d) > 0
      invariant forall j :: 0 <= j < i ==> InSpace(d, variants[j]) && Index(d, variants[j]) == Place(offset, stride, j)
      invariant forall j :: 0 <= j < i ==> eligible(variants[j])
      invariant i > 0 ==> offset >= 0 && Place(offset, stride, i - 1) < Total(d)
    {
      var v := DecodeVariant(d, offset + i * stride);
      if !v.At? {
        BatchBound(offset, stride, i, count);
        return Rejected;
      }
      if !eligible(v.c) {
        assert Index(d, v.c) == Place(offset, stride, i);
        assert Wanted(d, v.c, offset, stride, count);
        return Rejected;
      }
      variants := variants + [v.c];
    }
    BatchComplete(d, variants, offset, stride, count, eligible);
    return Accepted(variants);
  }

  /** The collected variants are all the wanted ones, without repetition. */
  lemma BatchComplete(d: Dimensions, variants: seq<Coordinates>, offset: int, stride: int, count: int,
                      eligible: Coordinates -> bool)
    requires stride >= 1 && |variants| == count && Total(d) > 0
    requires forall j :: 0 <= j < count ==> InSpace(d, variants[j]) && Index(d, variants[j]) == Place(offset, stride, j)
    requires forall j :: 0 <= j < count ==> eligible(variants[j])
    ensures forall c :: Wanted(d, c, offset, stride, count) ==> eligible(c)
    ensures NoDuplicates(variants)
  {
    forall c | Wanted(d, c, offset, stride, count)
      ensures eligible(c)
    {
      var i :| 0 <= i < count && Index(d, c) == Place(offset, stride, i);
      IndexIsBijective(d, c, variants[i]);
    }
    forall i, j | 0 <= i < j < count
      ensures variants[i] != variants[j]
    {
      StrideApart(stride, i, j);
    }
  }

  lemma BatchBound(offset: int, stride: int, i: int, count: int)
    requires 0 <= i < count && stride >= 1
    ensures offset <= offset + i * stride <= offset + (count - 1) * stride
  {
    MixedRadix.MulMono(stride, i, count - 1);
    MixedRadix.MulMono(stride, 0, i);
  }

  lemma StrideApart(stride: int, i: int, j: int)
    requires stride >= 1 && i < j
    ensures i * stride < j * stride
  {
    MixedRadix.MulMono(stride, i + 1, j);
  }

  // ---- Names ----

  function Slug(platforms: seq<string>): string {
    Join(platforms, '-')
  }

  function NameOf(actor: string, difficulty: string, steps: int, seed: int, slug: string): string {
    actor + ['_'] + (difficulty + ['_'] + (Signed(steps) + ['_'] + (("seed" + Signed(seed)) + ['_'] + slug)))
  }

  function VariantName(d: Dimensions, c: Coordinates): string
    requires InSpace(d, c)
  {
    NameOf(d.actors[c.actor], d.difficulties[c.difficulty], c.steps, c.seed, Slug(d.platformSets[c.platform]))
  }

  /** No entry repeats, and no entry contains the character that separates name parts. */
  ghost predicate Nameable(d: Dimensions) {
    && NoDuplicates(d.actors) && NoDuplicates(d.difficulties) && NoDuplicates(d.platformSets)
    && (forall i :: 0 <= i < |d.actors| ==> '_' !in d.actors[i])
    && (forall i :: 0 <= i < |d.difficulties| ==> '_' !in d.difficulties[i])
    && (forall i :: 0 <= i < |d.platformSets| ==> PlainSet(d.platformSets[i]))
  }

  predicate PlainSet(platforms: seq<string>) {
    platforms != [] && forall j :: 0 <= j < |platforms| ==> '-' !in platforms[j]
  }

  lemma SignedPlain(n: int)
    ensures '_' !in Signed(n)
  {
    forall i | 0 <= i < |Signed(n)| ensures Signed(n)[i] != '_' {
      if n < 0 && i > 0 { assert Signed(n)[i] == Decimal(-n)[i - 1]; }
    }
  }

  lemma NamePartsRecovered(a: string, f: string, t: int, s: int, g: string, a': string, f': string, t': int, s': int, g': string)
    requires '_' !in a && '_' !in a' && '_' !in f && '_' !in f'
    requires NameOf(a, f, t, s, g) == NameOf(a', f', t', s', g')
    ensures a == a' && f == f' && t == t' && s == s' && g == g'
  {
    var r3, r3' := ("seed" + Signed(s)) + ['_'] + g, ("seed" + Signed(s')) + ['_'] + g';
    var r2, r2' := Signed(t) + ['_'] + r3, Signed(t') + ['_'] + r3';
    var r1, r1' := f + ['_'] + r2, f' + ['_'] + r2';
    SignedPlain(t);
    SignedPlain(t');
    SignedPlain(s);
    SignedPlain(s');
    SplitAtFirst('_', a, r1, a', r1');
    SplitAtFirst('_', f, r2, f', r2');
    SplitAtFirst('_', Signed(t), r3, Signed(t'), r3');
    SignedInjective(t, t');
    SplitAtFirst('_', "seed" + Signed(s), g, "seed" + Signed(s'), g');
    assert ("seed" + Signed(s))[4..] == Signed(s) && ("seed" + Signed(s'))[4..] == Signed(s');
    SignedInjective(s, s');
  }

  /** Different variants have different names. */
  lemma NamesDistinct(d: Dimensions, c: Coordinates, c': Coordinates)
    requires Nameable(d) && InSpace(d, c) && InSpace(d, c') && VariantName(d, c) == VariantName(d, c')
    ensures c == c'
  {
    NamePartsRecovered(d.actors[c.actor], d.difficulties[c.difficulty], c.steps, c.seed, Slug(d.platformSets[c.platform]),
                       d.actors[c'.actor], d.difficulties[c'.difficulty], c'.steps, c'.seed, Slug(d.platformSets[c'.platform]));
    JoinInjective(d.platformSets[c.platform], d.platformSets[c'.platform], '-');
  }

  /** With separators inside entries two variants can share a name. */
  lemma NamesCanCollide()
    ensures var d := Dimensions(["a", "a_b"], ["c", "b_c"], [["x"]], 1, 1);
            var c, c' := Coordinates(0, 0, 1, 1, 0), Coordinates(0, 0, 1, 0, 1);
            InSpace(d, c) && InSpace(d, c') && c != c' && VariantName(d, c) == VariantName(d, c')
  {
    var tail := Signed(1) + ['_'] + (("seed" + Signed(0)) + ['_'] + Slug([['x']]));
    assert "a" + ['_'] + ("b_c" + ['_'] + tail) == "a_b_c_" + tail;
    assert "a_b" + ['_'] + ("c" + ['_'] + tail) == "a_b_c_" + tail;
  }

  const DEFAULT_ACTORS := ["apt29", "fin7", "lazarus", "apt41", "ransomware", "insider", "cloud-intrusion"]
  const DEFAULT_DIFFICULTIES := ["beginner", "realistic", "stealthy", "noisy"]

  function DefaultDimensions(): Dimensions {
    Dimensions(DEFAULT_ACTORS, DEFAULT_DIFFICULTIES, PlatformSets([]), 80, 1_000_001)
  }

  /** The default space is nameable and has 15.68 billion variants (7 * 4 * 80 * 1000001 * 7). */
  lemma DefaultSpace()
    ensures Nameable(DefaultDimensions()) && Total(DefaultDimensions()) == 15_680_015_680
  {
    DefaultPlatformSets();
    PlainNames();
  }

  lemma DefaultPlatformSets()
    ensures var sets := PlatformSets([]);
            NoDuplicates(sets) && |sets| == 7 && forall i :: 0 <= i < |sets| ==> PlainSet(sets[i])
  {
    var pool, sets := DEFAULT_POOL, PlatformSets([]);
    assert NoDuplicates(pool) by {
      assert pool[0] == "windows" && pool[1] == "linux" && pool[2] == "darwin";
    }
    Combinations.EverySubsetOnce(pool);
    assert Combinations.Power2(3) == 8;
    forall i | 0 <= i < |sets| ensures PlainSet(sets[i]) {
      assert sets[i] in sets;
      SubsetOfPool(sets[i]);
    }
  }

  lemma SubsetOfPool(c: seq<string>)
    requires c != [] && Elements(c) <= Elements(DEFAULT_POOL)
    ensures PlainSet(c)
  {
    PlainNames();
    forall j | 0 <= j < |c| ensures '-' !in c[j] {
      assert c[j] in Elements(c);
      assert c[j] in DEFAULT_POOL;
    }
  }

  lemma PlainNames()
    ensures forall i :: 0 <= i < |DEFAULT_ACTORS| ==> '_' !in DEFAULT_ACTORS[i]
    ensures forall i :: 0 <= i < |DEFAULT_DIFFICULTIES| ==> '_' !in DEFAULT_DIFFICULTIES[i]
    ensures forall i :: 0 <= i < |DEFAULT_POOL| ==> '-' !in DEFAULT_POOL[i]
    ensures NoDuplicates(DEFAULT_ACTORS) && NoDuplicates(DEFAULT_DIFFICULTIES)
  {
    assert |"apt29"| == 5 && |"fin7"| == 4 && |"lazarus"| == 7 && |"apt41"| == 5 && |"ransomware"| == 10;
    assert |"insider"| == 7 && |"cloud-intrusion"| == 15 && "apt29"[3] == '2' && "apt41"[3] == '4';
    assert "lazarus"[0] == 'l' && "insider"[0] == 'i';
    assert |"beginner"| == 8 && |"realistic"| == 9 && |"stealthy"| == 8 && |"noisy"| == 5;
    assert "beginner"[0] == 'b' && "stealthy"[0] == 's';
  }

  // ---- Building a scenario from random choices ----

  datatype Technique = Technique(attackId: string)

  /** Lower case, with dots and colons turned into underscores. */
  function Label(attackId: string): string {
    seq(|attackId|, i requires 0 <= i < |attackId| =>
      var c := attackId[i];
      if 'A' <= c <= 'Z' then c - 'A' + 'a' else if c == '.' || c == ':' then '_' else c)
  }

  /** "s001_t1033": the position, from 1 and zero-padded to three digits, then the technique. */
  function StepName(position: nat, attackId: string): StepId {
    "s" + Padded(position + 1, 3) + ['_'] + Label(attackId)
  }

  lemma StepNamesDistinct(i: nat, a: string, j: nat, b: string)
    requires StepName(i, a) == StepName(j, b)
    ensures i == j
  {
    var p, q := "s" + Padded(i + 1, 3), "s" + Padded(j + 1, 3);
    SplitAtFirst('_', p, Label(a), q, Label(b));
    assert p[1..] == Padded(i + 1, 3) && q[1..] == Padded(j + 1, 3);
    PaddedInjective(i + 1, j + 1, 3);
  }

  function DifficultySteps(difficulty: string): nat {
    if difficulty == "beginner" then 6
    else if difficulty == "realistic" then 12
    else if difficulty == "stealthy" then 18
    else if difficulty == "noisy" then 25
    else 12
  }

  function BranchFactor(difficulty: string): nat {
    if difficulty == "beginner" || difficulty == "stealthy" then 1 else 2
  }

  function Min(a: int, b: int): int {
    if a < b then a else b
  }

  /** How many steps are drawn from a pool of this size. */
  function Desired(difficulty: string, steps: int, poolSize: nat): int {
    var wanted := Min(if steps != 0 then steps else DifficultySteps(difficulty), poolSize);
    if wanted < 1 then 1 else wanted
  }

  /** Distinct positions below `bound`, in any order: a random sample. */
  predicate Sample(s: seq<nat>, bound: nat, count: nat) {
    |s| == count && NoDuplicates(s) && forall i :: 0 <= i < |s| ==> s[i] < bound
  }

  function Positions(n: nat): (s: seq<nat>)
    ensures Sample(s, n, n)
  {
    seq(n, i => i)
  }

  predicate Increasing(s: seq<nat>) {
    forall i, j :: 0 <= i < j < |s| ==> s[i] < s[j]
  }

  /** Every dependency names an earlier step. */
  ghost predicate Backward(steps: seq<ScenarioStep>) {
    forall i, d :: 0 <= i < |steps| && d in steps[i].dependsOn ==> d in StepIds(steps[..i])
  }

  ghost predicate Numbered(steps: seq<ScenarioStep>) {
    forall i :: 0 <= i < |steps| ==> steps[i].id == StepName(i, steps[i].ttp)
  }

  /** The steps run the techniques at the given positions of the pool, in pool order. */
  ghost predicate Runs(steps: seq<ScenarioStep>, pool: seq<Technique>, at: seq<nat>) {
    && |at| == |steps| && Increasing(at)
    && forall i :: 0 <= i < |at| ==> at[i] < |pool| && steps[i].ttp == pool[at[i]].attackId
  }

  /** `pool` holds the eligible techniques in their sorting order, so a sorted sample is a choice of
      increasing positions. All random choices are nondeterministic, so the contract covers every
      run of the generator. `at` are the positions drawn. */
  method BuildScenario(name: string, difficulty: string, steps: int, platforms: seq<string>, pool: seq<Technique>)
    returns (r: Option<Scenario>, ghost at: seq<nat>)
    ensures r.None? <==> pool == []
    ensures r.Some? ==> Runs(r.value.steps, pool, at)
    ensures r.Some? ==>
              && |r.value.steps| == Desired(difficulty, steps, |pool|)
              && Numbered(r.value.steps) && Backward(r.value.steps)
              && (forall i :: 0 <= i < |r.value.steps| ==>
                    |r.value.steps[i].dependsOn| <= BranchFactor(difficulty) && !r.value.steps[i].abortOnFail
                    && (i > 0 ==> r.value.steps[i].dependsOn != []))
              && r.value.targetPlatforms == if platforms == [] then DEFAULT_POOL else platforms
  {
    if pool == [] {
      return None, [];
    }
    var positions := DrawSorted(|pool|, Desired(difficulty, steps, |pool|));
    var selected := seq(|positions|, i requires 0 <= i < |positions| => pool[positions[i]]);
    at := positions;
    var built: seq<ScenarioStep> := [];
    for idx := 0 to |selected|
      invariant |built| == idx && Numbered(built) && Backward(built) && Runs(built, pool, positions[..idx])
      invariant forall i :: 0 <= i < idx ==>
                  |built[i].dependsOn| <= BranchFactor(difficulty) && !built[i].abortOnFail
                  && (i > 0 ==> built[i].dependsOn != [])
    {
      var dependsOn := DrawParents(built, difficulty);
      var attackId := selected[idx].attackId;
      var step := ScenarioStep(StepName(idx, attackId), attackId, dependsOn, 60, false);
      BackwardStep(built, step);
      built := built + [step];
    }
    assert positions[..|positions|] == positions;
    return Some(Scenario(name, if platforms == [] then DEFAULT_POOL else platforms, built)), at;
  }

  /** The parents of the next step: one of the first few, later up to the branch factor. */
  method DrawParents(built: seq<ScenarioStep>, difficulty: string) returns (dependsOn: seq<StepId>)
    ensures |dependsOn| <= BranchFactor(difficulty) && (built != [] ==> dependsOn != [])
    ensures forall d :: d in dependsOn ==> d in StepIds(built)
  {
    var idx := |built|;
    if idx == 0 {
      return [];
    }
    var parentCount: nat := 1;
    if idx >= 3 {
      var most := Min(BranchFactor(difficulty), idx);
      assert 1 <= 1 <= most;
      parentCount :| 1 <= parentCount <= most;
    }
    var parents := DrawSample(idx, parentCount);
    var ids := StepIds(built);
    dependsOn := seq(|parents|, i requires 0 <= i < |parents| && parents[i] < |ids| => ids[parents[i]]);
    forall d | d in dependsOn
      ensures d in ids
    {
      var i :| 0 <= i < |dependsOn| && dependsOn[i] == d;
      assert ids[parents[i]] == d;
    }
  }

  /** Any sample the random generator may return, sorted. */
  method DrawSorted(bound: nat, count: nat) returns (s: seq<nat>)
    requires count <= bound
    ensures Sample(s, bound, count) && Increasing(s)
  {
    assert Sample(Positions(count), bound, count) && Increasing(Positions(count));
    s :| Sample(s, bound, count) && Increasing(s);
  }

  /** Any sample the random generator may return. */
  method DrawSample(bound: nat, count: nat) returns (s: seq<nat>)
    requires count <= bound
    ensures Sample(s, bound, count)
  {
    assert Sample(Positions(count), bound, count);
    s :| Sample(s, bound, count);
  }

  lemma BackwardStep(built: seq<ScenarioStep>, step: ScenarioStep)
    requires Backward(built) && forall d :: d in step.dependsOn ==> d in StepIds(built)
    ensures Backward(built + [step])
  {
    var all := built + [step];
    forall i, d | 0 <= i < |all| && d in all[i].dependsOn
      ensures d in StepIds(all[..i])
    {
      assert all[..i] == if i < |built| then built[..i] else built;
    }
  }

  /** Distinct ids and backward dependencies are all that the acyclicity check asks for. */
  lemma BackwardIsValid(steps: seq<ScenarioStep>)
    requires Numbered(steps) && Backward(steps)
    ensures ValidDag(steps)
  {
    var ids := StepIds(steps);
    forall i, j | 0 <= i < j < |ids|
      ensures ids[i] != ids[j]
    {
      if ids[i] == ids[j] { StepNamesDistinct(i, steps[i].ttp, j, steps[j].ttp); }
    }
    var g := DependencyGraph(steps);
    forall i | 0 <= i < |ids|
      ensures ComesAfter(g, ids, i)
      ensures forall d :: d in steps[i].dependsOn ==> d in ids
    {
      assert g[steps[i].id] == Elements(steps[i].dependsOn);
      forall d | d in steps[i].dependsOn
        ensures d in ids[..i] && d in ids
      {
        assert d in StepIds(steps[..i]);
        var k :| 0 <= k < i && StepIds(steps[..i])[k] == d;
        assert ids[k] == d && ids[..i][k] == d;
      }
    }
    OrderedIsAcyclic(g, ids);
  }

  /** Every generated scenario passes validation. Under every schedule of any number of agents its run
      conserves hand-outs and moves, never gets stuck, and is done exactly after one hand-out and one
      successful result per step; one agent working alone gets there. */
  lemma GeneratedScenarioCompletes(scenario: Scenario, id: RunModel.RunId, platform: string, agent: string, now: Time,
                                   h: seq<PlannerModel.PlannerEvent>, more: seq<PlannerModel.PlannerEvent>)
    requires Numbered(scenario.steps) && Backward(scenario.steps) && scenario.steps != [] && now > 0.0
    requires "any" in scenario.targetPlatforms || PlannerModel.Lower(platform) in scenario.targetPlatforms
    ensures ValidDag(scenario.steps)
    ensures var h1 := h + [PlannerModel.StartRun(id, scenario, now)];
            var all, n := h1 + more, |scenario.steps|;
            PlannerModel.PlausibleHistory(all) && PlannerModel.Answered(h1, more, id) && Schedules.Undisturbed(h1, more, id) ==>
              && id in PlannerModel.After(all).runs
              && (var p, r := PlannerModel.After(all), PlannerModel.After(all).runs[id];
                  && (Completion.AllSucceeded(r) <==> PlannerModel.MoveCount(all, id) == 2 * n)
                  && (Completion.AllSucceeded(r) ==> Schedules.RunHandouts(all, id) == n)
                  && (PlannerModel.Serves(r, PlannerModel.Lower(platform)) && RunProperties.InStatus(r, RunModel.Dispatched) == {}
                      ==> PlannerModel.Task(p, platform).Some?))
    ensures var start := PlannerModel.Apply(PlannerModel.EmptyPlanner, PlannerModel.StartRun(id, scenario, now));
            var (q, n) := Completion.Drive(start, platform, agent, now);
            n == |scenario.steps| && id in q.runs && Completion.AllSucceeded(q.runs[id])
  {
    BackwardIsValid(scenario.steps);
    Completion.DriveFreshScenario(id, scenario, platform, agent, now);
    var h1 := h + [PlannerModel.StartRun(id, scenario, now)];
    if PlannerModel.PlausibleHistory(h1 + more) && PlannerModel.Answered(h1, more, id) && Schedules.Undisturbed(h1, more, id) {
      Schedules.EveryScheduleCompletes(h, id, scenario, now, more, platform);
    }
  }
}
