/**
 * The maintenance script that gives every product without variants a set of
 * sizes drawn from its gender's preset, each with a random stock, creating
 * the size rows it needs on the way.
 *
 * The script's randomness is a parameter: per product, a `Draws` value holds
 * the permutation the random-comparator sort produces and the values
 * `Math.random` returns, each in `[0, 1)`.
 */
module GenerateVariants {
  import opened Common
  import opened Store

  /** The keys of the size presets. */
  datatype GenderKey = Homme | Femme | Enfant | Mixte

  /** The size presets, per normalised gender: each is a run of
      consecutive shoe sizes, written as two-digit strings. */
  function Preset(k: GenderKey): (r: seq<string>)
    ensures |r| == PresetLength(k) && 6 <= |r| <= 7
  {
    seq(PresetLength(k), i requires 0 <= i < PresetLength(k) => NatToString(PresetStart(k) + i))
  }

  function PresetStart(k: GenderKey): nat {
    match k
    case Homme => 40
    case Femme => 36
    case Enfant => 30
    case Mixte => 36
  }

  function PresetLength(k: GenderKey): nat {
    if k == Mixte then 7 else 6
  }

  /** The presets are the script's four literal arrays. */
  lemma PresetValues()
    ensures Preset(Homme) == ["40", "41", "42", "43", "44", "45"]
    ensures Preset(Femme) == ["36", "37", "38", "39", "40", "41"]
    ensures Preset(Enfant) == ["30", "31", "32", "33", "34", "35"]
    ensures Preset(Mixte) == ["36", "37", "38", "39", "40", "41", "42"]
  {
    PresetIs(Homme, ["40", "41", "42", "43", "44", "45"]);
    PresetIs(Femme, ["36", "37", "38", "39", "40", "41"]);
    PresetIs(Enfant, ["30", "31", "32", "33", "34", "35"]);
    PresetIs(Mixte, ["36", "37", "38", "39", "40", "41", "42"]);
  }

  lemma PresetIs(k: GenderKey, sizes: seq<string>)
    requires |sizes| == PresetLength(k)
    requires forall i :: 0 <= i < |sizes| ==>
      (&& |sizes[i]| == 2
       && sizes[i][0] as int - '0' as int == (PresetStart(k) + i) / 10
       && sizes[i][1] as int - '0' as int == (PresetStart(k) + i) % 10)
    ensures Preset(k) == sizes
  {
    forall i | 0 <= i < |sizes| ensures Preset(k)[i] == sizes[i] {
      var n := PresetStart(k) + i;
      DigitCharCode(n / 10);
      DigitCharCode(n % 10);
      assert NatToString(n) == [DigitChar(n / 10), DigitChar(n % 10)];
    }
  }

  /** Distinct two-digit numbers are written differently. */
  lemma TwoDigitsInjective(a: nat, b: nat)
    requires 10 <= a < 100 && 10 <= b < 100 && a != b
    ensures NatToString(a) != NatToString(b)
  {
    DigitCharCode(a / 10);
    DigitCharCode(b / 10);
    DigitCharCode(a % 10);
    DigitCharCode(b % 10);
    assert NatToString(a) == [DigitChar(a / 10), DigitChar(a % 10)];
    assert NatToString(b) == [DigitChar(b / 10), DigitChar(b % 10)];
    if a / 10 == b / 10 {
      assert NatToString(a)[1] != NatToString(b)[1];
    } else {
      assert NatToString(a)[0] != NatToString(b)[0];
    }
  }

  /** No preset lists a size twice. */
  lemma PresetDistinct(k: GenderKey)
    ensures Distinct(Preset(k))
  {
    var p := Preset(k);
    forall i, j | 0 <= i < j < |p| ensures p[i] != p[j] {
      TwoDigitsInjective(PresetStart(k) + i, PresetStart(k) + j);
    }
  }

  /** `normaliseGender`: the upper-cased name is tested for HOMME, then
      FEMME, then ENF; a missing name, like any other, gives MIXTE. */
  function NormaliseGender(name: Option<string>): (k: GenderKey)
    ensures name.None? ==> k == Mixte
    ensures name.Some? ==>
      var base := ToUpper(name.value);
      && (k == Homme <==> Includes(base, "HOMME"))
      && (k == Femme <==> !Includes(base, "HOMME") && Includes(base, "FEMME"))
      && (k == Enfant <==> !Includes(base, "HOMME") && !Includes(base, "FEMME") && Includes(base, "ENF"))
  {
    var base := if name.Some? then ToUpper(name.value) else "";
    if Includes(base, "HOMME") then Homme
    else if Includes(base, "FEMME") then Femme
    else if Includes(base, "ENF") then Enfant
    else Mixte
  }

  /** The test ignores case: a name and its lower-cased form normalise to the
      same preset. */
  lemma NormaliseIgnoresCase(name: string)
    ensures NormaliseGender(Some(ToLower(name))) == NormaliseGender(Some(name))
  {
    assert ToUpper(ToLower(name)) == ToUpper(name) by {
      forall i | 0 <= i < |name| ensures UpperChar(LowerChar(name[i])) == UpperChar(name[i]) {
      }
    }
  }

  /** The catalogue's name of each gender. */
  function GenderLabel(k: GenderKey): string {
    match k
    case Homme => "Homme"
    case Femme => "Femme"
    case Enfant => "Enfant"
    case Mixte => "Mixte"
  }

  /** Each gender of the catalogue, named as the catalogue names it, selects
      its own preset. */
  lemma NormaliseGenderLabel(k: GenderKey)
    ensures NormaliseGender(Some(GenderLabel(k))) == k
  {
    match k
    case Homme =>
      UpperOf("Homme", "HOMME");
      assert StartsWith("HOMME", "HOMME");
    case Femme =>
      UpperOf("Femme", "FEMME");
      assert StartsWith("FEMME", "FEMME");
      NotIncludes("FEMME", "HOMME");
    case Enfant =>
      UpperOf("Enfant", "ENFANT");
      assert StartsWith("ENFANT", "ENF");
      NotIncludes("ENFANT", "HOMME");
      NotIncludes("ENFANT", "FEMME");
    case Mixte =>
      UpperOf("Mixte", "MIXTE");
      NotIncludes("MIXTE", "HOMME");
      NotIncludes("MIXTE", "FEMME");
      NotIncludes("MIXTE", "ENF");
  }

  lemma UpperOf(s: string, u: string)
    requires |s| == |u| && forall i :: 0 <= i < |s| ==> UpperChar(s[i]) == u[i]
    ensures ToUpper(s) == u
  {
  }

  /** A string shorter than `sub`, or whose every window differs from
      `sub` at its first character, does not include it. */
  lemma {:induction false} NotIncludes(s: string, sub: string)
    requires |sub| >= 1
    requires forall k :: 0 <= k < |s| ==> s[k] != sub[0] || k + |sub| > |s|
    ensures !Includes(s, sub)
    decreases |s|
  {
    if |s| > 0 {
      assert !StartsWith(s, sub) by {
        if |sub| <= |s| {
          assert s[..|sub|][0] == s[0];
        }
      }
      NotIncludes(s[1..], sub);
    }
  }

  /** `Math.floor(roll * n)` for a roll in `[0, 1)`: an integer in `[0, n)`. */
  function FloorScale(roll: Roll, n: nat): (r: int)
    requires n >= 1
    ensures 0 <= r < n
  {
    ScaleBelow(roll, n);
    (roll * n as real).Floor
  }

  lemma ScaleBelow(roll: Roll, n: nat)
    requires n >= 1
    ensures 0.0 <= roll * n as real < n as real
  {
    assert n as real - roll * n as real == (1.0 - roll) * n as real;
  }

  /** The order the random-comparator sort leaves an array in: whatever it
      is, `Array.prototype.sort` returns a permutation of the array. */
  type Shuffle = f: seq<string> -> seq<string> | Permutes(f) witness s => s

  ghost predicate Permutes(f: seq<string> -> seq<string>) {
    forall s {:trigger f(s)} :: multiset(f(s)) == multiset(s)
  }

  /** A value of `Math.random()`. */
  type Roll = r: real | 0.0 <= r < 1.0

  /** What the random sources yield for one product: the shuffle, the roll
      that picks the number of sizes, and the rolls of the successive
      stocks. */
  datatype Draws = Draws(shuffle: Shuffle, countRoll: Roll, stockRolls: nat -> Roll)

  /** `pickSizes`: the first `count` sizes of the shuffled preset, `count`
      drawn between 3 and `min(preset length, 10)`. */
  function PickSizes(genderName: Option<string>, shuffle: Shuffle, roll: Roll): (r: seq<string>)
    ensures 3 <= |r| <= Min(|Preset(NormaliseGender(genderName))|, 10)
    ensures r <= shuffle(Preset(NormaliseGender(genderName)))
  {
    PresetDistinct(NormaliseGender(genderName));
    PickFrom(Preset(NormaliseGender(genderName)), shuffle, roll)
  }

  /** The picked sizes are distinct sizes of the preset. */
  lemma PickedFromPreset(genderName: Option<string>, shuffle: Shuffle, roll: Roll)
    ensures var r := PickSizes(genderName, shuffle, roll);
      Distinct(r) && forall i :: 0 <= i < |r| ==> r[i] in Preset(NormaliseGender(genderName))
  {
    PresetDistinct(NormaliseGender(genderName));
    var r := PickFrom(Preset(NormaliseGender(genderName)), shuffle, roll);
  }

  /** The first `count` elements of the shuffled `base`, `count` drawn
      between 3 and `min(|base|, 10)`. */
  function PickFrom(base: seq<string>, shuffle: Shuffle, roll: Roll): (r: seq<string>)
    requires Distinct(base) && |base| >= 3
    ensures 3 <= |r| <= Min(|base|, 10)
    ensures r <= shuffle(base)
    ensures Distinct(r) && forall i :: 0 <= i < |r| ==> r[i] in base
  {
    var shuffled := shuffle(base);
    var count := FloorScale(roll, Min(|base|, 10) - 3 + 1) + 3;
    PermutationKeeps(base, shuffled);
    PrefixDistinct(shuffled, count);
    shuffled[..count]
  }

  /** A permutation of a duplicate-free sequence has its length, its
      elements and no duplicate. */
  lemma PermutationKeeps<T>(a: seq<T>, b: seq<T>)
    requires Distinct(a) && multiset(a) == multiset(b)
    ensures |b| == |a| && Distinct(b) && forall i :: 0 <= i < |b| ==> b[i] in a
  {
    assert |multiset(a)| == |multiset(b)|;
    forall i | 0 <= i < |b| ensures b[i] in a {
      assert b[i] in multiset(b);
    }
    forall i, j | 0 <= i < j < |b| ensures b[i] != b[j] {
      if b[i] == b[j] {
        RepeatCount(b, i, j);
        AtMostOnce(a, b[i]);
        assert false;
      }
    }
  }

  lemma {:induction false} AtMostOnce<T>(a: seq<T>, x: T)
    requires Distinct(a)
    ensures multiset(a)[x] <= 1
    decreases |a|
  {
    if |a| > 0 {
      assert a == [a[0]] + a[1..];
      assert Distinct(a[1..]) by {
        forall i, j | 0 <= i < j < |a[1..]| ensures a[1..][i] != a[1..][j] {
          assert a[1..][i] == a[i + 1] && a[1..][j] == a[j + 1];
        }
      }
      AtMostOnce(a[1..], x);
      if x == a[0] {
        assert x !in a[1..] by {
          forall k | 0 <= k < |a[1..]| ensures a[1..][k] != x {
            assert a[1..][k] == a[k + 1];
          }
        }
      }
    }
  }

  lemma RepeatCount<T>(b: seq<T>, i: nat, j: nat)
    requires i < j < |b| && b[i] == b[j]
    ensures multiset(b)[b[i]] >= 2
  {
    assert b == b[..j] + [b[j]] + b[j + 1..];
    assert b[..j][i] == b[i];
    assert multiset(b[..j])[b[i]] >= 1;
  }

  lemma PrefixDistinct<T>(xs: seq<T>, n: nat)
    requires Distinct(xs) && n <= |xs|
    ensures Distinct(xs[..n])
  {
  }

  /** `distributeStock`: one stock per size, each `Math.floor(random * 51)`. */
  method DistributeStock(sizeCount: nat, rolls: seq<Roll>) returns (stocks: seq<int>)
    requires |rolls| == sizeCount
    ensures |stocks| == sizeCount
    ensures forall i :: 0 <= i < sizeCount ==> stocks[i] == FloorScale(rolls[i], 51) && 0 <= stocks[i] <= 50
  {
    stocks := [];
    var i := 0;
    while i < sizeCount
      invariant 0 <= i <= sizeCount && |stocks| == i
      invariant forall k :: 0 <= k < i ==> stocks[k] == FloorScale(rolls[k], 51)
    {
      stocks := stocks + [FloorScale(rolls[i], 51)];
      i := i + 1;
    }
  }

  /** The size table after `createOrFindSize(name)`: the row with the
      upper-cased value is reused, or created labelled "<name> EU" under the
      id the database generates for it. */
  function WithSize(sizes: SizeTable, name: string, newSizeId: string -> Id): (r: SizeTable)
    ensures r.labels.Keys == sizes.labels.Keys + {ToUpper(name)}
    ensures forall v :: v in sizes.labels ==> r.labels[v] == sizes.labels[v]
    ensures ToUpper(name) in sizes.labels ==> r == sizes
    ensures ToUpper(name) !in sizes.labels ==>
      r.labels[ToUpper(name)] == name + " EU" && r.ids == sizes.ids[newSizeId(ToUpper(name)) := ToUpper(name)]
  {
    var value := ToUpper(name);
    if value in sizes.labels then sizes
    else SizeTable(sizes.labels[value := name + " EU"], sizes.ids[newSizeId(value) := value])
  }

  /** Labels that differ only in case share one size row. */
  lemma WithSizeIgnoresCase(sizes: SizeTable, name: string, newSizeId: string -> Id)
    ensures WithSize(sizes, ToLower(name), newSizeId).labels.Keys == WithSize(sizes, name, newSizeId).labels.Keys
    ensures ToUpper(name) in sizes.labels ==> WithSize(sizes, ToLower(name), newSizeId) == WithSize(sizes, name, newSizeId)
  {
    assert ToUpper(ToLower(name)) == ToUpper(name) by {
      forall i | 0 <= i < |name| ensures UpperChar(LowerChar(name[i])) == UpperChar(name[i]) {
      }
    }
  }

  /** `createOrFindSize`: the size row for `name`, found by its upper-cased
      value or created; the variant records that unique value, which
      identifies the row as its id does. */
  method CreateOrFindSize(db: Db, name: string, newSizeId: string -> Id) returns (sizeId: string)
    modifies db`sizes
    ensures sizeId == ToUpper(name) && sizeId in db.sizes.labels
    ensures db.sizes == WithSize(old(db.sizes), name, newSizeId)
  {
    var value := ToUpper(name);
    if value in db.sizes.labels {
      return value;
    }
    db.sizes := SizeTable(db.sizes.labels[value := name + " EU"], db.sizes.ids[newSizeId(value) := value]);
    return value;
  }

  /** The size table after creating or finding every name in turn. */
  function WithSizes(sizes: SizeTable, labels: seq<string>, newSizeId: string -> Id): (r: SizeTable)
    ensures forall v :: v in sizes.labels ==> v in r.labels && r.labels[v] == sizes.labels[v]
    ensures forall i :: 0 <= i < |labels| ==> ToUpper(labels[i]) in r.labels
    decreases |labels|
  {
    if |labels| == 0 then sizes
    else
      var init := labels[..|labels| - 1];
      var r := WithSize(WithSizes(sizes, init, newSizeId), labels[|labels| - 1], newSizeId);
      assert forall i :: 0 <= i < |labels| - 1 ==> labels[i] == init[i];
      r
  }

  lemma {:induction false} WithSizesAppend(sizes: SizeTable, a: seq<string>, b: seq<string>, newSizeId: string -> Id)
    ensures WithSizes(sizes, a + b, newSizeId) == WithSizes(WithSizes(sizes, a, newSizeId), b, newSizeId)
    decreases |b|
  {
    if |b| > 0 {
      assert (a + b)[..|a + b| - 1] == a + b[..|b| - 1];
      WithSizesAppend(sizes, a, b[..|b| - 1], newSizeId);
    } else {
      assert a + b == a;
    }
  }

  /** The variants one product receives: the picked sizes, each with the id
      of its size row and a drawn stock. */
  function NewVariants(genderName: Option<string>, d: Draws): (vs: seq<Variant>)
    ensures 3 <= |vs| <= |Preset(NormaliseGender(genderName))|
  {
    var sizes := PickSizes(genderName, d.shuffle, d.countRoll);
    seq(|sizes|, i requires 0 <= i < |sizes| => Variant(sizes[i], Some(ToUpper(sizes[i])), FloorScale(d.stockRolls(i), 51)))
  }

  /** A product's new variants have distinct sizes of its gender's preset,
      each pointing to the size row of its upper-cased value, and stocks in
      `0..50`. */
  lemma NewVariantsShape(genderName: Option<string>, d: Draws)
    ensures var vs := NewVariants(genderName, d);
      && (forall i :: 0 <= i < |vs| ==>
            && vs[i].sizeValue in Preset(NormaliseGender(genderName))
            && vs[i].sizeKey == Some(ToUpper(vs[i].sizeValue))
            && 0 <= vs[i].stock <= 50)
      && (forall i, j :: 0 <= i < j < |vs| ==> vs[i].sizeValue != vs[j].sizeValue)
  {
    var vs := NewVariants(genderName, d);
    var sizes := PickSizes(genderName, d.shuffle, d.countRoll);
    var preset := Preset(NormaliseGender(genderName));
    PickedFromPreset(genderName, d.shuffle, d.countRoll);
    assert |vs| == |sizes|;
    forall i | 0 <= i < |vs|
      ensures vs[i].sizeValue in preset
      ensures vs[i].sizeKey == Some(ToUpper(vs[i].sizeValue)) && 0 <= vs[i].stock <= 50
    {
      var stock := FloorScale(d.stockRolls(i), 51);
      assert vs[i] == Variant(sizes[i], Some(ToUpper(sizes[i])), stock);
      assert sizes[i] in preset;
    }
    forall i, j | 0 <= i < j < |vs| ensures vs[i].sizeValue != vs[j].sizeValue {
      assert vs[i].sizeValue == sizes[i] && vs[j].sizeValue == sizes[j];
      assert sizes[i] != sizes[j];
    }
  }

  /** The labels `NewVariants` creates or finds size rows for. */
  function NewSizes(genderName: Option<string>, d: Draws): (r: seq<string>)
    ensures |r| == |NewVariants(genderName, d)|
    ensures forall i :: 0 <= i < |r| ==> r[i] == NewVariants(genderName, d)[i].sizeValue
  {
    PickSizes(genderName, d.shuffle, d.countRoll)
  }

  /** `product.gender?.name ?? null`. */
  function GenderName(genders: map<Id, string>, p: Product): (r: Option<string>)
    ensures r.Some? <==> p.genderId.Some? && p.genderId.value in genders
    ensures r.Some? ==> r.value == genders[p.genderId.value]
  {
    if p.genderId.Some? && p.genderId.value in genders then Some(genders[p.genderId.value]) else None
  }

  /** A product after the script: unchanged when it already had variants,
      otherwise given its new variants and nothing else. */
  function Regenerated(p: Product, genders: map<Id, string>, d: Draws): Product {
    if |p.variants| > 0 then p else p.(variants := NewVariants(GenderName(genders, p), d))
  }

  /** The labels of the sizes the script looks up for the given products, in
      order. */
  function LabelsFor(ps: seq<Product>, genders: map<Id, string>, draws: seq<Draws>): seq<string>
    requires |draws| == |ps|
  {
    if |ps| == 0 then []
    else
      var n := |ps| - 1;
      LabelsFor(ps[..n], genders, draws[..n])
        + (if |ps[n].variants| > 0 then [] else NewSizes(GenderName(genders, ps[n]), draws[n]))
  }

  /** `createdVariants`: the number of variants created for the given
      products. */
  function CreatedCount(ps: seq<Product>, genders: map<Id, string>, draws: seq<Draws>): nat
    requires |draws| == |ps|
  {
    if |ps| == 0 then 0
    else
      var n := |ps| - 1;
      CreatedCount(ps[..n], genders, draws[..n])
        + (if |ps[n].variants| > 0 then 0 else |NewVariants(GenderName(genders, ps[n]), draws[n])|)
  }

  /** The number of the given products that have no variant. */
  function Bare(ps: seq<Product>): nat {
    if |ps| == 0 then 0
    else Bare(ps[..|ps| - 1]) + (if |ps[|ps| - 1].variants| > 0 then 0 else 1)
  }

  /** Every product without variants gets between 3 and 7 of them, so the
      counter is within those multiples of the number of such products; in
      particular the `length > 0` guard before `createMany` always holds. */
  lemma {:induction false} CreatedBounds(ps: seq<Product>, genders: map<Id, string>, draws: seq<Draws>)
    requires |draws| == |ps|
    ensures 3 * Bare(ps) <= CreatedCount(ps, genders, draws) <= 7 * Bare(ps)
  {
    if |ps| > 0 {
      var n := |ps| - 1;
      CreatedBounds(ps[..n], genders, draws[..n]);
      if |ps[n].variants| == 0 {
        var vs := NewVariants(GenderName(genders, ps[n]), draws[n]);
        assert 3 <= |vs| <= 7;
      }
    }
  }

  /** The products the script visits, in the order `findMany` returned them. */
  function Visited(products: map<Id, Product>, ids: seq<Id>): (ps: seq<Product>)
    requires forall k :: 0 <= k < |ids| ==> ids[k] in products
    ensures |ps| == |ids| && forall k :: 0 <= k < |ids| ==> ps[k] == products[ids[k]]
  {
    seq(|ids|, k requires 0 <= k < |ids| => products[ids[k]])
  }

  /** The variant payloads of one product, creating or finding the size row
      of each picked size in turn. */
  method CreatePayloads(db: Db, sizes: seq<string>, stocks: seq<int>, newSizeId: string -> Id) returns (payloads: seq<Variant>)
    requires |stocks| == |sizes|
    modifies db`sizes
    ensures |payloads| == |sizes|
    ensures forall i :: 0 <= i < |sizes| ==> payloads[i] == Variant(sizes[i], Some(ToUpper(sizes[i])), stocks[i])
    ensures db.sizes == WithSizes(old(db.sizes), sizes, newSizeId)
  {
    payloads := [];
    var i := 0;
    while i < |sizes|
      invariant 0 <= i <= |sizes| && |payloads| == i
      invariant forall k :: 0 <= k < i ==> payloads[k] == Variant(sizes[k], Some(ToUpper(sizes[k])), stocks[k])
      invariant db.sizes == WithSizes(old(db.sizes), sizes[..i], newSizeId)
    {
      var sizeId := CreateOrFindSize(db, sizes[i], newSizeId);
      assert sizes[..i + 1][..i] == sizes[..i];
      payloads := payloads + [Variant(sizes[i], Some(sizeId), stocks[i])];
      i := i + 1;
    }
    assert sizes[..i] == sizes;
  }

  /** The payloads built from the picked sizes and the drawn stocks are the
      product's new variants. */
  lemma PayloadsAreNew(genderName: Option<string>, d: Draws, stocks: seq<int>, payloads: seq<Variant>)
    requires var sizes := PickSizes(genderName, d.shuffle, d.countRoll);
      && |stocks| == |sizes| && |payloads| == |sizes|
      && (forall i :: 0 <= i < |sizes| ==> stocks[i] == FloorScale(d.stockRolls(i), 51))
      && (forall i :: 0 <= i < |sizes| ==> payloads[i] == Variant(sizes[i], Some(ToUpper(sizes[i])), stocks[i]))
    ensures payloads == NewVariants(genderName, d)
  {
  }

  /** One turn of the script: a product without variants gets its payloads
      inserted; the number inserted is returned. */
  method GenerateFor(db: Db, id: Id, d: Draws, newSizeId: string -> Id) returns (inserted: nat)
    requires id in db.products
    modifies db`products, db`sizes
    ensures |old(db.products)[id].variants| > 0 ==>
      db.products == old(db.products) && inserted == 0 && db.sizes == old(db.sizes)
    ensures |old(db.products)[id].variants| == 0 ==>
      var p := old(db.products)[id];
      var vs := NewVariants(GenderName(db.genders, p), d);
      && db.products == old(db.products)[id := p.(variants := vs)]
      && inserted == |vs|
      && db.sizes == WithSizes(old(db.sizes), NewSizes(GenderName(db.genders, p), d), newSizeId)
  {
    var product := db.products[id];
    if |product.variants| > 0 {
      return 0;
    }
    var genderName := GenderName(db.genders, product);
    var sizes := PickSizes(genderName, d.shuffle, d.countRoll);
    var stocks := DistributeStock(|sizes|, seq(|sizes|, i requires 0 <= i < |sizes| => d.stockRolls(i)));
    var payloads := CreatePayloads(db, sizes, stocks, newSizeId);
    PayloadsAreNew(genderName, d, stocks, payloads);
    inserted := 0;
    if |payloads| > 0 {
      db.products := db.products[id := product.(variants := payloads)];
      inserted := |payloads|;
    }
    assert product == old(db.products)[id];
    assert genderName == GenderName(db.genders, old(db.products)[id]);
    assert sizes == NewSizes(genderName, d);
    assert payloads == NewVariants(genderName, d);
  }

  /** `generateVariants`: visits the products in the order `ids` lists
      them; each one without variants gets its generated variants, the size
      rows they point to are created or found, and the counter adds up the
      variants inserted. `draws[k]` is what the random sources yield while
      the k-th product is processed, and `newSizeId` gives the id generated
      for each size row created. */
  method Generate(db: Db, ids: seq<Id>, draws: seq<Draws>, newSizeId: string -> Id) returns (createdVariants: nat)
    requires Distinct(ids) && forall k :: 0 <= k < |ids| ==> ids[k] in db.products
    requires |draws| == |ids|
    modifies db`products, db`sizes
    ensures db.products.Keys == old(db.products).Keys
    ensures forall k :: 0 <= k < |ids| ==>
      db.products[ids[k]] == Regenerated(old(db.products)[ids[k]], db.genders, draws[k])
    ensures forall id :: id in db.products && id !in ids ==> db.products[id] == old(db.products)[id]
    ensures db.sizes == WithSizes(old(db.sizes), LabelsFor(Visited(old(db.products), ids), db.genders, draws), newSizeId)
    ensures createdVariants == CreatedCount(Visited(old(db.products), ids), db.genders, draws)
  {
    createdVariants := 0;
    var i := 0;
    GeneratedStart(db.products, db.sizes, db.genders, ids, draws, newSizeId);
    while i < |ids|
      invariant i <= |ids|
      invariant Generated(old(db.products), db.products, old(db.sizes), db.sizes, createdVariants, db.genders, ids, draws, i, newSizeId)
    {
      createdVariants := GenerateTurn(db, ids, draws, i, old(db.products), old(db.sizes), createdVariants, newSizeId);
      i := i + 1;
    }
    GeneratedDone(old(db.products), db.products, old(db.sizes), db.sizes, createdVariants, db.genders, ids, draws, newSizeId);
  }

  /** Turn `i` of `Generate`: regenerates `ids[i]` and adds its variants to
      the counter. */
  method GenerateTurn(db: Db, ids: seq<Id>, draws: seq<Draws>, i: nat,
                      ghost before: map<Id, Product>, ghost sizes0: SizeTable, created: nat, newSizeId: string -> Id)
    returns (created': nat)
    requires Distinct(ids) && i < |ids|
    requires Generated(before, db.products, sizes0, db.sizes, created, db.genders, ids, draws, i, newSizeId)
    modifies db`products, db`sizes
    ensures Generated(before, db.products, sizes0, db.sizes, created', db.genders, ids, draws, i + 1, newSizeId)
  {
    ghost var now, sizes := db.products, db.sizes;
    var inserted := GenerateFor(db, ids[i], draws[i], newSizeId);
    GeneratedStep(before, now, db.products, sizes0, sizes, db.sizes, created, inserted, db.genders, ids, draws, i, newSizeId);
    created' := created + inserted;
  }

  /** Before the first turn nothing is regenerated yet. */
  lemma GeneratedStart(products: map<Id, Product>, sizes: SizeTable, genders: map<Id, string>,
                       ids: seq<Id>, draws: seq<Draws>, newSizeId: string -> Id)
    requires (forall k :: 0 <= k < |ids| ==> ids[k] in products) && |draws| == |ids|
    ensures Generated(products, products, sizes, sizes, 0, genders, ids, draws, 0, newSizeId)
  {
    assert Visited(products, ids)[..0] == [] && draws[..0] == [];
  }

  /** The loop invariant of `Generate`: the first `i` products are
      regenerated, every other product is as it was, and the size table and
      the counter account for the first `i` products. */
  ghost predicate Generated(before: map<Id, Product>, now: map<Id, Product>,
                            sizes0: SizeTable, sizes: SizeTable, created: nat,
                            genders: map<Id, string>, ids: seq<Id>, draws: seq<Draws>, i: nat, newSizeId: string -> Id)
  {
    && i <= |ids| == |draws|
    && (forall k :: 0 <= k < |ids| ==> ids[k] in before)
    && now.Keys == before.Keys
    && RegeneratedUpTo(before, now, genders, ids, draws, i)
    && UntouchedFrom(before, now, ids, i)
    && sizes == WithSizes(sizes0, LabelsFor(Visited(before, ids)[..i], genders, draws[..i]), newSizeId)
    && created == CreatedCount(Visited(before, ids)[..i], genders, draws[..i])
  }

  ghost predicate RegeneratedUpTo(before: map<Id, Product>, now: map<Id, Product>, genders: map<Id, string>,
                                  ids: seq<Id>, draws: seq<Draws>, i: nat)
  {
    && i <= |ids| == |draws|
    && forall k :: 0 <= k < i ==>
         ids[k] in before && ids[k] in now && now[ids[k]] == Regenerated(before[ids[k]], genders, draws[k])
  }

  ghost predicate UntouchedFrom(before: map<Id, Product>, now: map<Id, Product>, ids: seq<Id>, i: nat)
    requires i <= |ids|
  {
    forall id :: id in now && id !in ids[..i] ==> id in before && now[id] == before[id]
  }

  /** One turn of `Generate` keeps its invariant. */
  lemma GeneratedStep(before: map<Id, Product>, now: map<Id, Product>, now': map<Id, Product>,
                      sizes0: SizeTable, sizes: SizeTable, sizes': SizeTable,
                      created: nat, inserted: nat, genders: map<Id, string>, ids: seq<Id>, draws: seq<Draws>, i: nat, newSizeId: string -> Id)
    requires Generated(before, now, sizes0, sizes, created, genders, ids, draws, i, newSizeId)
    requires Distinct(ids) && i < |ids|
    requires ids[i] in now
    requires |now[ids[i]].variants| > 0 ==> now' == now && inserted == 0 && sizes' == sizes
    requires |now[ids[i]].variants| == 0 ==>
      var p := now[ids[i]];
      var vs := NewVariants(GenderName(genders, p), draws[i]);
      && now' == now[ids[i] := p.(variants := vs)]
      && inserted == |vs|
      && sizes' == WithSizes(sizes, NewSizes(GenderName(genders, p), draws[i]), newSizeId)
    ensures Generated(before, now', sizes0, sizes', created + inserted, genders, ids, draws, i + 1, newSizeId)
  {
    var ps := Visited(before, ids);
    assert ids[i] !in ids[..i];
    assert now[ids[i]] == before[ids[i]] == ps[i];
    var p' := Regenerated(ps[i], genders, draws[i]);
    assert now' == now[ids[i] := p'];
    StepRegenerated(before, now, now', genders, ids, draws, i);
    StepUntouched(before, now, now', p', ids, i);
    StepAccounts(sizes0, sizes, sizes', created, inserted, ps, genders, draws, i, newSizeId);
  }

  /** The product of turn `i` is regenerated and the earlier ones stay so. */
  lemma StepRegenerated(before: map<Id, Product>, now: map<Id, Product>, now': map<Id, Product>,
                        genders: map<Id, string>, ids: seq<Id>, draws: seq<Draws>, i: nat)
    requires RegeneratedUpTo(before, now, genders, ids, draws, i)
    requires Distinct(ids) && i < |ids| && ids[i] in before && ids[i] in now
    requires now' == now[ids[i] := Regenerated(before[ids[i]], genders, draws[i])]
    ensures RegeneratedUpTo(before, now', genders, ids, draws, i + 1)
  {
    forall k | 0 <= k < i + 1 ensures now'[ids[k]] == Regenerated(before[ids[k]], genders, draws[k]) {
      if k < i {
        assert ids[k] != ids[i];
      }
    }
  }

  /** Only the product of turn `i` changes. */
  lemma StepUntouched(before: map<Id, Product>, now: map<Id, Product>, now': map<Id, Product>, p': Product,
                      ids: seq<Id>, i: nat)
    requires i < |ids| && UntouchedFrom(before, now, ids, i)
    requires ids[i] in now && now' == now[ids[i] := p']
    ensures UntouchedFrom(before, now', ids, i + 1)
  {
    PrefixSnoc(ids, i);
  }

  /** The size table and the counter of turn `i` extend those of the
      earlier turns. */
  lemma StepAccounts(sizes0: SizeTable, sizes: SizeTable, sizes': SizeTable,
                     created: nat, inserted: nat, ps: seq<Product>, genders: map<Id, string>, draws: seq<Draws>, i: nat, newSizeId: string -> Id)
    requires i < |ps| == |draws|
    requires sizes == WithSizes(sizes0, LabelsFor(ps[..i], genders, draws[..i]), newSizeId)
    requires created == CreatedCount(ps[..i], genders, draws[..i])
    requires |ps[i].variants| > 0 ==> inserted == 0 && sizes' == sizes
    requires |ps[i].variants| == 0 ==>
      && inserted == |NewVariants(GenderName(genders, ps[i]), draws[i])|
      && sizes' == WithSizes(sizes, NewSizes(GenderName(genders, ps[i]), draws[i]), newSizeId)
    ensures sizes' == WithSizes(sizes0, LabelsFor(ps[..i + 1], genders, draws[..i + 1]), newSizeId)
    ensures created + inserted == CreatedCount(ps[..i + 1], genders, draws[..i + 1])
  {
    PrefixStep(ps, genders, draws, i);
    var more := if |ps[i].variants| > 0 then [] else NewSizes(GenderName(genders, ps[i]), draws[i]);
    WithSizesAppend(sizes0, LabelsFor(ps[..i], genders, draws[..i]), more, newSizeId);
    if |ps[i].variants| > 0 {
      assert WithSizes(sizes, [], newSizeId) == sizes;
    }
  }

  lemma PrefixSnoc<T>(xs: seq<T>, i: nat)
    requires i < |xs|
    ensures xs[..i + 1] == xs[..i] + [xs[i]]
  {
  }

  /** The labels and the count of the first `i + 1` products extend those
      of the first `i`. */
  lemma PrefixStep(ps: seq<Product>, genders: map<Id, string>, draws: seq<Draws>, i: nat)
    requires i < |ps| == |draws|
    ensures LabelsFor(ps[..i + 1], genders, draws[..i + 1])
      == LabelsFor(ps[..i], genders, draws[..i])
         + (if |ps[i].variants| > 0 then [] else NewSizes(GenderName(genders, ps[i]), draws[i]))
    ensures CreatedCount(ps[..i + 1], genders, draws[..i + 1])
      == CreatedCount(ps[..i], genders, draws[..i])
         + (if |ps[i].variants| > 0 then 0 else |NewVariants(GenderName(genders, ps[i]), draws[i])|)
  {
    assert ps[..i + 1][..i] == ps[..i] && draws[..i + 1][..i] == draws[..i];
  }

  /** After the last turn the invariant is `Generate`'s postcondition. */
  lemma GeneratedDone(before: map<Id, Product>, now: map<Id, Product>,
                      sizes0: SizeTable, sizes: SizeTable, created: nat,
                      genders: map<Id, string>, ids: seq<Id>, draws: seq<Draws>, newSizeId: string -> Id)
    requires Generated(before, now, sizes0, sizes, created, genders, ids, draws, |ids|, newSizeId)
    ensures now.Keys == before.Keys
    ensures forall k :: 0 <= k < |ids| ==> now[ids[k]] == Regenerated(before[ids[k]], genders, draws[k])
    ensures forall id :: id in now && id !in ids ==> now[id] == before[id]
    ensures sizes == WithSizes(sizes0, LabelsFor(Visited(before, ids), genders, draws), newSizeId)
    ensures created == CreatedCount(Visited(before, ids), genders, draws)
  {
    assert Visited(before, ids)[..|ids|] == Visited(before, ids);
    assert draws[..|ids|] == draws && ids[..|ids|] == ids;
  }
}
