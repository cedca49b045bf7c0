/** The trait-to-stat deriver and the levelling curve (lib/traits.ts).

    A character's NFT attributes and its spent upgrade points are folded
    into six clamped stats, a rarity string and a power rating; cosmetic
    visuals are picked from the same attributes; the level follows a
    triangular XP curve in which level L lasts 250 * L points. */
module Traits {
  import opened Text
  import opened Types

  const BaseStats := Stats(55.0, 60.0, 60.0, 60.0, 55.0, 55.0)

  const AuraColors: seq<string> := ["#24f0ff", "#7affb8", "#ff9a3d", "#7aa6ff", "#ff7bd8", "#b56bff"]

  const StadiumEffects: seq<string> := ["Neon Wave", "Crimson Burst", "Aurora Pulse", "Solar Flare", "Quantum Mist"]

  /** The upgrades assumed when a caller supplies none. */
  const NoUpgrades := UpgradeState(0, 0, 0, 0, "Neon Wave")

  // ---------------------------------------------------------------------
  // Numbers

  /** `Math.min(Math.max(value, lo), hi)`. */
  function Clamp(value: real, lo: real, hi: real): (r: real)
    ensures lo <= hi ==> lo <= r <= hi
    ensures lo <= value <= hi ==> r == value
  {
    var raised := if value > lo then value else lo;
    if raised < hi then raised else hi
  }

  /** `Math.round`: halves round up. */
  function Round(x: real): (r: int)
    ensures x - 0.5 < r as real <= x + 0.5
  {
    (x + 0.5).Floor
  }

  const TwoTo31: int := 0x8000_0000
  const TwoTo32: int := 0x1_0000_0000

  /** ECMAScript ToInt32: the 32-bit two's-complement value congruent to `x`. */
  function ToInt32(x: int): (r: int)
    ensures -TwoTo31 <= r < TwoTo31
    ensures (x - r) % TwoTo32 == 0
  {
    var m := x % TwoTo32;
    if m >= TwoTo31 then m - TwoTo32 else m
  }

  /** ToInt32 depends only on its argument modulo 2^32. */
  lemma ToInt32Congruent(x: int, y: int)
    requires (x - y) % TwoTo32 == 0
    ensures ToInt32(x) == ToInt32(y)
  {
    var k := (x - y) / TwoTo32;
    assert x == y + k * TwoTo32;
    ModShift(y, k);
  }

  lemma ModShift(y: int, k: int)
    ensures (y + k * TwoTo32) % TwoTo32 == y % TwoTo32
  {
    var q := y / TwoTo32;
    var m := y % TwoTo32;
    assert y == q * TwoTo32 + m;
    assert y + k * TwoTo32 == (q + k) * TwoTo32 + m;
  }

  // ---------------------------------------------------------------------
  // hashString

  /** The signed 32-bit accumulator after hashing `s`: h <- ToInt32(31 h + code). */
  function HashState(s: string): (h: int)
    ensures -TwoTo31 <= h < TwoTo31
  {
    if s == [] then 0 else ToInt32(31 * HashState(s[..|s| - 1]) + s[|s| - 1] as int)
  }

  /** `hashString`: the absolute value of the accumulator. */
  function Hash(s: string): (r: nat)
    ensures r <= TwoTo31
  {
    var h := HashState(s);
    if h < 0 then -h else h
  }

  /** One step of the source's loop, `((h << 5) - h + code) | 0`, agrees
      with the specification step ToInt32(31 h + code). */
  lemma {:induction false} ShiftStep(h: int, code: int)
    requires -TwoTo31 <= h < TwoTo31
    ensures ToInt32(ToInt32(h * 32) - h + code) == ToInt32(31 * h + code)
  {
    var shifted := ToInt32(h * 32);
    var k := (h * 32 - shifted) / TwoTo32;
    assert h * 32 - shifted == k * TwoTo32;
    assert (shifted - h + code) - (31 * h + code) == -(k * TwoTo32);
    assert -(k * TwoTo32) == (-k) * TwoTo32;
    ModShift(0, -k);
    ToInt32Congruent(shifted - h + code, 31 * h + code);
  }

  method HashString(input: string) returns (hash: int)
    ensures hash == Hash(input)
    ensures 0 <= hash <= TwoTo31
  {
    var h := 0;
    for i := 0 to |input|
      invariant h == HashState(input[..i])
    {
      ShiftStep(h, input[i] as int);
      assert input[..i + 1][..i] == input[..i];
      h := ToInt32(ToInt32(h * 32) - h + input[i] as int);
    }
    assert input[..|input|] == input;
    hash := if h < 0 then -h else h;
  }

  // ---------------------------------------------------------------------
  // normalizeValue

  /** A character that `replace(/[^0-9.]/g, "")` keeps. */
  predicate IsNumberChar(c: char)
  {
    IsDigit(c) || c == '.'
  }

  /** `replace(/[^0-9.]/g, "")`: the digits and dots of `s`, in order. */
  function KeepNumberChars(s: string): (r: string)
    ensures |r| <= |s|
    ensures forall i :: 0 <= i < |r| ==> IsNumberChar(r[i])
  {
    if s == [] then []
    else (if IsNumberChar(s[0]) then [s[0]] else []) + KeepNumberChars(s[1..])
  }

  /** A single character is kept exactly when it is a digit or a dot. */
  lemma KeepNumberCharsSingle(c: char)
    ensures KeepNumberChars([c]) == if IsNumberChar(c) then [c] else []
  {
    assert [c][1..] == [];
  }

  /** Text made of digits and dots only is left as it is. */
  lemma {:induction false} KeepNumberCharsKeepsAll(s: string)
    requires forall i :: 0 <= i < |s| ==> IsNumberChar(s[i])
    ensures KeepNumberChars(s) == s
  {
    if s != [] {
      KeepNumberCharsKeepsAll(s[1..]);
      assert [s[0]] + s[1..] == s;
    }
  }

  /** Text without digits and dots filters to nothing. */
  lemma {:induction false} KeepNumberCharsDropsAll(s: string)
    requires forall i :: 0 <= i < |s| ==> !IsNumberChar(s[i])
    ensures KeepNumberChars(s) == []
  {
    if s != [] {
      KeepNumberCharsDropsAll(s[1..]);
    }
  }

  /** Filtering distributes over concatenation: a character is kept or
      dropped independently of its neighbours. */
  lemma {:induction false} KeepNumberCharsConcat(a: string, b: string)
    ensures KeepNumberChars(a + b) == KeepNumberChars(a) + KeepNumberChars(b)
  {
    if a == [] {
      assert a + b == b;
    } else {
      assert (a + b)[0] == a[0] && (a + b)[1..] == a[1..] + b;
      KeepNumberCharsConcat(a[1..], b);
    }
  }

  /** The number of leading digits of `s`. */
  function LeadingDigits(s: string): (n: nat)
    ensures n <= |s|
    ensures forall i :: 0 <= i < n ==> IsDigit(s[i])
    ensures n < |s| ==> !IsDigit(s[n])
  {
    if s != [] && IsDigit(s[0]) then 1 + LeadingDigits(s[1..]) else 0
  }

  function DigitsValue(ds: string): nat
    requires forall i :: 0 <= i < |ds| ==> IsDigit(ds[i])
  {
    if ds == [] then 0 else 10 * DigitsValue(ds[..|ds| - 1]) + DigitValue(ds[|ds| - 1])
  }

  function Pow10(n: nat): (r: nat)
    ensures r >= 1
  {
    if n == 0 then 1 else 10 * Pow10(n - 1)
  }

  /** The digits after a leading dot, up to the first non-digit; nothing
      when the text does not start with a dot. */
  function Fraction(rest: string): (f: string)
    ensures forall i :: 0 <= i < |f| ==> IsDigit(f[i])
    ensures |rest| > 0 && rest[0] == '.' && |rest| > 1 && IsDigit(rest[1]) ==> f != []
    ensures f != [] ==> |rest| > 1 && rest[0] == '.' && IsDigit(rest[1])
  {
    if |rest| > 0 && rest[0] == '.' then rest[1..][..LeadingDigits(rest[1..])] else []
  }

  /** `Number.parseFloat` on text made of digits and dots: the value of the
      longest prefix of the form `digits [. digits]` or `. digits`; there is
      a number exactly when the text starts with a digit or with a dot
      followed by a digit. */
  function ParseDecimal(t: string): (r: Option<real>)
    ensures r.Some? <==> (|t| > 0 && IsDigit(t[0])) || (|t| > 1 && t[0] == '.' && IsDigit(t[1]))
    ensures r.Some? ==> r.value >= 0.0
  {
    var n := LeadingDigits(t);
    var whole := t[..n];
    var fraction := Fraction(t[n..]);
    if n == 0 && |fraction| == 0 then None
    else
      var scaled := DigitsValue(fraction) as real / Pow10(|fraction|) as real;
      QuotientNonNegative(DigitsValue(fraction) as real, Pow10(|fraction|) as real);
      Some(DigitsValue(whole) as real + scaled)
  }

  /** Digits followed by text that does not start with a digit: the digits
      are exactly the leading ones. */
  lemma {:induction false} LeadingDigitsOf(d: string, rest: string)
    requires forall i :: 0 <= i < |d| ==> IsDigit(d[i])
    requires rest == [] || !IsDigit(rest[0])
    ensures LeadingDigits(d + rest) == |d|
  {
    if d == [] {
      assert d + rest == rest;
    } else {
      assert (d + rest)[0] == d[0] && (d + rest)[1..] == d[1..] + rest;
      LeadingDigitsOf(d[1..], rest);
    }
  }

  /** Digits followed by neither a digit nor a dot parse as their integer
      value. */
  lemma {:induction false} ParseWhole(d: string, rest: string)
    requires d != [] && forall i :: 0 <= i < |d| ==> IsDigit(d[i])
    requires rest == [] || (!IsDigit(rest[0]) && rest[0] != '.')
    ensures ParseDecimal(d + rest) == Some(DigitsValue(d) as real)
  {
    LeadingDigitsOf(d, rest);
    assert (d + rest)[..|d|] == d;
    assert (d + rest)[|d|..] == rest;
  }

  /** `whole.fraction` followed by a non-digit parses as the whole part plus
      the fraction's digits scaled down by their count; either part may be
      empty, not both. */
  lemma {:induction false} ParseFraction(whole: string, fraction: string, rest: string)
    requires forall i :: 0 <= i < |whole| ==> IsDigit(whole[i])
    requires forall i :: 0 <= i < |fraction| ==> IsDigit(fraction[i])
    requires whole != [] || fraction != []
    requires rest == [] || !IsDigit(rest[0])
    ensures ParseDecimal(whole + "." + fraction + rest)
            == Some(DigitsValue(whole) as real + DigitsValue(fraction) as real / Pow10(|fraction|) as real)
  {
    var tail := "." + fraction + rest;
    assert whole + "." + fraction + rest == whole + tail;
    FractionOf(fraction, rest);
    ParseDecimalParts(whole, tail);
  }

  /** A numeral read as its leading digits, then the fraction after them. */
  lemma {:induction false} ParseDecimalParts(whole: string, tail: string)
    requires forall i :: 0 <= i < |whole| ==> IsDigit(whole[i])
    requires tail == [] || !IsDigit(tail[0])
    requires whole != [] || Fraction(tail) != []
    ensures ParseDecimal(whole + tail)
            == Some(DigitsValue(whole) as real + DigitsValue(Fraction(tail)) as real / Pow10(|Fraction(tail)|) as real)
  {
    LeadingDigitsOf(whole, tail);
    assert (whole + tail)[..|whole|] == whole;
    assert (whole + tail)[|whole|..] == tail;
  }

  lemma {:induction false} FractionOf(fraction: string, rest: string)
    requires forall i :: 0 <= i < |fraction| ==> IsDigit(fraction[i])
    requires rest == [] || !IsDigit(rest[0])
    ensures Fraction("." + fraction + rest) == fraction
  {
    var tail := "." + fraction + rest;
    assert tail[1..] == fraction + rest;
    LeadingDigitsOf(fraction, rest);
    assert (fraction + rest)[..|fraction|] == fraction;
  }

  lemma QuotientNonNegative(a: real, b: real)
    requires a >= 0.0 && b > 0.0
    ensures a / b >= 0.0
  {
  }

  /** `Number.parseFloat(String(value).replace(/[^0-9.]/g, ""))`, with NaN as None. */
  function ParseNumber(value: string): (r: Option<real>)
    ensures r.Some? ==> r.value >= 0.0
  {
    ParseDecimal(KeepNumberChars(value))
  }

  /** A decimal numeral followed by a unit without digits or dots ("7.5 kg",
      "0.5%") reads as the numeral's value. */
  lemma {:induction false} ParseNumberDropsUnit(whole: string, fraction: string, unit: string)
    requires forall i :: 0 <= i < |whole| ==> IsDigit(whole[i])
    requires forall i :: 0 <= i < |fraction| ==> IsDigit(fraction[i])
    requires whole != [] || fraction != []
    requires forall i :: 0 <= i < |unit| ==> !IsNumberChar(unit[i])
    ensures ParseNumber(whole + "." + fraction + unit)
            == Some(DigitsValue(whole) as real + DigitsValue(fraction) as real / Pow10(|fraction|) as real)
  {
    var numeral := whole + "." + fraction;
    KeepNumberCharsConcat(numeral, unit);
    KeepNumberCharsKeepsAll(numeral);
    KeepNumberCharsDropsAll(unit);
    assert numeral + [] == whole + "." + fraction + [];
    ParseFraction(whole, fraction, []);
  }

  /** A whole numeral followed by a unit without digits or dots ("85%",
      "12 pts") reads as the numeral's value. */
  lemma {:induction false} ParseWholeDropsUnit(d: string, unit: string)
    requires d != [] && forall i :: 0 <= i < |d| ==> IsDigit(d[i])
    requires forall i :: 0 <= i < |unit| ==> !IsNumberChar(unit[i])
    ensures ParseNumber(d + unit) == Some(DigitsValue(d) as real)
  {
    KeepNumberCharsConcat(d, unit);
    KeepNumberCharsKeepsAll(d);
    KeepNumberCharsDropsAll(unit);
    assert d + [] == d;
    ParseWhole(d, []);
  }

  /** `normalizeValue`: a parsed number clamped to [0, 100], or, for text
      without a number, the pseudo-value 40 + hash mod 61 in [40, 100]. */
  function NormalizeValue(value: string): (r: real)
    ensures 0.0 <= r <= 100.0
    ensures ParseNumber(value).Some? ==> r == Clamp(ParseNumber(value).value, 0.0, 100.0)
    ensures ParseNumber(value).None? ==> 40.0 <= r && r == (40 + Hash(value) % 61) as real
  {
    match ParseNumber(value)
    case Some(n) => Clamp(n, 0.0, 100.0)
    case None => (40 + Hash(value) % 61) as real
  }

  // ---------------------------------------------------------------------
  // Attribute lookups

  /** The attribute's type, lower-cased, contains `keyword`. */
  predicate TypeHas(t: Trait, keyword: string)
  {
    Contains(Lower(t.traitType), keyword)
  }

  /** `attributes.find(p)`, as the index of the first match. */
  function FirstMatch(attributes: seq<Trait>, p: Trait -> bool): (r: Option<nat>)
    ensures r.Some? ==> r.value < |attributes| && p(attributes[r.value])
    ensures r.Some? ==> forall j :: 0 <= j < r.value ==> !p(attributes[j])
    ensures r.None? ==> forall j :: 0 <= j < |attributes| ==> !p(attributes[j])
  {
    FirstMatchFrom(attributes, p, 0)
  }

  function FirstMatchFrom(attributes: seq<Trait>, p: Trait -> bool, from: nat): (r: Option<nat>)
    decreases |attributes| - from
    ensures r.Some? ==> from <= r.value < |attributes| && p(attributes[r.value])
    ensures r.Some? ==> forall j :: from <= j < r.value ==> !p(attributes[j])
    ensures r.None? ==> forall j :: from <= j < |attributes| ==> !p(attributes[j])
  {
    if from >= |attributes| then None
    else if p(attributes[from]) then Some(from)
    else FirstMatchFrom(attributes, p, from + 1)
  }

  predicate IsRarityTrait(t: Trait) { TypeHas(t, "rarity") }

  predicate IsBackgroundTrait(t: Trait) { TypeHas(t, "background") }

  predicate IsOriginTrait(t: Trait) { TypeHas(t, "origin") || TypeHas(t, "genesis") }

  /** `getRarity`: the lower-cased value of the first attribute whose type
      mentions "rarity", or "common" when there is none. */
  function GetRarity(attributes: seq<Trait>): (r: string)
    ensures (forall j :: 0 <= j < |attributes| ==> !IsRarityTrait(attributes[j])) ==> r == "common"
    ensures forall i :: 0 <= i < |attributes| && IsRarityTrait(attributes[i])
                        && (forall j :: 0 <= j < i ==> !IsRarityTrait(attributes[j]))
                        ==> r == Lower(attributes[i].value)
  {
    match FirstMatch(attributes, IsRarityTrait)
    case Some(i) => Lower(attributes[i].value)
    case None => "common"
  }

  /** The own entries of RARITY_MULTIPLIER. */
  function TableMultiplier(key: string): Option<real>
  {
    if key == "common" then Some(1.0)
    else if key == "uncommon" then Some(1.05)
    else if key == "rare" then Some(1.12)
    else if key == "epic" then Some(1.2)
    else if key == "legendary" then Some(1.3)
    else if key == "mythic" then Some(1.4)
    else None
  }

  /** The rarity multiplier: the table entry, or 1 + (hash mod 10) / 100
      for a rarity the table does not list. */
  function RarityMultiplier(key: string): (m: real)
    ensures 1.0 <= m <= 1.4
    ensures TableMultiplier(key).None? ==> 1.0 <= m <= 1.09
    ensures TableMultiplier(key).Some? ==> m == TableMultiplier(key).value
  {
    match TableMultiplier(key)
    case Some(m) => m
    case None => 1.0 + (Hash(key) % 10) as real / 100.0
  }

  /** The origin value matches /genesis|early/i (the pattern is ASCII, so
      ASCII case folding is exact). */
  predicate MentionsGenesisOrEarly(value: string)
  {
    Contains(Lower(value), "genesis") || Contains(Lower(value), "early")
  }

  /** 1.05 when the first origin/genesis attribute says genesis or early, else 1. */
  function OriginBonus(attributes: seq<Trait>): (b: real)
    ensures b == 1.0 || b == 1.05
    ensures b == 1.05 <==> (FirstMatch(attributes, IsOriginTrait).Some?
                            && MentionsGenesisOrEarly(attributes[FirstMatch(attributes, IsOriginTrait).value].value))
  {
    match FirstMatch(attributes, IsOriginTrait)
    case Some(i) => if MentionsGenesisOrEarly(attributes[i].value) then 1.05 else 1.0
    case None => 1.0
  }

  function SourceBonus(source: CharacterSource): (b: real)
    ensures b == 1.0 || b == 1.08
    ensures b == 1.08 <==> source == Wallet
  {
    if source == Wallet then 1.08 else 1.0
  }

  // ---------------------------------------------------------------------
  // computeStats

  /** The `traitMap` record: lower-cased trait types in first-insertion
      order, each holding the value of its last occurrence. */
  datatype TraitRecord = TraitRecord(keys: seq<string>, values: map<string, string>)

  ghost predicate WellFormed(rec: TraitRecord)
  {
    && (forall i, j :: 0 <= i < j < |rec.keys| ==> rec.keys[i] != rec.keys[j])
    && (forall k :: k in rec.values <==> k in rec.keys)
  }

  /** The value of the last attribute whose lower-cased type is `key`. */
  function LastValueOf(attributes: seq<Trait>, key: string): Option<string>
  {
    if attributes == [] then None
    else if Lower(attributes[|attributes| - 1].traitType) == key then Some(attributes[|attributes| - 1].value)
    else LastValueOf(attributes[..|attributes| - 1], key)
  }

  /** The `reduce` that builds `traitMap`: every lower-cased type is a key
      exactly once, and each key holds its last occurrence's value. */
  function TraitMap(attributes: seq<Trait>): (r: TraitRecord)
    ensures WellFormed(r)
    ensures forall k :: k in r.values ==> LastValueOf(attributes, k) == Some(r.values[k])
    ensures forall k :: k in r.values <==> LastValueOf(attributes, k).Some?
  {
    if attributes == [] then TraitRecord([], map[])
    else
      var prev := TraitMap(attributes[..|attributes| - 1]);
      var t := attributes[|attributes| - 1];
      var key := Lower(t.traitType);
      TraitRecord(if key in prev.values then prev.keys else prev.keys + [key], prev.values[key := t.value])
  }

  /** One pass of the first `forEach`: a named stat trait raises its stat
      by the normalised value times its weight, capped at 100. */
  function AddStatTrait(s: Stats, key: string, value: string): Stats
  {
    var n := NormalizeValue(value);
    Stats(
      s.power,
      if Contains(key, "speed") then Raise(s.speed, n, 0.4) else s.speed,
      if Contains(key, "strength") then Raise(s.strength, n, 0.4) else s.strength,
      if Contains(key, "agility") then Raise(s.agility, n, 0.4) else s.agility,
      if Contains(key, "control") || Contains(key, "skill") then Raise(s.control, n, 0.35) else s.control,
      if Contains(key, "stamina") || Contains(key, "endurance") then Raise(s.stamina, n, 0.35) else s.stamina)
  }

  /** A stat trait touches exactly the stats its key names: each named stat
      ends in [40, 100] and does not fall from a value at most 100; every
      other stat, and power, is left alone. */
  lemma AddStatTraitRoutes(s: Stats, key: string, value: string)
    ensures var r := AddStatTrait(s, key, value);
      && r.power == s.power
      && (Contains(key, "speed") ==> 40.0 <= r.speed <= 100.0 && (s.speed <= 100.0 ==> s.speed <= r.speed))
      && (!Contains(key, "speed") ==> r.speed == s.speed)
      && (Contains(key, "strength") ==> 40.0 <= r.strength <= 100.0 && (s.strength <= 100.0 ==> s.strength <= r.strength))
      && (!Contains(key, "strength") ==> r.strength == s.strength)
      && (Contains(key, "agility") ==> 40.0 <= r.agility <= 100.0 && (s.agility <= 100.0 ==> s.agility <= r.agility))
      && (!Contains(key, "agility") ==> r.agility == s.agility)
      && (Contains(key, "control") || Contains(key, "skill") ==>
            40.0 <= r.control <= 100.0 && (s.control <= 100.0 ==> s.control <= r.control))
      && (!Contains(key, "control") && !Contains(key, "skill") ==> r.control == s.control)
      && (Contains(key, "stamina") || Contains(key, "endurance") ==>
            40.0 <= r.stamina <= 100.0 && (s.stamina <= 100.0 ==> s.stamina <= r.stamina))
      && (!Contains(key, "stamina") && !Contains(key, "endurance") ==> r.stamina == s.stamina)
  {
  }

  /** `clamp(stat + value * weight, 40, 100)`: in [40, 100], and never below
      a stat already at most 100. */
  function Raise(stat: real, value: real, weight: real): (r: real)
    requires 0.0 <= value && 0.0 <= weight
    ensures 40.0 <= r <= 100.0
    ensures stat <= 100.0 ==> stat <= r
  {
    assert value * weight >= 0.0;
    Clamp(stat + value * weight, 40.0, 100.0)
  }

  /** The base stats after the first `count` entries of `rec`. */
  function StatTraitsApplied(rec: TraitRecord, count: nat): Stats
    requires WellFormed(rec) && count <= |rec.keys|
  {
    if count == 0 then BaseStats
    else
      var key := rec.keys[count - 1];
      AddStatTrait(StatTraitsApplied(rec, count - 1), key, rec.values[key])
  }

  /** A key mentioning a stat, rarity, background or origin earns no flavour boost. */
  predicate IsCategorised(key: string)
  {
    || Contains(key, "speed") || Contains(key, "strength") || Contains(key, "agility")
    || Contains(key, "control") || Contains(key, "skill") || Contains(key, "stamina")
    || Contains(key, "endurance") || Contains(key, "rarity") || Contains(key, "background")
    || Contains(key, "origin") || Contains(key, "genesis")
  }

  /** One pass of the second `forEach`: an uncategorised attribute adds
      (hash mod 12) * 0.6 to control and 0.6 of that to stamina. */
  function AddFlavour(s: Stats, t: Trait): (r: Stats)
    ensures IsCategorised(Lower(t.traitType)) ==> r == s
    ensures r.power == s.power && r.speed == s.speed && r.strength == s.strength && r.agility == s.agility
    ensures !IsCategorised(Lower(t.traitType)) ==>
              && 40.0 <= r.control <= 110.0 && (s.control <= 110.0 ==> s.control <= r.control)
              && 40.0 <= r.stamina <= 110.0 && (s.stamina <= 110.0 ==> s.stamina <= r.stamina)
  {
    if IsCategorised(Lower(t.traitType)) then s
    else
      var boost := (Hash(t.traitType + ":" + t.value) % 12) as real * 0.6;
      s.(control := Clamp(s.control + boost, 40.0, 110.0), stamina := Clamp(s.stamina + boost * 0.6, 40.0, 110.0))
  }

  function FlavourApplied(s: Stats, attributes: seq<Trait>): Stats
  {
    if attributes == [] then s
    else AddFlavour(FlavourApplied(s, attributes[..|attributes| - 1]), attributes[|attributes| - 1])
  }

  function AppliedUpgrades(upgrades: Option<UpgradeState>): UpgradeState
  {
    match upgrades
    case Some(u) => u
    case None => NoUpgrades
  }

  /** Upgrade points: four per speed, strength or agility point; a power
      point adds three to control and two to stamina; all capped at 110. */
  function ApplyUpgrades(s: Stats, u: UpgradeState): (r: Stats)
    ensures 40.0 <= r.speed <= 110.0 && 40.0 <= r.strength <= 110.0 && 40.0 <= r.agility <= 110.0
    ensures 40.0 <= r.control <= 110.0 && 40.0 <= r.stamina <= 110.0
  {
    s.(speed := Clamp(s.speed + (u.speed * 4) as real, 40.0, 110.0),
       strength := Clamp(s.strength + (u.strength * 4) as real, 40.0, 110.0),
       agility := Clamp(s.agility + (u.agility * 4) as real, 40.0, 110.0),
       control := Clamp(s.control + (u.power * 3) as real, 40.0, 110.0),
       stamina := Clamp(s.stamina + (u.power * 2) as real, 40.0, 110.0))
  }

  /** The five primitive stats after traits, flavour and upgrades. */
  function StatsBeforePower(attributes: seq<Trait>, upgrades: Option<UpgradeState>): Stats
  {
    var rec := TraitMap(attributes);
    ApplyUpgrades(FlavourApplied(StatTraitsApplied(rec, |rec.keys|), attributes), AppliedUpgrades(upgrades))
  }

  function Mean(s: Stats): real
  {
    (s.speed + s.strength + s.agility + s.control + s.stamina) / 5.0
  }

  /** The power rating: the mean of the five primitives times the three
      multipliers, clamped to [45, 130]. */
  function PowerFrom(s: Stats, rarity: real, origin: real, source: real): (p: real)
    ensures 45.0 <= p <= 130.0
  {
    Clamp(Mean(s) * rarity * origin * source, 45.0, 130.0)
  }

  datatype StatsAndRarity = StatsAndRarity(stats: Stats, rarity: string)

  /** `computeStats`: five primitives in [40, 110], power in [45, 130]. */
  function DerivedStats(attributes: seq<Trait>, source: CharacterSource, upgrades: Option<UpgradeState>): (r: StatsAndRarity)
    ensures 40.0 <= r.stats.speed <= 110.0 && 40.0 <= r.stats.strength <= 110.0
    ensures 40.0 <= r.stats.agility <= 110.0 && 40.0 <= r.stats.control <= 110.0
    ensures 40.0 <= r.stats.stamina <= 110.0
    ensures 45.0 <= r.stats.power <= 130.0
    ensures r.rarity == GetRarity(attributes)
  {
    var s := StatsBeforePower(attributes, upgrades);
    var rarity := GetRarity(attributes);
    var power := PowerFrom(s, RarityMultiplier(rarity), OriginBonus(attributes), SourceBonus(source));
    StatsAndRarity(s.(power := power), rarity)
  }

  /** The first `forEach` callback: updates the named stats in turn. */
  method StatTraitStep(stats: Stats, key: string, value: string) returns (s: Stats)
    ensures s == AddStatTrait(stats, key, value)
  {
    s := stats;
    var normalized := NormalizeValue(value);
    if Contains(key, "speed") { s := s.(speed := Clamp(s.speed + normalized * 0.4, 40.0, 100.0)); }
    if Contains(key, "strength") { s := s.(strength := Clamp(s.strength + normalized * 0.4, 40.0, 100.0)); }
    if Contains(key, "agility") { s := s.(agility := Clamp(s.agility + normalized * 0.4, 40.0, 100.0)); }
    if Contains(key, "control") || Contains(key, "skill") {
      s := s.(control := Clamp(s.control + normalized * 0.35, 40.0, 100.0));
    }
    if Contains(key, "stamina") || Contains(key, "endurance") {
      s := s.(stamina := Clamp(s.stamina + normalized * 0.35, 40.0, 100.0));
    }
  }

  /** The second `forEach` callback: the early return for categorised keys,
      otherwise the hashed flavour boost. */
  method FlavourStep(stats: Stats, t: Trait) returns (s: Stats)
    ensures s == AddFlavour(stats, t)
  {
    s := stats;
    if IsCategorised(Lower(t.traitType)) {
      return;
    }
    var hashed := HashString(t.traitType + ":" + t.value);
    var boost := (hashed % 12) as real * 0.6;
    s := s.(control := Clamp(s.control + boost, 40.0, 110.0));
    s := s.(stamina := Clamp(s.stamina + boost * 0.6, 40.0, 110.0));
  }

  /** The first `forEach` of `computeStats`, over the entries of `traitMap`. */
  method AddStatTraits(traitMap: TraitRecord) returns (stats: Stats)
    requires WellFormed(traitMap)
    ensures stats == StatTraitsApplied(traitMap, |traitMap.keys|)
  {
    stats := BaseStats;
    for i := 0 to |traitMap.keys|
      invariant stats == StatTraitsApplied(traitMap, i)
    {
      var key := traitMap.keys[i];
      stats := StatTraitStep(stats, key, traitMap.values[key]);
    }
  }

  /** The second `forEach` of `computeStats`, over the attributes in order. */
  method AddFlavours(start: Stats, attributes: seq<Trait>) returns (stats: Stats)
    ensures stats == FlavourApplied(start, attributes)
  {
    stats := start;
    for i := 0 to |attributes|
      invariant stats == FlavourApplied(start, attributes[..i])
    {
      assert attributes[..i + 1][..i] == attributes[..i];
      stats := FlavourStep(stats, attributes[i]);
    }
    assert attributes[..|attributes|] == attributes;
  }

  /** `computeStats` as the source runs it: a local record updated in two
      loops and then field by field in straight-line code. */
  method ComputeStats(attributes: seq<Trait>, source: CharacterSource, upgrades: Option<UpgradeState>)
    returns (stats: Stats, rarity: string)
    ensures StatsAndRarity(stats, rarity) == DerivedStats(attributes, source, upgrades)
  {
    var traitMap := TraitMap(attributes);
    stats := AddStatTraits(traitMap);
    stats := AddFlavours(stats, attributes);
    ghost var flavoured := stats;

    rarity := GetRarity(attributes);
    var rarityMultiplier := RarityMultiplier(rarity);
    var originBonus := OriginBonus(attributes);
    var sourceBonus := if source == Wallet then 1.08 else 1.0;
    var applied := AppliedUpgrades(upgrades);

    stats := stats.(speed := Clamp(stats.speed + (applied.speed * 4) as real, 40.0, 110.0));
    stats := stats.(strength := Clamp(stats.strength + (applied.strength * 4) as real, 40.0, 110.0));
    stats := stats.(agility := Clamp(stats.agility + (applied.agility * 4) as real, 40.0, 110.0));
    stats := stats.(control := Clamp(stats.control + (applied.power * 3) as real, 40.0, 110.0));
    stats := stats.(stamina := Clamp(stats.stamina + (applied.power * 2) as real, 40.0, 110.0));
    assert stats == ApplyUpgrades(flavoured, applied);
    assert stats == StatsBeforePower(attributes, upgrades);

    // power = clamp(mean of the five * rarity * origin * source, 45, 130)
    stats := stats.(power := PowerFrom(stats, rarityMultiplier, originBonus, sourceBonus));
  }

  /** With no attributes and no upgrades the stats are the base block, and
      power is the plain mean 58 of the five primitives. */
  lemma DefaultStats()
    ensures DerivedStats([], Public, None) == StatsAndRarity(Stats(58.0, 60.0, 60.0, 60.0, 55.0, 55.0), "common")
  {
    var rec := TraitMap([]);
    assert rec.keys == [];
    assert StatsBeforePower([], None) == Stats(55.0, 60.0, 60.0, 60.0, 55.0, 55.0);
    assert GetRarity([]) == "common";
  }

  /** Power is non-decreasing in each of the three multipliers. */
  lemma PowerMonotone(s: Stats, r1: real, o1: real, b1: real, r2: real, o2: real, b2: real)
    requires Mean(s) >= 0.0
    requires 0.0 <= r1 <= r2 && 0.0 <= o1 <= o2 && 0.0 <= b1 <= b2
    ensures PowerFrom(s, r1, o1, b1) <= PowerFrom(s, r2, o2, b2)
  {
    var m := Mean(s);
    TripleProductMonotone(m, r1, o1, b1, r2, o2, b2);
    ClampMonotone(m * r1 * o1 * b1, m * r2 * o2 * b2, 45.0, 130.0);
  }

  lemma {:induction false} TripleProductMonotone(m: real, r1: real, o1: real, b1: real, r2: real, o2: real, b2: real)
    requires m >= 0.0
    requires 0.0 <= r1 <= r2 && 0.0 <= o1 <= o2 && 0.0 <= b1 <= b2
    ensures m * r1 * o1 * b1 <= m * r2 * o2 * b2
  {
    var p1, p2 := m * r1, m * r2;
    ProductMonotone(m, r1, r2);
    var q1, q2 := p1 * o1, p2 * o2;
    ProductMonotone(p1, o1, o2);
    ProductMonotone2(p1, p2, o2);
    ProductMonotone(q1, b1, b2);
    ProductMonotone2(q1, q2, b2);
  }

  lemma ClampMonotone(x: real, y: real, lo: real, hi: real)
    requires x <= y
    ensures Clamp(x, lo, hi) <= Clamp(y, lo, hi)
  {
  }

  /** For a >= 0: a x <= a y when x <= y, and a x >= 0 when x >= 0. */
  lemma ProductMonotone(a: real, x: real, y: real)
    requires a >= 0.0 && 0.0 <= x <= y
    ensures 0.0 <= a * x <= a * y
  {
  }

  lemma ProductMonotone2(x: real, y: real, a: real)
    requires a >= 0.0 && 0.0 <= x <= y
    ensures 0.0 <= x * a <= y * a
  {
  }

  /** A wallet character never has lower power than the same character
      seen from the public collection. */
  lemma WalletPowerAtLeastPublic(attributes: seq<Trait>, upgrades: Option<UpgradeState>)
    ensures DerivedStats(attributes, Wallet, upgrades).stats.power >= DerivedStats(attributes, Public, upgrades).stats.power
  {
    var s := StatsBeforePower(attributes, upgrades);
    var m := RarityMultiplier(GetRarity(attributes));
    var o := OriginBonus(attributes);
    assert Mean(s) >= 0.0;
    PowerMonotone(s, m, o, 1.0, m, o, 1.08);
  }

  /** Legendary rarity gives strictly more power than common for the same
      primitives and bonuses. */
  lemma LegendaryBeatsCommon(s: Stats, origin: real, source: real)
    requires 40.0 <= s.speed <= 110.0 && 40.0 <= s.strength <= 110.0 && 40.0 <= s.agility <= 110.0
    requires 40.0 <= s.control <= 110.0 && 40.0 <= s.stamina <= 110.0
    requires origin == 1.0 || origin == 1.05
    requires source == 1.0 || source == 1.08
    ensures PowerFrom(s, RarityMultiplier("legendary"), origin, source) > PowerFrom(s, RarityMultiplier("common"), origin, source)
  {
    var m := Mean(s);
    assert 40.0 <= m <= 110.0;
    var x := m * origin * source;
    ScaledMeanBounds(m, origin, source);
    assert m * 1.3 * origin * source == x * 1.3;
    assert m * 1.0 * origin * source == x;
    assert PowerFrom(s, 1.0, origin, source) == Clamp(x, 45.0, 130.0);
    assert PowerFrom(s, 1.3, origin, source) == Clamp(x * 1.3, 45.0, 130.0);
  }

  lemma ScaledMeanBounds(m: real, origin: real, source: real)
    requires 40.0 <= m <= 110.0
    requires origin == 1.0 || origin == 1.05
    requires source == 1.0 || source == 1.08
    ensures 40.0 <= m * origin * source <= 124.74
  {
    if origin == 1.0 {
      if source == 1.0 {
      } else {
        assert m * 1.0 * 1.08 == m * 1.08;
      }
    } else {
      if source == 1.0 {
        assert m * 1.05 * 1.0 == m * 1.05;
      } else {
        assert m * 1.05 * 1.08 == m * 1.134;
      }
    }
  }

  // ---------------------------------------------------------------------
  // deriveVisuals

  function TypeValuePairs(attributes: seq<Trait>): seq<string>
  {
    seq(|attributes|, i requires 0 <= i < |attributes| => attributes[i].traitType + ":" + attributes[i].value)
  }

  function TraitValues(attributes: seq<Trait>): seq<string>
  {
    seq(|attributes|, i requires 0 <= i < |attributes| => attributes[i].value)
  }

  /** `deriveAura`: a palette colour picked by the hash of all type:value pairs. */
  function DeriveAura(attributes: seq<Trait>): (a: string)
    ensures a in AuraColors
  {
    AuraColors[Hash(Join(TypeValuePairs(attributes), "|")) % |AuraColors|]
  }

  /** `deriveStadium`: the first background attribute's value, else a named
      theme picked by the hash of all values. */
  function DeriveStadium(attributes: seq<Trait>): (s: string)
    ensures FirstMatch(attributes, IsBackgroundTrait).Some? ==>
              s == attributes[FirstMatch(attributes, IsBackgroundTrait).value].value
    ensures FirstMatch(attributes, IsBackgroundTrait).None? ==> s in StadiumEffects
  {
    match FirstMatch(attributes, IsBackgroundTrait)
    case Some(i) => attributes[i].value
    case None => StadiumEffects[Hash(Join(TraitValues(attributes), "|")) % |StadiumEffects|]
  }

  /** The glow scalar: 0.5 + 0.6 * table multiplier (1 for rarities the
      table lacks), which the clamp keeps inside [0.5, 1.6]. */
  function Glow(rarity: string): (g: real)
    ensures 0.5 <= g <= 1.6
    ensures 1.1 <= g <= 1.34
  {
    var m := match TableMultiplier(rarity) case Some(m) => m case None => 1.0;
    Clamp(0.5 + m * 0.6, 0.5, 1.6)
  }

  function DeriveVisuals(attributes: seq<Trait>, source: CharacterSource, rarity: string, upgrades: Option<UpgradeState>): (v: Visuals)
    ensures v.aura in AuraColors
    ensures upgrades.Some? ==> v.stadium == upgrades.value.stadiumFx
    ensures upgrades.None? ==> v.stadium == DeriveStadium(attributes)
    ensures upgrades.None? && FirstMatch(attributes, IsBackgroundTrait).None? ==> v.stadium in StadiumEffects
    ensures v.tier == Prestige <==> source == Wallet
    ensures v.frame == "prestige" <==> source == Wallet
    ensures v.particle == rarity
    ensures 0.5 <= v.glow <= 1.6
  {
    var stadium := match upgrades case Some(u) => u.stadiumFx case None => DeriveStadium(attributes);
    Visuals(
      aura := DeriveAura(attributes),
      frame := if source == Wallet then "prestige" else "standard",
      particle := rarity,
      stadium := stadium,
      glow := Glow(rarity),
      tier := if source == Wallet then Prestige else Standard)
  }

  // ---------------------------------------------------------------------
  // Levels

  /** The XP at which `level` starts: level L lasts 250 * L points. */
  function Threshold(level: nat): (xp: nat)
    ensures xp % 250 == 0
  {
    if level == 0 then 0 else Threshold(level - 1) + 250 * (level - 1)
  }

  lemma {:induction false} ThresholdClosedForm(level: nat)
    ensures Threshold(level) == 125 * level * (level - 1)
  {
    if level > 0 {
      ThresholdClosedForm(level - 1);
      assert 125 * (level - 1) * (level - 2) + 250 * (level - 1) == 125 * level * (level - 1);
    }
  }

  lemma {:induction false} ThresholdMonotone(a: nat, b: nat)
    requires a <= b
    ensures Threshold(a) <= Threshold(b)
    ensures 1 <= a < b ==> Threshold(a) < Threshold(b)
  {
    if a < b {
      ThresholdMonotone(a, b - 1);
    }
  }

  /** The search the source's loop performs, from `level` upwards. */
  function LevelFrom(xp: int, level: nat): (r: nat)
    requires level >= 1
    decreases xp - Threshold(level)
    ensures r >= level
    ensures xp < Threshold(r + 1)
    ensures xp >= Threshold(level) ==> Threshold(r) <= xp
  {
    if xp >= Threshold(level + 1) then LevelFrom(xp, level + 1) else level
  }

  /** `getLevelFromXp` as a function: the level L >= 1 with
      125 L (L - 1) <= xp < 125 L (L + 1) for non-negative xp. */
  function LevelFromXp(xp: int): (l: nat)
    ensures l >= 1
    ensures xp < Threshold(l + 1)
    ensures xp >= 0 ==> Threshold(l) <= xp
  {
    LevelFrom(xp, 1)
  }

  /** The bounds pin the level down. */
  lemma LevelUnique(xp: int, l: nat)
    requires l >= 1 && Threshold(l) <= xp < Threshold(l + 1)
    ensures LevelFromXp(xp) == l
  {
    var k := LevelFromXp(xp);
    if k < l {
      ThresholdMonotone(k + 1, l);
    } else if k > l {
      ThresholdMonotone(l + 1, k);
    }
  }

  lemma LevelMonotone(x: int, y: int)
    requires x <= y
    ensures LevelFromXp(x) <= LevelFromXp(y)
  {
    var lx, ly := LevelFromXp(x), LevelFromXp(y);
    if x >= 0 && lx > ly {
      ThresholdMonotone(ly + 1, lx);
    }
  }

  lemma LevelClosedForm(xp: int)
    requires xp >= 0
    ensures var l := LevelFromXp(xp); 125 * l * (l - 1) <= xp < 125 * l * (l + 1)
  {
    var l := LevelFromXp(xp);
    ThresholdClosedForm(l);
    ThresholdClosedForm(l + 1);
  }

  /** `getLevelFromXp` as the source runs it. */
  method GetLevelFromXp(xp: int) returns (level: int)
    ensures level == LevelFromXp(xp)
  {
    level := 1;
    var threshold := 0;
    while xp >= threshold + level * 250
      invariant level >= 1 && threshold == Threshold(level)
      invariant LevelFrom(xp, level) == LevelFromXp(xp)
      decreases xp - threshold
    {
      threshold := threshold + level * 250;
      level := level + 1;
    }
  }

  datatype XpInfo = XpInfo(level: int, currentLevelXp: int, nextLevelXp: int)

  /** `getXpForNextLevel`: the level, the XP earned inside it and the XP the
      level spans, which is 250 * level. */
  method GetXpForNextLevel(xp: int) returns (info: XpInfo)
    ensures info.level == LevelFromXp(xp)
    ensures info.nextLevelXp == 250 * info.level
    ensures info.currentLevelXp == xp - Threshold(info.level)
    ensures xp >= 0 ==> 0 <= info.currentLevelXp < info.nextLevelXp
  {
    var level := GetLevelFromXp(xp);
    var threshold := 0;
    for i := 1 to level
      invariant threshold == Threshold(i)
    {
      threshold := threshold + i * 250;
    }
    var nextThreshold := threshold + level * 250;
    info := XpInfo(level, xp - threshold, nextThreshold - threshold);
  }

  /** `getUpgradePoints`: one point per level above the first. */
  function UpgradePoints(xp: int): (p: nat)
    ensures p + 1 == LevelFromXp(xp)
    ensures xp >= 0 ==> Threshold(p + 1) <= xp < Threshold(p + 2)
  {
    var level := LevelFromXp(xp);
    if level - 1 > 0 then level - 1 else 0
  }

  lemma UpgradePointsMonotone(x: int, y: int)
    requires x <= y
    ensures UpgradePoints(x) <= UpgradePoints(y)
  {
    LevelMonotone(x, y);
  }

  // ---------------------------------------------------------------------
  // The rarity table as written

  /** A JavaScript number that may be NaN. */
  datatype Num = Finite(value: real) | NaN

  /** `RARITY_MULTIPLIER[key] ?? fallback` as written: the index also reaches
      the members every object inherits, and the two whose names are
      lower-case, `constructor` (a function) and `__proto__` (an object),
      are not nullish, so the fallback is skipped and arithmetic on them
      gives NaN. */
  function RarityMultiplierAsWritten(key: string): Num
  {
    if key == "constructor" || key == "__proto__" then NaN else Finite(RarityMultiplier(key))
  }

  /** Power as written: NaN flows through the product and through the clamp. */
  function PowerAsWritten(attributes: seq<Trait>, source: CharacterSource, upgrades: Option<UpgradeState>): Num
  {
    var s := StatsBeforePower(attributes, upgrades);
    match RarityMultiplierAsWritten(GetRarity(attributes))
    case NaN => NaN
    case Finite(m) => Finite(PowerFrom(s, m, OriginBonus(attributes), SourceBonus(source)))
  }

  /** A rarity attribute whose value is "Constructor" makes the power NaN,
      outside [45, 130]. */
  lemma ConstructorRarityGivesNaN()
    ensures PowerAsWritten([Trait("Rarity", "Constructor")], Public, None) == NaN
  {
    var attrs := [Trait("Rarity", "Constructor")];
    assert OccursAt(Lower("Rarity"), "rarity", 0);
    assert IsRarityTrait(attrs[0]);
    assert GetRarity(attrs) == "constructor";
  }

  /** Away from those two keys the as-written power is the modelled one. */
  lemma AsWrittenAgreesElsewhere(attributes: seq<Trait>, source: CharacterSource, upgrades: Option<UpgradeState>)
    requires GetRarity(attributes) != "constructor" && GetRarity(attributes) != "__proto__"
    ensures PowerAsWritten(attributes, source, upgrades) == Finite(DerivedStats(attributes, source, upgrades).stats.power)
  {
  }
}
