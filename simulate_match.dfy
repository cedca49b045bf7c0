/** The match simulator (game/simulateMatch.ts).

    `Math.random` is an explicit input: `draws`, a sequence of numbers in
    [0, 1) consumed in the order the source calls it. A finite sequence
    can run out while the simulator is still drawing (the loop that
    collects distinct event times has no bound on its number of draws);
    the result is then `None`. */
module Simulation {
  import opened Text
  import opened Types
  import opened Traits

  // ---------------------------------------------------------------------
  // Effective stats: named traits override the derived stats

  predicate IsKeyChar(c: char)
  {
    'a' <= c <= 'z' || '0' <= c <= '9'
  }

  /** `replace(/[^a-z0-9]/g, "")`: the key characters of `s`, in order. */
  function KeepKeyChars(s: string): (r: string)
    ensures |r| <= |s|
    ensures forall i :: 0 <= i < |r| ==> IsKeyChar(r[i])
  {
    if s == [] then []
    else (if IsKeyChar(s[0]) then [s[0]] else []) + KeepKeyChars(s[1..])
  }

  /** A single character is kept exactly when it is a key character. */
  lemma KeepKeyCharsSingle(c: char)
    ensures KeepKeyChars([c]) == if IsKeyChar(c) then [c] else []
  {
    assert [c][1..] == [];
  }

  /** Text made of key characters only is left as it is. */
  lemma {:induction false} KeepKeyCharsKeepsAll(s: string)
    requires forall i :: 0 <= i < |s| ==> IsKeyChar(s[i])
    ensures KeepKeyChars(s) == s
  {
    if s != [] {
      KeepKeyCharsKeepsAll(s[1..]);
      assert [s[0]] + s[1..] == s;
    }
  }

  /** Filtering distributes over concatenation: a character is kept or
      dropped independently of its neighbours. */
  lemma {:induction false} KeepKeyCharsConcat(a: string, b: string)
    ensures KeepKeyChars(a + b) == KeepKeyChars(a) + KeepKeyChars(b)
  {
    if a == [] {
      assert a + b == b;
    } else {
      var head := if IsKeyChar(a[0]) then [a[0]] else [];
      assert (a + b)[0] == a[0] && (a + b)[1..] == a[1..] + b;
      assert KeepKeyChars(a + b) == head + KeepKeyChars(a[1..] + b);
      KeepKeyCharsConcat(a[1..], b);
      assert head + (KeepKeyChars(a[1..]) + KeepKeyChars(b)) == (head + KeepKeyChars(a[1..])) + KeepKeyChars(b);
    }
  }

  /** `normalizeKey`: lower-case, then keep only a-z and 0-9. */
  function NormalizeKey(value: string): (r: string)
    ensures |r| <= |value|
  {
    KeepKeyChars(Lower(value))
  }

  /** A normalised key normalises to itself. */
  lemma {:induction false} NormalizeKeyIdempotent(value: string)
    ensures NormalizeKey(NormalizeKey(value)) == NormalizeKey(value)
  {
    var key := NormalizeKey(value);
    assert Lower(key) == key;
    KeepKeyCharsKeepsAll(key);
  }

  /** The attribute's normalised type equals or contains one of the
      normalised labels. */
  predicate HasLabel(t: Trait, labels: seq<string>)
  {
    var key := NormalizeKey(t.traitType);
    exists i :: 0 <= i < |labels| && (key == NormalizeKey(labels[i]) || Contains(key, NormalizeKey(labels[i])))
  }

  /** `getTraitValue`: a number read from an attribute, not clamped, or the
      fallback; never negative when the fallback is not. Which attribute is
      read is stated by `TraitValueFirstLabelled`. */
  function TraitValue(attributes: seq<Trait>, labels: seq<string>, fallback: real): (r: real)
    ensures fallback >= 0.0 ==> r >= 0.0
  {
    match FirstMatch(attributes, t => HasLabel(t, labels))
    case None => fallback
    case Some(i) =>
      match ParseNumber(attributes[i].value)
      case Some(n) => n
      case None => fallback
  }

  const PowerLabels: seq<string> := ["Power", "Overall", "OVR", "Rating"]
  const SpeedLabels: seq<string> := ["Speed"]
  const StrengthLabels: seq<string> := ["Strength"]
  const AgilityLabels: seq<string> := ["Agility"]
  const ControlLabels: seq<string> := ["Control", "Skill"]
  const StaminaLabels: seq<string> := ["Stamina", "Endurance"]

  /** The value is the parsed number of the first attribute carrying one of
      the labels; the fallback when no attribute carries one or when that
      attribute's value holds no number. */
  lemma TraitValueFirstLabelled(attributes: seq<Trait>, labels: seq<string>, fallback: real)
    ensures (forall j :: 0 <= j < |attributes| ==> !HasLabel(attributes[j], labels))
            ==> TraitValue(attributes, labels, fallback) == fallback
    ensures forall i :: 0 <= i < |attributes| && HasLabel(attributes[i], labels)
                        && (forall j :: 0 <= j < i ==> !HasLabel(attributes[j], labels))
                        ==> TraitValue(attributes, labels, fallback)
                            == (match ParseNumber(attributes[i].value) case Some(n) => n case None => fallback)
  {
    var m := FirstMatch(attributes, t => HasLabel(t, labels));
    forall i | 0 <= i < |attributes| && HasLabel(attributes[i], labels)
               && (forall j :: 0 <= j < i ==> !HasLabel(attributes[j], labels))
      ensures m == Some(i)
    {
      assert m.Some? && m.value <= i;
      assert HasLabel(attributes[m.value], labels);
    }
  }

  predicate NonNegative(s: Stats)
  {
    s.power >= 0.0 && s.speed >= 0.0 && s.strength >= 0.0 && s.agility >= 0.0 && s.control >= 0.0 && s.stamina >= 0.0
  }

  /** The `traitStats` record. */
  function EffectiveStats(player: Character): (s: Stats)
    ensures NonNegative(player.stats) ==> NonNegative(s)
  {
    var a := player.attributes;
    Stats(
      TraitValue(a, PowerLabels, player.stats.power),
      TraitValue(a, SpeedLabels, player.stats.speed),
      TraitValue(a, StrengthLabels, player.stats.strength),
      TraitValue(a, AgilityLabels, player.stats.agility),
      TraitValue(a, ControlLabels, player.stats.control),
      TraitValue(a, StaminaLabels, player.stats.stamina))
  }

  /** Each effective stat reads its own labels (game/simulateMatch.ts:28-35),
      with the character's stat of the same name as the fallback. */
  lemma EffectiveStatsReadsLabels(player: Character)
    ensures var s := EffectiveStats(player);
            var a := player.attributes;
            && s.power == TraitValue(a, ["Power", "Overall", "OVR", "Rating"], player.stats.power)
            && s.speed == TraitValue(a, ["Speed"], player.stats.speed)
            && s.strength == TraitValue(a, ["Strength"], player.stats.strength)
            && s.agility == TraitValue(a, ["Agility"], player.stats.agility)
            && s.control == TraitValue(a, ["Control", "Skill"], player.stats.control)
            && s.stamina == TraitValue(a, ["Stamina", "Endurance"], player.stats.stamina)
  {
  }

  // ---------------------------------------------------------------------
  // Ratings and chances

  function Attack(s: Stats): (r: real)
    ensures NonNegative(s) ==> r >= 0.0
  {
    s.power * 0.35 + s.speed * 0.3 + s.agility * 0.25 + s.control * 0.1
  }

  function Defense(s: Stats): (r: real)
    ensures NonNegative(s) ==> r >= 0.0
  {
    s.strength * 0.5 + s.stamina * 0.3 + s.control * 0.2
  }

  /** A draw times a width: for a draw in [0, 1) and a positive width,
      somewhere in [0, width). */
  function Scale(draw: real, width: real): (y: real)
    ensures 0.0 <= draw < 1.0 && width > 0.0 ==> 0.0 <= y < width
  {
    if 0.0 <= draw < 1.0 && width > 0.0 then
      assert width - draw * width == (1.0 - draw) * width;
      assert (1.0 - draw) * width > 0.0;
      draw * width
    else
      draw * width
  }

  /** `randomBetween` for one draw: a draw in [0, 1) lands in [lo, hi). */
  function RandomBetween(draw: real, lo: real, hi: real): (x: real)
    ensures 0.0 <= draw < 1.0 && lo < hi ==> lo <= x < hi
  {
    Scale(draw, hi - lo) + lo
  }

  /** The AI's scaling: 0.9 + 0.04 per league plus jitter in [-0.05, 0.08),
      kept in [0.85, 1.2]. */
  function AiMultiplier(league: int, draw: real): (m: real)
    ensures 0.85 <= m <= 1.2
  {
    Clamp(0.9 + league as real * 0.04 + RandomBetween(draw, -0.05, 0.08), 0.85, 1.2)
  }

  /** The chance that a play is the player's attack: 0.5 moved by a quarter
      of the relative rating gap, kept in [0.35, 0.65]. */
  function PossessionChance(playerRating: real, aiRating: real): (p: real)
    requires playerRating + aiRating != 0.0
    ensures 0.35 <= p <= 0.65
  {
    Clamp(0.5 + ((playerRating - aiRating) / (playerRating + aiRating)) * 0.25, 0.35, 0.65)
  }

  function OnTargetChance(attack: real, defense: real): (p: real)
    ensures 0.25 <= p <= 0.7
  {
    Clamp(0.45 + (attack - defense) / 220.0, 0.25, 0.7)
  }

  function ScoringChance(attack: real, defense: real): (p: real)
    requires attack + defense != 0.0
    ensures 0.15 <= p <= 0.6
  {
    Clamp(attack / (attack + defense), 0.15, 0.6)
  }

  // ---------------------------------------------------------------------
  // Durations, play counts and event times

  /** `12 + Math.floor(Math.random() * 6)`. */
  function Duration(draw: real): (d: int)
    requires 0.0 <= draw < 1.0
    ensures 12 <= d <= 17
  {
    12 + (draw * 6.0).Floor
  }

  /** `clamp(Math.round(duration / 2 + randomBetween(-1, 2)), 6, 10)`. */
  function PlayCount(duration: int, draw: real): (n: int)
    ensures 6 <= n <= 10
  {
    Clamp(Round(duration as real / 2.0 + RandomBetween(draw, -1.0, 2.0)) as real, 6.0, 10.0).Floor
  }

  /** There are never more plays than the duration - 4 distinct slots
      2 .. duration - 3, so collecting distinct times can finish. */
  lemma PlayCountFitsSlots(duration: int, draw: real)
    requires 12 <= duration <= 17
    requires 0.0 <= draw < 1.0
    ensures PlayCount(duration, draw) <= duration - 4
  {
    var x := duration as real / 2.0 + RandomBetween(draw, -1.0, 2.0);
    assert x < duration as real / 2.0 + 2.0;
    if duration == 12 {
      assert Round(x) <= 8;
    } else {
      assert Round(x) as real <= x + 0.5;
    }
  }

  /** `Math.floor(randomBetween(2, duration - 2))`: a slot in
      2 .. duration - 3. */
  function Slot(duration: int, draw: real): (t: int)
    ensures duration >= 5 && 0.0 <= draw < 1.0 ==> 2 <= t <= duration - 3
  {
    var x := RandomBetween(draw, 2.0, (duration - 2) as real);
    assert duration >= 5 && 0.0 <= draw < 1.0 ==> 2.0 <= x < (duration - 2) as real;
    x.Floor
  }

  /** The members of `s` inside [lo, hi). */
  function InRange(s: set<int>, lo: int, hi: int): set<int>
  {
    set x | x in s && lo <= x < hi
  }

  /** Peeling the lowest candidate `lo` off the range. */
  lemma InRangeStep(s: set<int>, lo: int, hi: int)
    requires lo < hi
    ensures lo !in InRange(s, lo + 1, hi)
    ensures lo in s ==> InRange(s, lo, hi) == {lo} + InRange(s, lo + 1, hi)
    ensures lo !in s ==> InRange(s, lo, hi) == InRange(s, lo + 1, hi)
  {
  }

  predicate StrictlyAscending(ts: seq<int>)
  {
    forall i, j :: 0 <= i < j < |ts| ==> ts[i] < ts[j]
  }

  /** `Array.from(times).sort((a, b) => a - b)` for times inside [lo, hi):
      members of the set, in strictly ascending order. */
  function Ascending(s: set<int>, lo: int, hi: int): (r: seq<int>)
    decreases hi - lo
    ensures forall i :: 0 <= i < |r| ==> lo <= r[i] < hi && r[i] in s
    ensures StrictlyAscending(r)
  {
    if lo >= hi then []
    else if lo in s then [lo] + Ascending(s, lo + 1, hi)
    else Ascending(s, lo + 1, hi)
  }

  /** Every member inside [lo, hi) is listed, so the list is as long as the
      set's part inside the range. */
  /** Every member inside [lo, hi) is listed. */
  lemma {:induction false} AscendingListsAll(s: set<int>, lo: int, hi: int)
    decreases hi - lo
    ensures forall x :: x in s && lo <= x < hi ==> x in Ascending(s, lo, hi)
  {
    if lo < hi {
      AscendingListsAll(s, lo + 1, hi);
    }
  }

  /** The list is as long as the set's part inside the range. */
  lemma {:induction false} AscendingLength(s: set<int>, lo: int, hi: int)
    decreases hi - lo
    ensures |Ascending(s, lo, hi)| == |InRange(s, lo, hi)|
  {
    if lo >= hi {
      assert InRange(s, lo, hi) == {};
    } else {
      InRangeStep(s, lo, hi);
      AscendingLength(s, lo + 1, hi);
    }
  }

  // ---------------------------------------------------------------------
  // Outcome

  /** The number of goals `team` scored among `events`. */
  function GoalCount(events: seq<MatchEvent>, team: Team): (n: nat)
    ensures n <= |events|
  {
    if events == [] then 0
    else
      var last := events[|events| - 1];
      GoalCount(events[..|events| - 1], team) + (if last.kind == Goal && last.team == team then 1 else 0)
  }

  lemma GoalCountAppend(events: seq<MatchEvent>, e: MatchEvent, team: Team)
    ensures GoalCount(events + [e], team) == GoalCount(events, team) + (if e.kind == Goal && e.team == team then 1 else 0)
  {
    assert (events + [e])[..|events + [e]| - 1] == events;
  }

  /** The winner by strict score comparison. */
  function WinnerOf(playerScore: int, aiScore: int): (w: Winner)
    ensures w == PlayerWins <==> playerScore > aiScore
    ensures w == AiWins <==> aiScore > playerScore
    ensures w == Draw <==> playerScore == aiScore
  {
    if playerScore > aiScore then PlayerWins else if aiScore > playerScore then AiWins else Draw
  }

  function BaseXp(w: Winner): int
  {
    match w
    case PlayerWins => 160
    case Draw => 90
    case AiWins => 60
  }

  /** `Math.round(baseXp + league * 20 + power * 0.2)`. */
  function XpEarned(w: Winner, league: int, power: real): (xp: int)
    ensures league >= 0 && power >= 0.0 ==> xp >= BaseXp(w)
  {
    Round(BaseXp(w) as real + league as real * 20.0 + power * 0.2)
  }

  lemma RoundShift(x: real, k: int)
    ensures Round(x + k as real) == Round(x) + k
  {
  }

  /** One more league is worth exactly 20 more XP, so XP strictly increases
      with the league. */
  lemma {:induction false} XpIncreasesWithLeague(w: Winner, l1: int, l2: int, power: real)
    requires l1 < l2
    ensures XpEarned(w, l2, power) == XpEarned(w, l1, power) + 20 * (l2 - l1)
    ensures XpEarned(w, l1, power) < XpEarned(w, l2, power)
  {
    var x := BaseXp(w) as real + l1 as real * 20.0 + power * 0.2;
    assert BaseXp(w) as real + l2 as real * 20.0 + power * 0.2 == x + (20 * (l2 - l1)) as real;
    RoundShift(x, 20 * (l2 - l1));
  }

  /** A win is worth 70 XP more than a draw, and a draw 30 more than a loss. */
  lemma {:induction false} XpByOutcome(league: int, power: real)
    ensures XpEarned(PlayerWins, league, power) == XpEarned(Draw, league, power) + 70
    ensures XpEarned(Draw, league, power) == XpEarned(AiWins, league, power) + 30
  {
    var x := league as real * 20.0 + power * 0.2;
    RoundShift(60.0 + x, 30);
    RoundShift(90.0 + x, 70);
    assert 60.0 + x + 30 as real == 90.0 + x;
    assert 90.0 + x + 70 as real == 160.0 + x;
  }

  /** With both ratings' ingredients non-negative and not both zero, the
      divisions of the possession and scoring chances are defined. */
  lemma RatingSums(a: real, d: real, m: real, b: real)
    requires a >= 0.0 && d >= 0.0 && a + d > 0.0 && m > 0.0 && b > 0.0
    ensures a * m * b >= 0.0 && d * m * b >= 0.0
    ensures a + d * m * b > 0.0
    ensures a * m * b + d > 0.0
  {
    assert m * b > 0.0;
    assert a * m * b == a * (m * b);
    assert d * m * b == d * (m * b);
    if a == 0.0 {
      assert d > 0.0;
      assert d * (m * b) > 0.0;
    }
  }

  /** The ratings a match is played with. */
  datatype Ratings = Ratings(playerAttack: real, playerDefense: real, aiAttack: real, aiDefense: real, possessionChance: real)

  /** The rating formulas: the player's attack and defence from the
      effective stats, the AI's as the player's scaled by the AI multiplier
      and the league boost, and the possession chance from the two overall
      ratings, where the player's gains 1.5 per level. */
  function RateMatch(player: Character, progress: Progress, jitter: real): (r: Ratings)
    requires progress.league >= 0 && progress.level >= 0
    requires NonNegative(player.stats)
    requires Attack(EffectiveStats(player)) + Defense(EffectiveStats(player)) > 0.0
    ensures r.playerAttack + r.aiDefense > 0.0 && r.aiAttack + r.playerDefense > 0.0
    ensures 0.35 <= r.possessionChance <= 0.65
  {
    var leagueBoost := 1.0 + progress.league as real * 0.05;
    var traitStats := EffectiveStats(player);
    var playerAttack := Attack(traitStats);
    var playerDefense := Defense(traitStats);
    var playerRating := (playerAttack + playerDefense) / 2.0 + progress.level as real * 1.5;
    var aiMultiplier := AiMultiplier(progress.league, jitter);
    var aiAttack := playerAttack * aiMultiplier * leagueBoost;
    var aiDefense := playerDefense * aiMultiplier * leagueBoost;
    RatingSums(playerAttack, playerDefense, aiMultiplier, leagueBoost);
    var aiRating := (aiAttack + aiDefense) / 2.0;
    Ratings(playerAttack, playerDefense, aiAttack, aiDefense, PossessionChance(playerRating, aiRating))
  }

  // ---------------------------------------------------------------------
  // The simulator, as recursive definitions

  /** Both shot divisions are defined, whichever team attacks. */
  predicate Playable(r: Ratings)
  {
    r.playerAttack + r.aiDefense != 0.0 && r.aiAttack + r.playerDefense != 0.0
  }

  /** The attacking team for a possession draw. */
  function TeamOf(r: Ratings, draw: real): Team
  {
    if draw < r.possessionChance then Player else Ai
  }

  function AttackOf(r: Ratings, team: Team): real
  {
    if team == Player then r.playerAttack else r.aiAttack
  }

  function DefenseOf(r: Ratings, team: Team): real
  {
    if team == Player then r.aiDefense else r.playerDefense
  }

  /** A result paired with the index of the next unused draw; `None` when
      the draws ran out. */
  function Pack<T>(x: Option<T>, next: nat): Option<(T, nat)>
  {
    if x.Some? then Some((x.value, next)) else None
  }

  /** The slots drawn from draws `k` up to `j`. */
  function Slots(duration: int, draws: seq<real>, k: nat, j: nat): set<int>
    requires j <= |draws|
    decreases j - k
  {
    if k >= j then {} else {Slot(duration, draws[k])} + Slots(duration, draws, k + 1, j)
  }

  function Max(a: int, b: int): int
  {
    if a >= b then a else b
  }

  /** The `times` loop from draw `k` on, with `taken` already collected. */
  function Collect(duration: int, playCount: int, draws: seq<real>, k: nat, taken: set<int>): (r: Option<(set<int>, nat)>)
    requires k <= |draws|
    decreases |draws| - k
    ensures r.Some? ==> k <= r.value.1 <= |draws|
  {
    if |taken| >= playCount then Some((taken, k))
    else if k == |draws| then None
    else Collect(duration, playCount, draws, k + 1, taken + {Slot(duration, draws[k])})
  }

  /** The loop stops at the first draw after which `playCount` distinct
      slots are taken, holding exactly the slots drawn so far, and fails
      exactly when all the remaining draws together give fewer. */
  lemma {:induction false} CollectStopsAtFirst(duration: int, playCount: int, draws: seq<real>, k: nat, taken: set<int>)
    requires k <= |draws|
    decreases |draws| - k
    ensures var r := Collect(duration, playCount, draws, k, taken);
      && (r.Some? ==> r.value.0 == taken + Slots(duration, draws, k, r.value.1))
      && (r.Some? ==> |r.value.0| == Max(|taken|, playCount))
      && (r.Some? ==> forall j :: k <= j < r.value.1 ==> |taken + Slots(duration, draws, k, j)| < playCount)
      && (r.None? <==> |taken + Slots(duration, draws, k, |draws|)| < playCount)
  {
    if |taken| >= playCount {
      UnionGrows(taken, Slots(duration, draws, k, |draws|));
    } else if k < |draws| {
      var slot := Slot(duration, draws[k]);
      CollectStopsAtFirst(duration, playCount, draws, k + 1, taken + {slot});
      var r := Collect(duration, playCount, draws, k + 1, taken + {slot});
      assert |taken + {slot}| <= |taken| + 1 by {
        if slot in taken {
          assert taken + {slot} == taken;
        }
      }
      SlotsStep(duration, draws, k, |draws|, taken);
      if r.Some? {
        forall j | k < j <= r.value.1
          ensures taken + Slots(duration, draws, k, j) == taken + {slot} + Slots(duration, draws, k + 1, j)
        {
          SlotsStep(duration, draws, k, j, taken);
        }
      }
    }
  }

  lemma UnionGrows(a: set<int>, b: set<int>)
    ensures |a + b| >= |a|
  {
    assert a + b == a + (b - a);
  }

  /** Peeling the first draw off a range of slots. */
  lemma SlotsStep(duration: int, draws: seq<real>, k: nat, j: nat, taken: set<int>)
    requires k < j <= |draws|
    ensures taken + Slots(duration, draws, k, j) == taken + {Slot(duration, draws[k])} + Slots(duration, draws, k + 1, j)
  {
  }

  /** The `times` loop followed by the sort. */
  function Schedule(duration: int, playCount: int, draws: seq<real>, k: nat): Option<(seq<int>, nat)>
    requires k <= |draws|
  {
    match Collect(duration, playCount, draws, k, {})
    case None => None
    case Some((taken, next)) => Some((Ascending(taken, 2, duration - 2), next))
  }

  /** One play from draw `k`: the possession draw picks the attacker, the
      next draw decides whether the shot is on target, and only a shot on
      target takes a third draw, which decides goal or save. */
  function Play(r: Ratings, draws: seq<real>, k: nat, time: int): (p: Option<(MatchEvent, nat)>)
    requires Playable(r)
    ensures k + 3 <= |draws| ==> p.Some?
    ensures p.None? ==> |draws| < k + 3
    ensures p.Some? ==>
              var e := p.value.0;
              var next := p.value.1;
              && e.time == time && next <= |draws|
              && next == (if e.kind == Miss then k + 2 else k + 3)
              && (e.team == Player <==> draws[k] < r.possessionChance)
              && (e.kind == Miss <==> draws[k + 1] >= OnTargetChance(AttackOf(r, e.team), DefenseOf(r, e.team)))
              && (e.kind == Goal <==> e.kind != Miss && draws[k + 2] < ScoringChance(AttackOf(r, e.team), DefenseOf(r, e.team)))
  {
    if k + 2 > |draws| then None
    else
      var team := TeamOf(r, draws[k]);
      var attack := AttackOf(r, team);
      var defense := DefenseOf(r, team);
      if draws[k + 1] >= OnTargetChance(attack, defense) then Some((MatchEvent(time, team, Miss), k + 2))
      else if k + 3 > |draws| then None
      else Some((MatchEvent(time, team, if draws[k + 2] < ScoringChance(attack, defense) then Goal else Save), k + 3))
  }

  /** `played` in front of the events of a later result. */
  function Prepend(played: seq<MatchEvent>, rest: Option<(seq<MatchEvent>, nat)>): Option<(seq<MatchEvent>, nat)>
  {
    match rest
    case None => None
    case Some((es, next)) => Some((played + es, next))
  }

  /** The plays loop: one play per time, each from the draws the previous
      one left. */
  function Resolve(times: seq<int>, r: Ratings, draws: seq<real>, k: nat): (res: Option<(seq<MatchEvent>, nat)>)
    requires Playable(r) && k <= |draws|
    decreases |times|
    ensures res.Some? ==> Times(res.value.0) == times && k + 2 * |times| <= res.value.1 <= |draws|
    ensures k + 3 * |times| <= |draws| ==> res.Some?
  {
    if times == [] then Some(([], k))
    else
      var p := Play(r, draws, k, times[0]);
      if p.None? then None
      else
        var rest := Resolve(times[1..], r, draws, p.value.1);
        if rest.None? then None
        else
          TimesCons(p.value.0, rest.value.0);
          assert [times[0]] + times[1..] == times;
          Prepend([p.value.0], rest)
  }

  lemma TimesCons(e: MatchEvent, es: seq<MatchEvent>)
    ensures Times([e] + es) == [e.time] + Times(es)
  {
  }

  /** One turn of the plays loop: a play that completes is put in front of
      the plays resolved from the draws it left. */
  lemma ResolveStep(times: seq<int>, r: Ratings, draws: seq<real>, k: nat, e: MatchEvent, n: nat)
    requires Playable(r) && k <= |draws| && times != []
    requires Play(r, draws, k, times[0]) == Some((e, n))
    ensures n <= |draws|
    ensures Resolve(times, r, draws, k) == Prepend([e], Resolve(times[1..], r, draws, n))
  {
  }

  /** A play that runs out of draws ends the loop with nothing. */
  lemma ResolveStops(times: seq<int>, r: Ratings, draws: seq<real>, k: nat)
    requires Playable(r) && k <= |draws| && times != []
    requires Play(r, draws, k, times[0]).None?
    ensures Resolve(times, r, draws, k).None?
  {
  }

  lemma PrependEmpty(rest: Option<(seq<MatchEvent>, nat)>)
    ensures Prepend([], rest) == rest
  {
    if rest.Some? {
      assert [] + rest.value.0 == rest.value.0;
    }
  }

  lemma PrependTwice(a: seq<MatchEvent>, b: seq<MatchEvent>, rest: Option<(seq<MatchEvent>, nat)>)
    ensures Prepend(a, Prepend(b, rest)) == Prepend(a + b, rest)
  {
    if rest.Some? {
      assert a + (b + rest.value.0) == (a + b) + rest.value.0;
    }
  }

  /** The final score, winner and XP for a list of events. */
  function Scored(events: seq<MatchEvent>, duration: int, league: int, power: real): MatchResult
  {
    var playerScore := GoalCount(events, Player);
    var aiScore := GoalCount(events, Ai);
    var winner := WinnerOf(playerScore, aiScore);
    MatchResult(playerScore, aiScore, winner, XpEarned(winner, league, power), duration, events)
  }

  /** Everything after the ratings: schedule from draw 3 on, resolve the
      plays, score the match. */
  function Finish(duration: int, playCount: int, ratings: Ratings, league: int, power: real, draws: seq<real>): Option<MatchResult>
    requires 3 <= |draws| && Playable(ratings)
  {
    match Schedule(duration, playCount, draws, 3)
    case None => None
    case Some((times, next)) =>
      match Resolve(times, ratings, draws, next)
      case None => None
      case Some((events, _)) => Some(Scored(events, duration, league, power))
  }

  /** `simulateMatch`: the duration from draw 0, the AI jitter from draw 1,
      the play count from draw 2, then the rest. */
  function Simulate(player: Character, progress: Progress, draws: seq<real>): Option<MatchResult>
    requires progress.league >= 0 && progress.level >= 0
    requires NonNegative(player.stats)
    requires Attack(EffectiveStats(player)) + Defense(EffectiveStats(player)) > 0.0
    requires forall i :: 0 <= i < |draws| ==> 0.0 <= draws[i] < 1.0
  {
    if |draws| < 3 then None
    else
      var duration := Duration(draws[0]);
      Finish(duration, PlayCount(duration, draws[2]), RateMatch(player, progress, draws[1]),
             progress.league, EffectiveStats(player).power, draws)
  }

  /** A match is played out whenever the slot draws give enough distinct
      slots and three more draws per play remain after them. */
  lemma {:induction false} EnoughDrawsFinish(duration: int, playCount: int, ratings: Ratings, league: int, power: real,
                                             draws: seq<real>, taken: set<int>, next: nat)
    requires 3 <= |draws| && Playable(ratings) && 0 <= playCount
    requires Collect(duration, playCount, draws, 3, {}) == Some((taken, next))
    requires next + 3 * playCount <= |draws|
    ensures Finish(duration, playCount, ratings, league, power, draws).Some?
  {
    CollectStopsAtFirst(duration, playCount, draws, 3, {});
    assert |taken| == playCount;
    AscendingLength(taken, 2, duration - 2);
    InRangeSmaller(taken, 2, duration - 2);
  }

  lemma InRangeSmaller(s: set<int>, lo: int, hi: int)
    ensures |InRange(s, lo, hi)| <= |s|
  {
    assert s == InRange(s, lo, hi) + (s - InRange(s, lo, hi));
  }

  // ---------------------------------------------------------------------
  // The simulator

  /** The `times` loop: draws slots until `playCount` distinct ones are
      taken, one draw per attempt. */
  method CollectTimes(duration: int, playCount: int, draws: seq<real>, start: nat)
    returns (times: Option<set<int>>, next: nat)
    requires forall i :: 0 <= i < |draws| ==> 0.0 <= draws[i] < 1.0
    requires duration >= 5 && start <= |draws|
    ensures Collect(duration, playCount, draws, start, {}) == Pack(times, next)
    ensures times.None? ==> next == |draws|
    ensures start <= next <= |draws|
    ensures times.Some? ==> |times.value| == playCount || (playCount < 0 && times.value == {})
    ensures times.Some? ==> forall t :: t in times.value ==> 2 <= t <= duration - 3
    ensures times.Some? ==> next - start >= |times.value|
  {
    next := start;
    var taken: set<int> := {};
    while |taken| < playCount
      invariant start <= next <= |draws|
      invariant Collect(duration, playCount, draws, start, {}) == Collect(duration, playCount, draws, next, taken)
      invariant |taken| <= next - start
      invariant playCount >= 0 ==> |taken| <= playCount
      invariant playCount < 0 ==> taken == {}
      invariant forall t :: t in taken ==> 2 <= t <= duration - 3
      decreases |draws| - next
    {
      if next >= |draws| {
        assert Collect(duration, playCount, draws, next, taken).None?;
        return None, next;
      }
      var slot := Slot(duration, draws[next]);
      assert Collect(duration, playCount, draws, next, taken) == Collect(duration, playCount, draws, next + 1, taken + {slot});
      assert |taken + {slot}| <= |taken| + 1 by {
        if slot in taken {
          assert taken + {slot} == taken;
        }
      }
      taken := taken + {slot};
      next := next + 1;
    }
    times := Some(taken);
  }

  /** The `times` loop followed by the sort: `playCount` distinct slots in
      ascending order. */
  method ScheduleTimes(duration: int, playCount: int, draws: seq<real>, start: nat)
    returns (times: Option<seq<int>>, next: nat)
    requires forall i :: 0 <= i < |draws| ==> 0.0 <= draws[i] < 1.0
    requires duration >= 5 && 0 <= playCount && start <= |draws|
    ensures Schedule(duration, playCount, draws, start) == Pack(times, next)
    ensures times.None? ==> next == |draws|
    ensures start <= next <= |draws|
    ensures times.Some? ==> |times.value| == playCount && next - start >= playCount
    ensures times.Some? ==> StrictlyAscending(times.value)
    ensures times.Some? ==> forall i :: 0 <= i < |times.value| ==> 2 <= times.value[i] <= duration - 3
  {
    var taken;
    taken, next := CollectTimes(duration, playCount, draws, start);
    if taken.None? { return None, next; }
    var sorted := Ascending(taken.value, 2, duration - 2);
    AscendingLength(taken.value, 2, duration - 2);
    assert InRange(taken.value, 2, duration - 2) == taken.value;
    times := Some(sorted);
  }

  /** The times of a list of events. */
  function Times(events: seq<MatchEvent>): (ts: seq<int>)
    ensures |ts| == |events|
    ensures forall i :: 0 <= i < |events| ==> ts[i] == events[i].time
  {
    seq(|events|, i requires 0 <= i < |events| => events[i].time)
  }

  /** The body of the plays loop for one time: who attacks, whether the
      shot is on target and, only when it is, whether it goes in. */
  method PlayOne(ratings: Ratings, draws: seq<real>, start: nat, time: int)
    returns (event: Option<MatchEvent>, next: nat)
    requires start <= |draws|
    requires Playable(ratings)
    ensures Play(ratings, draws, start, time) == Pack(event, next)
    ensures event.None? ==> next == |draws|
  {
    next := start;
    if next >= |draws| { return None, next; }
    var attackingTeam := if draws[next] < ratings.possessionChance then Player else Ai;
    next := next + 1;
    var attackValue := if attackingTeam == Player then ratings.playerAttack else ratings.aiAttack;
    var defenseValue := if attackingTeam == Player then ratings.aiDefense else ratings.playerDefense;
    var onTargetChance := OnTargetChance(attackValue, defenseValue);
    var scoringChance := ScoringChance(attackValue, defenseValue);
    if next >= |draws| { return None, next; }
    var onTarget := draws[next] < onTargetChance;
    next := next + 1;

    var kind := Miss;
    if onTarget {
      if next >= |draws| { return None, next; }
      var scored := draws[next] < scoringChance;
      next := next + 1;
      kind := if scored then Goal else Save;
    }
    event := Some(MatchEvent(time, attackingTeam, kind));
  }

  /** The plays loop: each time in order, with the goals added to the
      attacking team's score. */
  method PlayEvents(sortedTimes: seq<int>, ratings: Ratings, draws: seq<real>, start: nat)
    returns (events: Option<seq<MatchEvent>>, playerScore: int, aiScore: int, next: nat)
    requires start <= |draws|
    requires Playable(ratings)
    ensures Resolve(sortedTimes, ratings, draws, start) == Pack(events, next)
    ensures events.None? ==> next == |draws|
    ensures start <= next <= |draws|
    ensures events.Some? ==> Times(events.value) == sortedTimes
    ensures events.Some? ==> playerScore == GoalCount(events.value, Player) && aiScore == GoalCount(events.value, Ai)
  {
    next := start;
    playerScore := 0;
    aiScore := 0;
    var played: seq<MatchEvent> := [];
    assert sortedTimes[0..] == sortedTimes;
    PrependEmpty(Resolve(sortedTimes, ratings, draws, start));
    for i := 0 to |sortedTimes|
      invariant start <= next <= |draws|
      invariant Resolve(sortedTimes, ratings, draws, start) == Prepend(played, Resolve(sortedTimes[i..], ratings, draws, next))
      invariant playerScore == GoalCount(played, Player) && aiScore == GoalCount(played, Ai)
    {
      var remaining := sortedTimes[i..];
      assert remaining[0] == sortedTimes[i] && remaining[1..] == sortedTimes[i + 1..];
      var k := next;
      var event;
      event, next := PlayOne(ratings, draws, k, sortedTimes[i]);
      if event.None? {
        ResolveStops(remaining, ratings, draws, k);
        return None, playerScore, aiScore, next;
      }
      var e := event.value;
      ResolveStep(remaining, ratings, draws, k, e, next);
      if e.kind == Goal {
        if e.team == Player {
          playerScore := playerScore + 1;
        } else {
          aiScore := aiScore + 1;
        }
      }
      PrependTwice(played, [e], Resolve(sortedTimes[i + 1..], ratings, draws, next));
      GoalCountAppend(played, e, Player);
      GoalCountAppend(played, e, Ai);
      played := played + [e];
    }
    assert sortedTimes[|sortedTimes|..] == [];
    assert played + [] == played;
    events := Some(played);
  }

  /** Everything after the ratings: schedule the plays, resolve them, and
      score the match. */
  method PlayOut(duration: int, playCount: int, ratings: Ratings, league: int, power: real, draws: seq<real>)
    returns (outcome: Option<MatchResult>)
    requires forall i :: 0 <= i < |draws| ==> 0.0 <= draws[i] < 1.0
    requires 12 <= duration <= 17 && 6 <= playCount <= 10 && 3 <= |draws|
    requires Playable(ratings)
    requires league >= 0 && power >= 0.0
    ensures outcome == Finish(duration, playCount, ratings, league, power, draws)
    ensures |draws| < 9 ==> outcome.None?
    ensures outcome.Some? ==> outcome.value.duration == duration
    ensures outcome.Some? ==> |outcome.value.events| == playCount
    ensures outcome.Some? ==> forall i :: 0 <= i < |outcome.value.events| ==>
              2 <= outcome.value.events[i].time <= duration - 3
    ensures outcome.Some? ==> StrictlyAscending(Times(outcome.value.events))
    ensures outcome.Some? ==> outcome.value.playerScore == GoalCount(outcome.value.events, Player)
    ensures outcome.Some? ==> outcome.value.aiScore == GoalCount(outcome.value.events, Ai)
    ensures outcome.Some? ==> outcome.value.winner == WinnerOf(outcome.value.playerScore, outcome.value.aiScore)
    ensures outcome.Some? ==> outcome.value.xpEarned == XpEarned(outcome.value.winner, league, power)
    ensures outcome.Some? ==> outcome.value.xpEarned >= 0
  {
    var sortedTimes, next := ScheduleTimes(duration, playCount, draws, 3);
    if sortedTimes.None? { return None; }
    var events, playerScore, aiScore, used := PlayEvents(sortedTimes.value, ratings, draws, next);
    if events.None? { return None; }
    var played := events.value;
    var ts := sortedTimes.value;
    assert Times(played) == ts;
    forall i | 0 <= i < |played|
      ensures 2 <= played[i].time <= duration - 3
    {
      assert played[i].time == Times(played)[i] == ts[i];
    }
    var winner := WinnerOf(playerScore, aiScore);
    var xpEarned := XpEarned(winner, league, power);
    outcome := Some(MatchResult(playerScore, aiScore, winner, xpEarned, duration, played));
  }

  /** `simulateMatch(player, progress)`: the duration comes from the first
      draw, the AI's ratings from the second and the number of plays from
      the third; the events sit at distinct slots in ascending order; the
      scores count the goals; the winner and XP follow from the scores. */
  method SimulateMatch(player: Character, progress: Progress, draws: seq<real>) returns (outcome: Option<MatchResult>)
    requires forall i :: 0 <= i < |draws| ==> 0.0 <= draws[i] < 1.0
    requires progress.league >= 0 && progress.level >= 0
    requires NonNegative(player.stats)
    requires Attack(EffectiveStats(player)) + Defense(EffectiveStats(player)) > 0.0
    ensures outcome == Simulate(player, progress, draws)
    ensures |draws| < 9 ==> outcome.None?
    ensures outcome.Some? ==> outcome.value.duration == Duration(draws[0])
    ensures outcome.Some? ==> 12 <= outcome.value.duration <= 17
    ensures outcome.Some? ==> |outcome.value.events| == PlayCount(Duration(draws[0]), draws[2])
    ensures outcome.Some? ==> 6 <= |outcome.value.events| <= 10
    ensures outcome.Some? ==> forall i :: 0 <= i < |outcome.value.events| ==>
              2 <= outcome.value.events[i].time <= outcome.value.duration - 3
    ensures outcome.Some? ==> StrictlyAscending(Times(outcome.value.events))
    ensures outcome.Some? ==> outcome.value.playerScore == GoalCount(outcome.value.events, Player)
    ensures outcome.Some? ==> outcome.value.aiScore == GoalCount(outcome.value.events, Ai)
    ensures outcome.Some? ==> outcome.value.winner == WinnerOf(outcome.value.playerScore, outcome.value.aiScore)
    ensures outcome.Some? ==>
              outcome.value.xpEarned == XpEarned(outcome.value.winner, progress.league, EffectiveStats(player).power)
    ensures outcome.Some? ==> outcome.value.xpEarned >= 0
  {
    if |draws| < 3 { return None; }
    var duration := Duration(draws[0]);
    var ratings := RateMatch(player, progress, draws[1]);
    var playCount := PlayCount(duration, draws[2]);
    var power := EffectiveStats(player).power;
    assert Simulate(player, progress, draws) == Finish(duration, playCount, ratings, progress.league, power, draws);
    outcome := PlayOut(duration, playCount, ratings, progress.league, power, draws);
  }
}
