# BlitzBrawler rules engine in Dafny

BlitzBrawler is a browser football game. Its players are NFT characters,
either public sample characters or tokens held in the player's wallet. This
project models the game's rules engine and proves properties of it:

- how raw token metadata becomes a character (`lib/characters.ts`);
- how attributes become stats, rarity and visuals, and how XP becomes a level (`lib/traits.ts`);
- how a match is simulated (`game/simulateMatch.ts`);
- how the match screen plays back a result and records it in the player's progress (`app/match/page.tsx`);
- how upgrade points are spent and stadium skins unlocked (`app/upgrade/page.tsx`);
- how progress is keyed, defaulted and merged on load (`lib/storage.ts`);
- how IPFS addresses are rewritten onto a public gateway (`lib/web3.ts`).

The modules are:

| module | file | models |
|---|---|---|
| `Text` | `text.dfy` | the JavaScript string operations the code relies on: lower-casing, `startsWith`, `includes`, first-occurrence search |
| `Types` | `types.dfy` | the records of `lib/types.ts` |
| `Traits` | `traits.dfy` | `lib/traits.ts` |
| `Simulation` | `simulate_match.dfy` | `game/simulateMatch.ts` |
| `MatchPage` | `match_page.dfy` | the playback tick and post-match update of `app/match/page.tsx` |
| `UpgradePage` | `upgrade_page.dfy` | `app/upgrade/page.tsx` |
| `Characters` | `characters.dfy` | `lib/characters.ts` |
| `Storage` | `storage.dfy` | `lib/storage.ts` |
| `Web3` | `web3.dfy` | `resolveIpfs` and `resolveImageUri` of `lib/web3.ts` |

Numbers are modelled as follows:

- JavaScript numbers are `real`s. `Math.round` is `(x + 0.5).Floor`.
- The 32-bit wrap-around of `hash |= 0` is written out as `ToInt32`.
- Randomness is an explicit sequence of draws in [0, 1). `Math.random()` takes the next draw.
- The simulator returns `None` when the draws run out.

Code that updates state step by step keeps its form, and each such method is proved against a specification function:

- `HashString` returns `Hash`, `ComputeStats` returns `DerivedStats`, and `GetLevelFromXp` returns `LevelFromXp`.
- The simulator's loops are methods proved to return what the recursive definitions return. `CollectTimes` matches `Collect`, `PlayOne` matches `Play`, `PlayEvents` matches `Resolve`, and `SimulateMatch` matches `Simulate`. Each also returns the index of the next unused draw.
- The playback refs and the upgrade screen's progress become classes whose methods change their fields.

Two behaviours of the code are worth stating:

- The tactic has no effect on a match. The match page passes the chosen tactic as a third argument (app/match/page.tsx:59), but `simulateMatch` declares two parameters and never reads it. So the modifiers that the tactic cards advertise (app/match/page.tsx:155-184), such as "ATK +15% / DEF -15%", are applied by no rating. The number of plays is always clamped to [6, 10], and the result carries no tactic. The modelled simulator has no tactic parameter.
- A gateway URL is cut after the separator where JavaScript's left-to-right, non-overlapping `split("/ipfs/")` puts its last piece, not after the textually last "/ipfs/". For `https://x/ipfs/ipfs/abc` the path is `ipfs/abc` (`Web3.OverlappingSeparators`).

## Model

| member | source | states |
|---|---|---|
| Traits.Clamp | lib/traits.ts:38-40 | the result lies in [min, max] and is the value itself when that is already inside |
| Traits.ToInt32 | lib/traits.ts:46 | `x` truncated by a bitwise or with 0 lies in the signed 32-bit range and is congruent to x modulo 2^32 |
| Traits.ShiftStep | lib/traits.ts:45-46 | `(h << 5) - h + c` followed by a bitwise or with 0 equals the 32-bit wrap of 31·h + c |
| Traits.Hash | lib/traits.ts:42-49 | the absolute value of the wrapped hash lies in [0, 2^31] |
| Traits.HashString | lib/traits.ts:42-49 | the loop with shift, subtract and bitwise or with 0 computes `Hash` for every input |
| Traits.KeepNumberChars | lib/traits.ts:52 | removing everything but digits and dots leaves only digits and dots, and never lengthens the text |
| Traits.KeepNumberCharsSingle | lib/traits.ts:52 | one character is kept exactly when it is a digit or a dot |
| Traits.KeepNumberCharsKeepsAll | lib/traits.ts:52 | text of digits and dots only is left unchanged |
| Traits.KeepNumberCharsDropsAll | lib/traits.ts:52 | text without digits and dots filters to the empty text |
| Traits.KeepNumberCharsConcat | lib/traits.ts:52 | filtering a concatenation concatenates the filtered parts, so with the single-character case the filter is fixed character by character |
| Traits.Fraction | lib/traits.ts:52 | the digits after a leading dot, up to the first non-digit; non-empty exactly when a dot is followed by a digit |
| Traits.ParseDecimal | lib/traits.ts:52 | `parseFloat` yields a number exactly when the text starts with a digit or with "." then a digit, and that number is non-negative |
| Traits.LeadingDigitsOf | lib/traits.ts:52 | the leading digits of digits followed by a non-digit are exactly those digits |
| Traits.ParseWhole | lib/traits.ts:52 | digits followed by neither a digit nor a dot parse as their decimal value |
| Traits.ParseFraction | lib/traits.ts:52 | `whole.fraction` followed by a non-digit parses as whole + fraction / 10^(number of fraction digits); either part may be empty, not both |
| Traits.ParseNumber | lib/traits.ts:52 | the number read from a value is never negative |
| Traits.ParseNumberDropsUnit | lib/traits.ts:52 | a decimal numeral with a dot followed by a unit without digits or dots ("7.5 kg") reads as the numeral's value |
| Traits.ParseWholeDropsUnit | lib/traits.ts:52 | a whole numeral followed by a unit without digits or dots ("85%") reads as the numeral's value |
| Traits.NormalizeValue | lib/traits.ts:51-58 | the value lies in [0, 100]; a numeric text gives its clamped number, any other text gives 40 + hash mod 61 |
| Traits.FirstMatch | lib/traits.ts:60-63 | `find` returns the first index whose attribute satisfies the test, and none when no attribute does |
| Traits.GetRarity | lib/traits.ts:60-68 | "common" when no trait type mentions "rarity", else the lowercased value of the first one that does |
| Traits.RarityMultiplier | lib/traits.ts:130 | a listed rarity gives its table entry; any other gives 1 + (hash mod 10)/100 in [1, 1.09]; every multiplier lies in [1, 1.4] |
| Traits.OriginBonus | lib/traits.ts:132-136 | 1.05 exactly when the first origin or genesis trait mentions "genesis" or "early", else 1 |
| Traits.SourceBonus | lib/traits.ts:138 | 1.08 exactly for wallet characters, else 1 |
| Traits.TraitMap | lib/traits.ts:93-96 | the map holds exactly the lowercased trait types that occur, each with the last value given for it |
| Traits.ApplyUpgrades | lib/traits.ts:148-152 | after the upgrades every trainable stat lies in [40, 110] |
| Traits.PowerFrom | lib/traits.ts:154-156 | power lies in [45, 130] |
| Traits.DerivedStats | lib/traits.ts:87-159 | all five stats lie in [40, 110], power in [45, 130], and the rarity is `GetRarity` of the attributes |
| Traits.AddStatTrait | lib/traits.ts:99-104 | one trait-map entry's update, stat by stat |
| Traits.Raise | lib/traits.ts:100-104 | a raised stat lies in [40, 100] and is never below a stat that was at most 100 |
| Traits.AddStatTraitRoutes | lib/traits.ts:99-104 | a key raises exactly the stats it names, each into [40, 100] and never down from a value at most 100; every other stat and power stay as they were |
| Traits.AddFlavour | lib/traits.ts:107-126 | a key naming a stat, rarity, background, origin or genesis changes nothing; otherwise only control and stamina change, both into [40, 110] and never down from a value at most 110 |
| Traits.StatTraitStep | lib/traits.ts:99-104 | one trait-map entry's update of the stats, as a sequence of field assignments, equals the specification step |
| Traits.FlavourStep | lib/traits.ts:108-126 | one attribute's flavour boost, as field assignments, equals the specification step |
| Traits.AddStatTraits | lib/traits.ts:98-105 | the loop over the trait map applies every entry in insertion order |
| Traits.AddFlavours | lib/traits.ts:107-127 | the loop over the attributes applies the flavour boost of each in order |
| Traits.ComputeStats | lib/traits.ts:87-159 | the mutating computation returns exactly `DerivedStats` of its inputs |
| Traits.DefaultStats | lib/traits.ts:87-159 | a public character with no attributes and no upgrades gets the base stats with power 58 and rarity "common" |
| Traits.PowerMonotone | lib/traits.ts:154-156 | power never decreases when the rarity, origin or source multiplier grows |
| Traits.WalletPowerAtLeastPublic | lib/traits.ts:138-156 | with the same attributes and upgrades, a wallet character's power is at least the public one's |
| Traits.LegendaryBeatsCommon | lib/traits.ts:12-19 | for in-range stats, a legendary rarity gives strictly more power than a common one |
| Traits.DeriveAura | lib/traits.ts:70-74 | the aura is one of the six palette colours |
| Traits.DeriveStadium | lib/traits.ts:76-85 | the first background trait's value, else one of the five named stadium effects |
| Traits.Glow | lib/traits.ts:169 | the glow lies in [1.1, 1.34], inside the clamp range [0.5, 1.6] |
| Traits.DeriveVisuals | lib/traits.ts:161-178 | the stadium is the upgrade's choice when upgrades are given, else the derived one; frame and tier are "prestige" exactly for wallet characters; the particle is the rarity; aura and glow are in range |
| Traits.Round | game/simulateMatch.ts:96 | `Math.round` lies within a half of its argument, halves rounding up |
| Traits.Threshold | lib/traits.ts:189-197 | every level threshold is a multiple of 250 |
| Traits.ThresholdClosedForm | lib/traits.ts:189-197 | the XP needed to reach level l is 125·l·(l−1) |
| Traits.ThresholdMonotone | lib/traits.ts:189-197 | thresholds never decrease with the level and strictly increase from level 1 on |
| Traits.LevelFromXp | lib/traits.ts:189-197 | the level is at least 1 and is the unique l with threshold(l) ≤ xp < threshold(l+1) |
| Traits.LevelUnique | lib/traits.ts:189-197 | any level whose bracket holds the XP is the computed level |
| Traits.LevelMonotone | lib/traits.ts:189-197 | more XP never gives a lower level |
| Traits.LevelClosedForm | lib/traits.ts:189-197 | 125·l·(l−1) ≤ xp < 125·l·(l+1) for the computed level l |
| Traits.GetLevelFromXp | lib/traits.ts:189-197 | the while loop returns `LevelFromXp` |
| Traits.GetXpForNextLevel | lib/traits.ts:199-211 | the level is `LevelFromXp`; the XP into the level is xp minus its threshold; the span to the next level is 250·level; for non-negative XP the progress lies inside the span |
| Traits.UpgradePoints | lib/traits.ts:184-187 | one point per level above 1 |
| Traits.UpgradePointsMonotone | lib/traits.ts:184-187 | more XP never gives fewer points |
| Traits.ConstructorRarityGivesNaN | lib/traits.ts:130 | as written, a "Constructor" rarity makes the power NaN |
| Traits.AsWrittenAgreesElsewhere | lib/traits.ts:130 | for every other rarity the as-written power equals the modelled power |
| Simulation.KeepKeyChars | game/simulateMatch.ts:16 | keeps only lower-case letters and digits, and never lengthens the key |
| Simulation.KeepKeyCharsSingle | game/simulateMatch.ts:16 | one character is kept exactly when it is a lower-case letter or a digit |
| Simulation.KeepKeyCharsKeepsAll | game/simulateMatch.ts:16 | text of lower-case letters and digits only is left unchanged |
| Simulation.KeepKeyCharsConcat | game/simulateMatch.ts:16 | filtering a concatenation concatenates the filtered parts |
| Simulation.NormalizeKey | game/simulateMatch.ts:15-16 | the key is never longer than the text |
| Simulation.NormalizeKeyIdempotent | game/simulateMatch.ts:15-16 | a normalised key normalises to itself |
| Simulation.TraitValue | game/simulateMatch.ts:17-26 | the value read is never negative when the fallback is not |
| Simulation.TraitValueFirstLabelled | game/simulateMatch.ts:17-26 | the fallback when no trait matches a label; else the parsed value of the first matching trait, or the fallback when it is not numeric |
| Simulation.EffectiveStats | game/simulateMatch.ts:28-35 | non-negative character stats give non-negative effective stats |
| Simulation.EffectiveStatsReadsLabels | game/simulateMatch.ts:28-35 | each stat reads its own labels: power from Power/Overall/OVR/Rating, speed from Speed, strength from Strength, agility from Agility, control from Control/Skill, stamina from Stamina/Endurance, each falling back to the character's stat of the same name |
| Simulation.Attack | game/simulateMatch.ts:37-41 | the attack rating of non-negative stats is non-negative |
| Simulation.Defense | game/simulateMatch.ts:42-45 | the defence rating of non-negative stats is non-negative |
| Simulation.Scale | game/simulateMatch.ts:4 | a draw in [0, 1) times a positive width lies in [0, width) |
| Simulation.RandomBetween | game/simulateMatch.ts:3-5 | a draw in [0, 1) lands in [min, max) |
| Simulation.AiMultiplier | game/simulateMatch.ts:48 | the AI multiplier lies in [0.85, 1.2] |
| Simulation.PossessionChance | game/simulateMatch.ts:53-57 | the possession chance lies in [0.35, 0.65] |
| Simulation.OnTargetChance | game/simulateMatch.ts:74 | the on-target chance lies in [0.25, 0.7] |
| Simulation.ScoringChance | game/simulateMatch.ts:75 | the scoring chance lies in [0.15, 0.6] |
| Simulation.Duration | game/simulateMatch.ts:12 | a match lasts 12 to 17 seconds |
| Simulation.PlayCount | game/simulateMatch.ts:59 | a match has 6 to 10 plays |
| Simulation.PlayCountFitsSlots | game/simulateMatch.ts:59-63 | the play count never exceeds the number of distinct time slots, so the sampling loop can finish |
| Simulation.Slot | game/simulateMatch.ts:62 | every sampled time lies in [2, duration − 3] |
| Simulation.Ascending | game/simulateMatch.ts:64 | the sorted times are strictly ascending and all come from the set |
| Simulation.AscendingListsAll | game/simulateMatch.ts:64 | sorting keeps every time of the set |
| Simulation.AscendingLength | game/simulateMatch.ts:64 | sorting yields exactly as many times as the set holds |
| Simulation.GoalCount | game/simulateMatch.ts:78-91 | a team never scores more goals than there are events |
| Simulation.GoalCountAppend | game/simulateMatch.ts:82-88 | an event adds one to its team's count when it is a goal, and nothing otherwise |
| Simulation.WinnerOf | game/simulateMatch.ts:94 | the player wins iff they outscore the AI, the AI wins iff it outscores the player, and a draw iff the scores are equal |
| Simulation.XpEarned | game/simulateMatch.ts:95-96 | the XP is at least the outcome's base XP for a non-negative league and power |
| Simulation.XpIncreasesWithLeague | game/simulateMatch.ts:96 | each league adds exactly 20 XP |
| Simulation.XpByOutcome | game/simulateMatch.ts:95-96 | a win earns 70 more XP than a draw, and a draw 30 more than a loss |
| Simulation.RatingSums | game/simulateMatch.ts:49-50 | positive ratings stay positive after scaling by the AI multipliers |
| Simulation.RateMatch | game/simulateMatch.ts:37-57 | the attack and defence sums the chances divide by are positive, and the possession chance lies in [0.35, 0.65] |
| Simulation.Collect | game/simulateMatch.ts:60-63 | the sampling loop as a recursive definition; when it finishes it stands within the draws |
| Simulation.CollectStopsAtFirst | game/simulateMatch.ts:60-63 | the loop holds exactly the slots of the draws it consumed, stops at the first draw that completes `playCount` distinct slots, and fails exactly when all remaining draws together give fewer |
| Simulation.CollectTimes | game/simulateMatch.ts:60-63 | the loop returns what `Collect` returns, with the next unused draw, and fails only with every draw consumed; the times are exactly the requested number of distinct slots in [2, duration − 3] |
| Simulation.ScheduleTimes | game/simulateMatch.ts:59-64 | the sampling and the sort return what the recursive schedule returns; the times are as many as the plays, strictly ascending, and in [2, duration − 3] |
| Simulation.Times | game/simulateMatch.ts:91 | the event times in order |
| Simulation.Play | game/simulateMatch.ts:70-92 | one play: the player attacks exactly when the first draw is below the possession chance; the shot misses exactly when the second draw is not below the on-target chance, using two draws; otherwise a third draw decides a goal exactly when it is below the scoring chance; the play succeeds whenever three draws remain |
| Simulation.PlayOne | game/simulateMatch.ts:70-92 | the body of the plays loop returns what `Play` returns, with the next unused draw, and fails only with every draw consumed |
| Simulation.Resolve | game/simulateMatch.ts:70-92 | the plays loop as a recursive definition: one event per time with the same times, at least two draws per play, and success whenever three draws per play remain |
| Simulation.PlayEvents | game/simulateMatch.ts:66-92 | the loop returns what `Resolve` returns, with the next unused draw, and fails only with every draw consumed; each score equals that team's goal count |
| Simulation.PlayOut | game/simulateMatch.ts:59-105 | returns exactly `Finish`; the result has the given duration and play count, ascending in-range times, scores equal to the goal counts, the winner those scores imply, and that winner's XP |
| Simulation.EnoughDrawsFinish | game/simulateMatch.ts:59-92 | a match is played out whenever the slot draws complete the times and three draws per play remain after them |
| Simulation.Finish | game/simulateMatch.ts:59-105 | schedule from draw 3 on, resolve the plays, score the match |
| Simulation.Simulate | game/simulateMatch.ts:11-106 | draw 0 fixes the duration, draw 1 the AI jitter, draw 2 the play count, and `Finish` the rest |
| Simulation.SimulateMatch | game/simulateMatch.ts:11-106 | returns exactly `Simulate`: a 12 to 17 second match whose duration comes from the first draw and whose number of events is the play count of the third; times strictly ascending in [2, duration − 3]; scores counting the goals; the winner and non-negative XP following the scores |
| MatchPage.Playback.Tick | app/match/page.tsx:70-102 | the displayed score always equals the goals among the revealed events; at most the next event is revealed, exactly when its time has come; a goal moves only its team's score; the tick reports the end exactly when the clock reaches the duration |
| MatchPage.Playback.constructor | app/match/page.tsx:61-64 | playback starts with no events revealed and a 0–0 score |
| MatchPage.PlaybackEndsAtResultScore | app/match/page.tsx:90-95 | once every event is revealed, the displayed score is the result's score |
| MatchPage.LeagueFor | app/match/page.tsx:110 | the league is at least 1, and it is the unique l with 3(l−1) ≤ wins < 3l |
| MatchPage.LeagueMonotone | app/match/page.tsx:110 | more wins never lower the league |
| MatchPage.HistoryEntry | app/match/page.tsx:113-122 | the entry carries the result's scores, winner and XP and the character's name |
| MatchPage.Take | app/match/page.tsx:131 | `slice(0, n)` keeps the first min(n, length) entries unchanged |
| MatchPage.RecordMatch | app/match/page.tsx:106-132 | the XP grows by the earned XP; a win adds exactly one win and a loss one loss; league and level are recomputed; upgrades stay; the new entry heads a history of at most 10 with the older entries shifted down |
| MatchPage.RecordMatchKeepsCoherent | app/match/page.tsx:106-132 | recording a match keeps level and league consistent with XP and wins, and never lowers either |
| MatchPage.RecordedOutcomeFollowsScore | app/match/page.tsx:107-109 | for a simulated result, wins move exactly when the player outscored the AI, and losses exactly when the AI did |
| UpgradePage.AvailablePoints | app/upgrade/page.tsx:19-25 | never negative; positive exactly when fewer points are spent than earned, and then it is the difference |
| UpgradePage.Upgraded | app/upgrade/page.tsx:28-37 | with no point available nothing changes; otherwise only the chosen stat gains one point |
| UpgradePage.UpgradeKeepsBudget | app/upgrade/page.tsx:28-37 | spending never exceeds the earned points and spends exactly one point when one is available |
| UpgradePage.Unlocked | app/upgrade/page.tsx:143 | options unlock in order: an unlocked option has every earlier option unlocked |
| UpgradePage.UnlockedByXp | app/upgrade/page.tsx:143 | stadium option i is unlocked exactly when the XP reaches the start of level i + 1 |
| UpgradePage.FirstStadiumAlwaysUnlocked | app/upgrade/page.tsx:143 | the first skin is open from the start |
| UpgradePage.UpgradeScreen.UpgradeStat | app/upgrade/page.tsx:28-37 | the progress becomes `Upgraded` of the old progress, and the budget invariant is kept |
| UpgradePage.UpgradeScreen.SetStadiumFx | app/upgrade/page.tsx:39-47 | only the stadium skin changes |
| UpgradePage.UpgradeScreen.ChooseStadium | app/upgrade/page.tsx:142-148 | the click sets the chosen skin when it is unlocked and changes nothing otherwise |
| Text.Lower | game/simulateMatch.ts:16 | `toLowerCase` keeps the length and lower-cases each ASCII letter in place |
| Text.StartsWith | lib/web3.ts:163 | `startsWith` holds exactly when the pattern occurs at index 0 |
| Text.Contains | lib/traits.ts:62 | `includes`: the pattern occurs at some index, its properties stated by `ContainsIffIndex` and `ContainsEmptyAndPrefix` |
| Text.ContainsEmptyAndPrefix | lib/traits.ts:62 | `includes` holds for the empty pattern and for any prefix |
| Text.IndexFrom | lib/web3.ts:169 | a found index is at or after the start and the pattern occurs there |
| Text.IndexFromIsFirst | lib/web3.ts:169 | the found index is the first occurrence, and nothing is found only when there is no occurrence |
| Text.ContainsIffIndex | lib/web3.ts:168-169 | `includes` holds exactly when the search finds an index |
| Text.Join | lib/traits.ts:71 | `join` of no parts is empty; otherwise its length is the parts' total plus one separator between each two neighbours, and it starts with the first part |
| Text.JoinSingle | lib/traits.ts:71 | one part joins to itself |
| Text.JoinConcat | lib/traits.ts:71 | joining two non-empty lists is the two joins with one separator between, so the parts keep their order and neighbours are separated once |
| Characters.NormalizeAttributes | lib/characters.ts:16-26 | one trait per raw entry, in order, from `attributes` or else `traits`; a missing type becomes "Trait" and a missing value "Unknown" |
| Characters.FirstImage | lib/characters.ts:38 | the first non-empty of image, image_url and media_url, else "" |
| Characters.CharacterImage | lib/characters.ts:38-39 | never empty: the resolved URI, or the placeholder when that is empty |
| Characters.CharacterName | lib/characters.ts:42 | the metadata's non-empty name, else "Token #" and the token id or the id |
| Characters.MapMetadataToCharacter | lib/characters.ts:28-51 | id, source and token id pass through; stats, rarity and visuals are those derived from the normalised attributes; power lies in [45, 130]; the tier is prestige exactly for wallet characters |
| Characters.TraitsFieldIsFallback | lib/characters.ts:17-21 | traits given under `traits` yield the same character as the same traits under `attributes` |
| Characters.NoTraitsGivesDefaults | lib/characters.ts:17-21 | metadata without an attribute array gives a common character with the base stats |
| Characters.IpfsImageOnGateway | lib/characters.ts:38-39 | an `ipfs://` image ends up on the public gateway |
| Storage.Suffix | lib/storage.ts:7 | never empty; "guest" when the address is missing or empty |
| Storage.ProgressKey | lib/storage.ts:6-9 | "blitzbrawler:progress:" followed by the suffix |
| Storage.SelectedKey | lib/storage.ts:11-14 | "blitzbrawler:selected:" followed by the suffix |
| Storage.KeysNeverCollide | lib/storage.ts:6-14 | a progress key never equals a selection key |
| Storage.KeyIffSameSuffix | lib/storage.ts:6-14 | two addresses share a key exactly when their suffixes agree |
| Storage.KeysIgnoreCase | lib/storage.ts:7 | addresses that differ only in letter case share their keys |
| Storage.GuestKeys | lib/storage.ts:7 | a missing and an empty address both use the guest keys |
| Storage.DefaultProgress | lib/storage.ts:16-32 | zero XP, wins, losses and upgrades, level and league 1, the "Neon Wave" skin and an empty history |
| Storage.DefaultProgressIsCoherent | lib/storage.ts:16-32 | the default level is the level of zero XP, and the default progress is coherent |
| Storage.LoadProgress | lib/storage.ts:34-54 | without a window, without stored text or with unparseable text the default; otherwise each stored field over its default, and always the level of the loaded XP |
| Storage.Stored | lib/storage.ts:56-62 | the saved record carries every field |
| Storage.SaveLoadRoundTrip | lib/storage.ts:44-50 | save then load gives the progress with its level recomputed, so it comes back unchanged exactly when its level matches its XP |
| Storage.StoredLevelIgnored | lib/storage.ts:45-49 | a stored level never affects the loaded progress |
| Storage.CoherentProgressReloads | lib/storage.ts:44-50 | coherent progress survives a save and a reload |
| Web3.ReplaceFirst | lib/web3.ts:164 | `replace` with a string changes nothing when the pattern is absent and replaces a leading occurrence |
| Web3.LastPieceStart | lib/web3.ts:169-170 | the last piece of the split starts inside the text |
| Web3.LastPieceHasNoSeparator | lib/web3.ts:169-170 | the last piece holds no separator |
| Web3.LastPieceFollowsSeparator | lib/web3.ts:169-170 | when a separator occurs, the last piece directly follows one |
| Web3.SchemePath | lib/web3.ts:164-165 | the scheme is removed, then one leading "ipfs/" if present |
| Web3.SegmentPath | lib/web3.ts:169-170 | the path holds no "/ipfs/" and directly follows a "/ipfs/" that ends the URL's prefix |
| Web3.ResolveIpfs | lib/web3.ts:161-174 | "" stays ""; every other result is the input or starts with the gateway |
| Web3.ResolveSchemeUri | lib/web3.ts:163-167 | an `ipfs://` URI becomes the gateway followed by its path, one leading "ipfs/" removed |
| Web3.ResolveGatewayUrl | lib/web3.ts:168-172 | a URL with a "/ipfs/" segment becomes the gateway followed by the text after one of its segments, which holds no further "/ipfs/" |
| Web3.ResolveOtherUri | lib/web3.ts:173 | any other URI comes back unchanged |
| Web3.ResolveImageUri | lib/web3.ts:190-192 | the same rewriting as `resolveIpfs` |
| Web3.GatewaySegment | lib/web3.ts:168-171 | in a gateway URL, the first "/ipfs/" is the gateway's own |
| Web3.IndexFromShift | lib/web3.ts:169 | searching past a prefix is searching the rest, shifted |
| Web3.GatewayUrlIsFixpoint | lib/web3.ts:168-172 | a gateway URL whose path holds no "/ipfs/" is left unchanged |
| Web3.ResolveIdempotentOnGatewayUrls | lib/web3.ts:168-172 | rewriting a gateway URL twice gives the same as rewriting it once |
| Web3.OverlapFirstSeparator | lib/web3.ts:169 | in `https://x/ipfs/ipfs/abc` the first "/ipfs/" starts at index 9 |
| Web3.OverlapNoSecondSeparator | lib/web3.ts:169 | after that separator the URL holds no other "/ipfs/" |
| Web3.OverlappingSeparators | lib/web3.ts:168-172 | `https://x/ipfs/ipfs/abc` resolves to the gateway followed by `ipfs/abc`: the split cuts after the first of the overlapping separators |

## Findings

| source | as written | input that shows it | evidently intended | confidence | as-written member | corrected member |
|---|---|---|---|---|---|---|
| lib/traits.ts:130 | `RARITY_MULTIPLIER[rarityKey] ?? …` also reaches keys every object inherits; `constructor` and `__proto__` are not nullish, so the fallback is skipped and the product is NaN | a trait `Rarity: Constructor` (or `__proto__`) gives power NaN, outside [45, 130] | only the table's own entries, else the hash fallback | high, not executed | Traits.ConstructorRarityGivesNaN | Traits.RarityMultiplier |

## Left out

- Numbers are exact reals: IEEE rounding, infinities and NaN are not modelled, except the NaN of the finding below.
- Traits.Glow: the same inherited-key lookup in `deriveVisuals` is not modelled; the glow uses the table's own entries only.
- Text.Lower: a character is a Unicode scalar value, so a character outside the Basic Multilingual Plane hashes as one code above 0xFFFF where `charCodeAt` reads two surrogate units. Lower-casing is ASCII only; full Unicode case mapping is not modelled.
- JavaScript lists integer-like object keys before the other keys. The trait map is kept in insertion order instead.
- JSON `null` fields, values that are not strings, and `String()` of other types are not modelled. Metadata fields are present strings or absent. Stored progress fields are numbers, an upgrades record and a history list, each present or absent.
- Storage.LoadProgress: a stored `upgrades` object replaces the default whole, so partial upgrade objects are not modelled.
- The match tactic is not modelled. The simulator sets none, so history entries carry none.
- Timers, `Date.now`, `localStorage`, audio, network and wallet calls are not modelled. Elapsed seconds, timestamps, entry ids and storage reads are parameters.
- UpgradePage.UpgradeScreen.UpgradeStat: the page computes `availablePoints` at render time. The model checks the current progress on every click, so several clicks before a re-render are not modelled.
- Simulation.SimulateMatch: randomness is a finite sequence of draws. When the draws run out the result is `None`. The source's sampling loop runs until it has enough distinct times, so the model does not capture a loop that never stops.
- Simulation.SimulateMatch: requires non-negative stats and league, and a positive attack plus defence. The 0/0 NaN case of the chances is excluded.
- `getPublicCharacters`, `saveSelectedCharacter` and `loadSelectedCharacter` are not modelled. They read a data file or the browser store.
