/** The records the game passes between its parts (lib/types.ts). */
module Types {
  import opened Text

  /** One metadata attribute of an NFT. */
  datatype Trait = Trait(traitType: string, value: string)

  /** The six gameplay stats. */
  datatype Stats = Stats(power: real, speed: real, strength: real, agility: real, control: real, stamina: real)

  /** Spent upgrade points and the chosen stadium skin. */
  datatype UpgradeState = UpgradeState(power: int, speed: int, strength: int, agility: int, stadiumFx: string)

  datatype CharacterSource = Public | Wallet

  datatype Tier = Standard | Prestige

  datatype Visuals = Visuals(aura: string, frame: string, particle: string, stadium: string, glow: real, tier: Tier)

  datatype Character = Character(
    id: string,
    name: string,
    image: string,
    attributes: seq<Trait>,
    source: CharacterSource,
    tokenId: Option<string>,
    rarity: string,
    stats: Stats,
    visuals: Visuals)

  datatype Team = Player | Ai

  datatype EventKind = Goal | Save | Miss

  datatype Winner = PlayerWins | AiWins | Draw

  datatype Tactic = Balanced | Offensive | Defensive | Aggressive

  datatype MatchEvent = MatchEvent(time: int, team: Team, kind: EventKind)

  /** What one simulated match produces. The simulator sets no tactic. */
  datatype MatchResult = MatchResult(
    playerScore: int,
    aiScore: int,
    winner: Winner,
    xpEarned: int,
    duration: int,
    events: seq<MatchEvent>)

  /** One line of the match log; `tactic` is absent for every entry the game writes. */
  datatype MatchHistoryEntry = MatchHistoryEntry(
    id: string,
    timestamp: int,
    playerScore: int,
    aiScore: int,
    winner: Winner,
    xpEarned: int,
    tactic: Option<Tactic>,
    characterName: string)

  datatype Progress = Progress(
    xp: int,
    level: int,
    league: int,
    wins: int,
    losses: int,
    upgrades: UpgradeState,
    history: seq<MatchHistoryEntry>)
}
