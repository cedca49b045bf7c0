/** The two state transitions of the match screen (app/match/page.tsx):
    the playback tick that reveals events and keeps the displayed score,
    and the update that records a finished match in the player's progress.
    Wall-clock time is a parameter: each tick receives the seconds elapsed
    since playback started. */
module MatchPage {
  import opened Text
  import opened Types
  import opened Traits
  import opened Simulation

  /** What the screen shows while a simulated match plays back. */
  class Playback {
    var events: seq<MatchEvent>
    var duration: int
    var index: nat
    var elapsed: real
    var playerScore: nat
    var aiScore: nat

    /** The displayed score counts exactly the goals among the events
        revealed so far. */
    ghost predicate Valid()
      reads this
    {
      index <= |events|
      && playerScore == GoalCount(events[..index], Player)
      && aiScore == GoalCount(events[..index], Ai)
    }

    /** A new result resets the index, the score and the clock. */
    constructor (result: MatchResult)
      ensures Valid()
      ensures events == result.events && duration == result.duration
      ensures index == 0 && elapsed == 0.0 && playerScore == 0 && aiScore == 0
    {
      events := result.events;
      duration := result.duration;
      index := 0;
      elapsed := 0.0;
      playerScore := 0;
      aiScore := 0;
    }

    /** One interval tick: reveals at most the next event, and only once its
        time has come; a goal adds one to its team's score. The result says
        whether the match clock has run out. */
    method Tick(seconds: real) returns (finished: bool)
      requires Valid()
      modifies this
      ensures Valid()
      ensures events == old(events) && duration == old(duration)
      ensures elapsed == seconds
      ensures index == old(index) + 1 <==> old(index) < |events| && seconds >= events[old(index)].time as real
      ensures index == old(index) || index == old(index) + 1
      ensures index == old(index) ==> playerScore == old(playerScore) && aiScore == old(aiScore)
      ensures index == old(index) + 1 ==>
                var e := events[old(index)];
                playerScore == old(playerScore) + (if e.kind == Goal && e.team == Player then 1 else 0)
                && aiScore == old(aiScore) + (if e.kind == Goal && e.team == Ai then 1 else 0)
      ensures finished <==> seconds >= duration as real
    {
      elapsed := seconds;
      if index < |events| && seconds >= events[index].time as real {
        var current := events[index];
        assert events[..index + 1] == events[..index] + [current];
        GoalCountAppend(events[..index], current, Player);
        GoalCountAppend(events[..index], current, Ai);
        index := index + 1;
        if current.kind == Goal {
          if current.team == Player {
            playerScore := playerScore + 1;
          } else {
            aiScore := aiScore + 1;
          }
        }
      }
      finished := seconds >= duration as real;
    }
  }

  /** Once every event is revealed, the screen shows the result's score. */
  lemma PlaybackEndsAtResultScore(result: MatchResult, index: nat, playerScore: nat, aiScore: nat)
    requires result.playerScore == GoalCount(result.events, Player)
    requires result.aiScore == GoalCount(result.events, Ai)
    requires index == |result.events|
    requires playerScore == GoalCount(result.events[..index], Player)
    requires aiScore == GoalCount(result.events[..index], Ai)
    ensures playerScore == result.playerScore && aiScore == result.aiScore
  {
    assert result.events[..index] == result.events;
  }

  // ---------------------------------------------------------------------
  // Recording a finished match

  /** `Math.max(1, Math.floor(wins / 3) + 1)`: one league per three wins. */
  function LeagueFor(wins: int): (league: int)
    ensures league >= 1
    ensures wins >= 0 ==> 3 * (league - 1) <= wins < 3 * league
  {
    var l := wins / 3 + 1;
    if l > 1 then l else 1
  }

  lemma LeagueMonotone(w1: int, w2: int)
    requires w1 <= w2
    ensures LeagueFor(w1) <= LeagueFor(w2)
  {
    assert w1 / 3 <= w2 / 3;
  }

  /** The log line written for a result. The simulator sets no tactic, so
      none is copied. */
  function HistoryEntry(result: MatchResult, entryId: string, timestamp: int, characterName: string): (e: MatchHistoryEntry)
    ensures e.playerScore == result.playerScore && e.aiScore == result.aiScore
    ensures e.winner == result.winner && e.xpEarned == result.xpEarned
    ensures e.tactic == None && e.characterName == characterName
  {
    MatchHistoryEntry(entryId, timestamp, result.playerScore, result.aiScore, result.winner,
                      result.xpEarned, None, characterName)
  }

  /** The first `n` entries of a log (`slice(0, n)`). */
  function Take(history: seq<MatchHistoryEntry>, n: nat): (r: seq<MatchHistoryEntry>)
    ensures |r| == if |history| < n then |history| else n
    ensures forall i :: 0 <= i < |r| ==> r[i] == history[i]
  {
    if |history| <= n then history else history[..n]
  }

  const HistoryLimit: nat := 10

  /** The post-match update of the match-start snapshot `base`. The entry id
      and timestamp, which come from the random source and the clock, are
      parameters. */
  function RecordMatch(base: Progress, result: MatchResult, entryId: string, timestamp: int, characterName: string): (p: Progress)
    ensures p.xp == base.xp + result.xpEarned
    ensures p.wins == base.wins + 1 <==> result.winner == PlayerWins
    ensures p.wins == base.wins || p.wins == base.wins + 1
    ensures p.losses == base.losses + 1 <==> result.winner == AiWins
    ensures p.losses == base.losses || p.losses == base.losses + 1
    ensures p.league == LeagueFor(p.wins)
    ensures p.level == LevelFromXp(p.xp)
    ensures p.upgrades == base.upgrades
    ensures |p.history| == if |base.history| < HistoryLimit then |base.history| + 1 else HistoryLimit
    ensures p.history[0] == HistoryEntry(result, entryId, timestamp, characterName)
    ensures forall i :: 1 <= i < |p.history| ==> p.history[i] == base.history[i - 1]
  {
    var newXp := base.xp + result.xpEarned;
    var newWins := base.wins + (if result.winner == PlayerWins then 1 else 0);
    var newLosses := base.losses + (if result.winner == AiWins then 1 else 0);
    var entry := HistoryEntry(result, entryId, timestamp, characterName);
    base.(xp := newXp, wins := newWins, losses := newLosses, league := LeagueFor(newWins),
          level := LevelFromXp(newXp), history := Take([entry] + base.history, HistoryLimit))
  }

  /** A progress record whose derived fields agree with its counters. */
  predicate Coherent(p: Progress)
  {
    p.xp >= 0 && p.wins >= 0 && p.losses >= 0
    && p.level == LevelFromXp(p.xp)
    && p.league == LeagueFor(p.wins)
    && |p.history| <= HistoryLimit
  }

  /** Recording a match with non-negative XP keeps progress coherent, and
      never lowers the level or the league. */
  lemma {:induction false} RecordMatchKeepsCoherent(base: Progress, result: MatchResult, entryId: string, timestamp: int, characterName: string)
    requires Coherent(base)
    requires result.xpEarned >= 0
    ensures Coherent(RecordMatch(base, result, entryId, timestamp, characterName))
    ensures RecordMatch(base, result, entryId, timestamp, characterName).level >= base.level
    ensures RecordMatch(base, result, entryId, timestamp, characterName).league >= base.league
  {
    var p := RecordMatch(base, result, entryId, timestamp, characterName);
    LevelMonotone(base.xp, p.xp);
    LeagueMonotone(base.wins, p.wins);
  }

  /** For a simulated result, the win counter moves exactly when the player
      outscored the AI, and the loss counter exactly when the AI did. */
  lemma {:induction false} RecordedOutcomeFollowsScore(base: Progress, result: MatchResult, entryId: string, timestamp: int, characterName: string)
    requires result.winner == WinnerOf(result.playerScore, result.aiScore)
    ensures var p := RecordMatch(base, result, entryId, timestamp, characterName);
      (p.wins == base.wins + 1 <==> result.playerScore > result.aiScore)
      && (p.losses == base.losses + 1 <==> result.aiScore > result.playerScore)
      && (result.playerScore == result.aiScore ==> p.wins == base.wins && p.losses == base.losses)
  {
    var p := RecordMatch(base, result, entryId, timestamp, characterName);
    assert p.wins == base.wins + 1 <==> result.winner == PlayerWins;
    assert p.losses == base.losses + 1 <==> result.winner == AiWins;
  }
}
