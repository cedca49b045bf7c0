/** Persisted progress (lib/storage.ts): the per-address storage keys, the
    starting progress, and the merge that turns a stored record back into
    progress. The browser store itself is outside the model: what a read
    returns is a parameter. */
module Storage {
  import opened Text
  import opened Types
  import opened Traits
  import opened MatchPage

  const ProgressPrefix: string := "blitzbrawler:progress:"
  const SelectedPrefix: string := "blitzbrawler:selected:"

  /** The per-address part of a key: the lowercased address, or "guest"
      when the address is missing or empty. */
  function Suffix(address: Option<string>): (s: string)
    ensures s != []
    ensures address.None? || address.value == [] ==> s == "guest"
  {
    if address.Some? && address.value != [] then Lower(address.value) else "guest"
  }

  /** `getProgressKey(address)`. */
  function ProgressKey(address: Option<string>): (k: string)
    ensures |k| == |ProgressPrefix| + |Suffix(address)|
    ensures StartsWith(k, ProgressPrefix) && k[|ProgressPrefix|..] == Suffix(address)
  {
    ProgressPrefix + Suffix(address)
  }

  /** `getSelectedKey(address)`. */
  function SelectedKey(address: Option<string>): (k: string)
    ensures |k| == |SelectedPrefix| + |Suffix(address)|
    ensures StartsWith(k, SelectedPrefix) && k[|SelectedPrefix|..] == Suffix(address)
  {
    SelectedPrefix + Suffix(address)
  }

  /** A progress key and a selection key never coincide, whatever the two
      addresses. */
  lemma {:induction false} KeysNeverCollide(a: Option<string>, b: Option<string>)
    ensures ProgressKey(a) != SelectedKey(b)
  {
    assert ProgressKey(a)[13] == ProgressPrefix[13] == 'p';
    assert SelectedKey(b)[13] == SelectedPrefix[13] == 's';
  }

  /** Two addresses share a key exactly when they have the same suffix, for
      both kinds of key. */
  lemma {:induction false} KeyIffSameSuffix(a: Option<string>, b: Option<string>)
    ensures ProgressKey(a) == ProgressKey(b) <==> Suffix(a) == Suffix(b)
    ensures SelectedKey(a) == SelectedKey(b) <==> Suffix(a) == Suffix(b)
  {
    if ProgressKey(a) == ProgressKey(b) {
      assert ProgressKey(a)[|ProgressPrefix|..] == ProgressKey(b)[|ProgressPrefix|..];
    }
    if SelectedKey(a) == SelectedKey(b) {
      assert SelectedKey(a)[|SelectedPrefix|..] == SelectedKey(b)[|SelectedPrefix|..];
    }
  }

  /** Addresses that differ only in letter case share their keys. */
  lemma {:induction false} KeysIgnoreCase(a: string, b: string)
    requires |a| == |b|
    requires forall i :: 0 <= i < |a| ==> LowerChar(a[i]) == LowerChar(b[i])
    ensures ProgressKey(Some(a)) == ProgressKey(Some(b))
    ensures SelectedKey(Some(a)) == SelectedKey(Some(b))
  {
    assert Lower(a) == Lower(b);
    KeyIffSameSuffix(Some(a), Some(b));
  }

  /** A missing address and an empty one both use the guest keys. */
  lemma {:induction false} GuestKeys(address: Option<string>)
    requires address.None? || address.value == []
    ensures ProgressKey(address) == ProgressPrefix + "guest"
    ensures SelectedKey(address) == SelectedPrefix + "guest"
  {
    assert Suffix(address) == "guest";
  }

  /** `defaultProgress()`. */
  function DefaultProgress(): (p: Progress)
    ensures p.xp == 0 && p.wins == 0 && p.losses == 0 && p.history == []
    ensures p.upgrades == UpgradeState(0, 0, 0, 0, "Neon Wave")
    ensures p.level == 1 && p.league == 1
  {
    Progress(0, 1, 1, 0, 0, UpgradeState(0, 0, 0, 0, "Neon Wave"), [])
  }

  /** The starting progress is coherent: its level is the level of zero XP
      and its league that of zero wins. */
  lemma {:induction false} DefaultProgressIsCoherent()
    ensures Coherent(DefaultProgress())
    ensures DefaultProgress().level == LevelFromXp(0)
  {
    assert Threshold(1) == 0 && Threshold(2) == 250;
    LevelUnique(0, 1);
  }

  /** The fields a parsed record carries; a missing field is `None`. The
      spread copies `upgrades` as a whole object. */
  datatype StoredProgress = StoredProgress(
    xp: Option<int>,
    level: Option<int>,
    league: Option<int>,
    wins: Option<int>,
    losses: Option<int>,
    upgrades: Option<UpgradeState>,
    history: Option<seq<MatchHistoryEntry>>)

  /** What reading the progress key gives: no browser window, no (or an
      empty) stored text, text that is not JSON, or a parsed record. */
  datatype StorageRead = NoWindow | Missing | Unparseable | Parsed(stored: StoredProgress)

  function Or<T>(stored: Option<T>, fallback: T): T
  {
    if stored.Some? then stored.value else fallback
  }

  /** `loadProgress`, after the read: the stored fields over the defaults,
      with the level always recomputed from the XP. */
  function LoadProgress(read: StorageRead): (p: Progress)
    ensures !read.Parsed? ==> p == DefaultProgress()
    ensures p.level == LevelFromXp(p.xp)
    ensures read.Parsed? ==>
              var s := read.stored;
              p.xp == Or(s.xp, 0) && p.league == Or(s.league, 1)
              && p.wins == Or(s.wins, 0) && p.losses == Or(s.losses, 0)
              && p.upgrades == Or(s.upgrades, DefaultProgress().upgrades)
              && p.history == Or(s.history, [])
  {
    if read.Parsed? then
      var s := read.stored;
      var d := DefaultProgress();
      var xp := Or(s.xp, d.xp);
      Progress(xp, LevelFromXp(xp), Or(s.league, d.league), Or(s.wins, d.wins),
               Or(s.losses, d.losses), Or(s.upgrades, d.upgrades), Or(s.history, d.history))
    else
      DefaultProgress()
  }

  /** The record `saveProgress` writes: every field present. */
  function Stored(p: Progress): (s: StoredProgress)
    ensures s.xp.Some? && s.level.Some? && s.league.Some? && s.wins.Some?
    ensures s.losses.Some? && s.upgrades.Some? && s.history.Some?
  {
    StoredProgress(Some(p.xp), Some(p.level), Some(p.league), Some(p.wins), Some(p.losses),
                   Some(p.upgrades), Some(p.history))
  }

  /** Saving and loading gives the progress back exactly when its level is
      the level of its XP; otherwise only the level changes. */
  lemma {:induction false} SaveLoadRoundTrip(p: Progress)
    ensures LoadProgress(Parsed(Stored(p))) == p <==> p.level == LevelFromXp(p.xp)
    ensures LoadProgress(Parsed(Stored(p))) == p.(level := LevelFromXp(p.xp))
  {
    var q := LoadProgress(Parsed(Stored(p)));
    assert q.xp == p.xp && q.league == p.league && q.wins == p.wins && q.losses == p.losses;
    assert q.upgrades == p.upgrades && q.history == p.history;
  }

  /** A stored level is never trusted: two records that differ only in
      their level load to the same progress. */
  lemma {:induction false} StoredLevelIgnored(s: StoredProgress, level: Option<int>)
    ensures LoadProgress(Parsed(s.(level := level))) == LoadProgress(Parsed(s))
  {
  }

  /** Progress kept coherent by play survives a save and a reload
      unchanged. */
  lemma {:induction false} CoherentProgressReloads(p: Progress)
    requires Coherent(p)
    ensures LoadProgress(Parsed(Stored(p))) == p
  {
    SaveLoadRoundTrip(p);
  }
}
