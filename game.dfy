/** The leaderboard of the game: a bounded collection of score entries,
    kept in descending order of score, with stable order among ties. */
module Game {
  import PyStr

  /** Stored player names are cut to this many characters. */
  const MaxNameLength := 32

  /** The name stored when the submitted name is empty or all whitespace. */
  const DefaultName := "무명 파일럿"

  /** One entry shown on the leaderboard (an immutable value). */
  datatype ScoreEntry = ScoreEntry(playerName: string, score: int)

  /** The error `submit` raises; `app/game.py` raises a `ValueError` with this message,
      which mentions the score (점수). */
  datatype Error = InvalidScore
  {
    function Message(): (m: string)
      ensures |m| >= 2 && m[..2] == "점수"
    {
      "점수는 0 이상이어야 합니다."
    }
  }

  datatype Result<T> = Ok(value: T) | Err(error: Error)

  // ---------------------------------------------------------------------------
  // Name normalisation

  /** `(player_name.strip() or DefaultName)[:32]`. */
  function NormalizeName(playerName: string): (r: string)
    ensures 0 < |r| <= MaxNameLength && !PyStr.IsSpace(r[0])
    ensures |r| < MaxNameLength ==> !PyStr.IsSpace(r[|r| - 1])
    ensures PyStr.AllSpace(playerName) ==> r == DefaultName
    ensures !PyStr.AllSpace(playerName) ==>
              r <= PyStr.Strip(playerName)
              && |r| == if |PyStr.Strip(playerName)| < MaxNameLength then |PyStr.Strip(playerName)| else MaxNameLength
  {
    var stripped := PyStr.Strip(playerName);
    var normalized := if stripped == [] then DefaultName else stripped;
    PyStr.SliceTo(normalized, MaxNameLength)
  }

  /** A name with no whitespace at either end is only cut to 32 characters. */
  lemma NormalizeTrimmedName(playerName: string)
    requires playerName != []
    requires !PyStr.IsSpace(playerName[0]) && !PyStr.IsSpace(playerName[|playerName| - 1])
    ensures NormalizeName(playerName) == PyStr.SliceTo(playerName, MaxNameLength)
  {
  }

  // ---------------------------------------------------------------------------
  // Ranking order

  /** Scores never increase from one entry to any later one. */
  predicate SortedDesc(s: seq<ScoreEntry>) {
    forall i, j | 0 <= i < j < |s| :: s[i].score >= s[j].score
  }

  /** The entries of `s` whose score is `k`, in their order in `s`. */
  function WithScore(s: seq<ScoreEntry>, k: int): seq<ScoreEntry> {
    if s == [] then []
    else (if s[0].score == k then [s[0]] else []) + WithScore(s[1..], k)
  }

  /** `output` is what a stable sort in descending order of score makes of
      `input`: it is sorted, and for every score the entries with that
      score appear in `output` in exactly the order they have in `input`. */
  ghost predicate IsStableSortDesc(input: seq<ScoreEntry>, output: seq<ScoreEntry>) {
    SortedDesc(output) && forall k :: WithScore(output, k) == WithScore(input, k)
  }

  /** Index of the first entry that has the highest score. */
  function FirstMaxIndex(s: seq<ScoreEntry>): (i: nat)
    requires s != []
    ensures i < |s|
    ensures ScoresAtMost(s, s[i].score)
    ensures forall j | 0 <= j < i :: s[j].score < s[i].score
  {
    if |s| == 1 then 0
    else
      var i := FirstMaxIndex(s[1..]);
      if s[0].score >= s[1..][i].score then 0 else i + 1
  }

  /** Python's `list.sort(key=lambda item: item.score, reverse=True)`:
      a stable sort in descending order of score. Defined here by
      repeatedly taking out the first entry with the highest score. */
  function SortByScoreDesc(s: seq<ScoreEntry>): (r: seq<ScoreEntry>)
    ensures multiset(r) == multiset(s)
    ensures SortedDesc(r)
    ensures forall k :: ScoresAtMost(s, k) ==> ScoresAtMost(r, k)
    decreases |s|
  {
    if s == [] then []
    else
      var i := FirstMaxIndex(s);
      var rest := s[..i] + s[i + 1..];
      TakeOut(s, i);
      var sorted := SortByScoreDesc(rest);
      ConsSorted(s[i], sorted);
      [s[i]] + sorted
  }

  lemma TakeOut(s: seq<ScoreEntry>, i: nat)
    requires i < |s| && ScoresAtMost(s, s[i].score)
    ensures multiset(s) == multiset{s[i]} + multiset(s[..i] + s[i + 1..])
    ensures |s[..i] + s[i + 1..]| < |s|
    ensures forall k :: ScoresAtMost(s, k) ==> ScoresAtMost(s[..i] + s[i + 1..], k)
  {
    var rest := s[..i] + s[i + 1..];
    assert s == s[..i] + [s[i]] + s[i + 1..];
    forall k | ScoresAtMost(s, k) ensures ScoresAtMost(rest, k) {
      forall j | 0 <= j < |rest| ensures rest[j].score <= k {
        assert rest[j] == if j < i then s[j] else s[j + 1];
      }
    }
  }

  lemma ConsSorted(x: ScoreEntry, s: seq<ScoreEntry>)
    requires SortedDesc(s) && ScoresAtMost(s, x.score)
    ensures SortedDesc([x] + s)
    ensures forall k :: x.score <= k && ScoresAtMost(s, k) ==> ScoresAtMost([x] + s, k)
  {
  }

  /** No entry of `s` scores more than `k`. */
  predicate ScoresAtMost(s: seq<ScoreEntry>, k: int) {
    forall j | 0 <= j < |s| :: s[j].score <= k
  }

  lemma WithScoreAppend(a: seq<ScoreEntry>, b: seq<ScoreEntry>, k: int)
    ensures WithScore(a + b, k) == WithScore(a, k) + WithScore(b, k)
  {
    if a != [] {
      var head := if a[0].score == k then [a[0]] else [];
      assert (a + b)[0] == a[0] && (a + b)[1..] == a[1..] + b;
      calc {
        WithScore(a + b, k);
        head + WithScore(a[1..] + b, k);
        { WithScoreAppend(a[1..], b, k); }
        head + (WithScore(a[1..], k) + WithScore(b, k));
        (head + WithScore(a[1..], k)) + WithScore(b, k);
        WithScore(a, k) + WithScore(b, k);
      }
    } else {
      assert a + b == b;
    }
  }

  lemma WithScoreNone(s: seq<ScoreEntry>, k: int)
    requires forall j | 0 <= j < |s| :: s[j].score != k
    ensures WithScore(s, k) == []
  {
  }

  lemma WithScoreMember(s: seq<ScoreEntry>, k: int, x: ScoreEntry)
    requires x in WithScore(s, k)
    ensures x in s && x.score == k
  {
  }

  /** The sort keeps, for every score, the order of the entries with that score. */
  lemma {:induction false} SortByScoreDescIsStable(s: seq<ScoreEntry>)
    ensures IsStableSortDesc(s, SortByScoreDesc(s))
    decreases |s|
  {
    if s != [] {
      var i := FirstMaxIndex(s);
      var rest := s[..i] + s[i + 1..];
      assert s == s[..i] + [s[i]] + s[i + 1..];
      SortByScoreDescIsStable(rest);
      forall k ensures WithScore(SortByScoreDesc(s), k) == WithScore(s, k) {
        TakeFirstMaxKeepsGroup(s, i, k);
        WithScoreAppend([s[i]], SortByScoreDesc(rest), k);
      }
    }
  }

  /** Taking out the first entry with the highest score and putting it in
      front leaves every score group in its order. */
  lemma TakeFirstMaxKeepsGroup(s: seq<ScoreEntry>, i: nat, k: int)
    requires i < |s| && forall j | 0 <= j < i :: s[j].score < s[i].score
    ensures WithScore(s, k) == WithScore([s[i]], k) + WithScore(s[..i] + s[i + 1..], k)
  {
    assert s == s[..i] + [s[i]] + s[i + 1..];
    WithScoreAppend(s[..i], s[i + 1..], k);
    WithScoreAppend(s[..i] + [s[i]], s[i + 1..], k);
    WithScoreAppend(s[..i], [s[i]], k);
    if k == s[i].score {
      WithScoreNone(s[..i], k);
    } else {
      assert WithScore([s[i]], k) == [];
    }
  }

  /** A sorted sequence is determined by its score groups: two sorted
      sequences that agree on the entries of every score are equal. So
      `IsStableSortDesc` pins down one output for each input. */
  lemma {:induction false} SortedDeterminedByScoreGroups(a: seq<ScoreEntry>, b: seq<ScoreEntry>)
    requires SortedDesc(a) && SortedDesc(b)
    requires forall k :: WithScore(a, k) == WithScore(b, k)
    ensures a == b
    decreases |a|
  {
    var k0 := if a != [] then a[0].score else if b != [] then b[0].score else 0;
    assert WithScore(a, k0) == WithScore(b, k0);
    if a != [] && b != [] {
      SameHead(a, b);
      SameTailGroups(a, b);
      SortedDeterminedByScoreGroups(a[1..], b[1..]);
      assert a == [a[0]] + a[1..] && b == [b[0]] + b[1..];
    }
  }

  /** Two non-empty sorted sequences with the same score groups start with
      the same entry. */
  lemma SameHead(a: seq<ScoreEntry>, b: seq<ScoreEntry>)
    requires SortedDesc(a) && SortedDesc(b) && a != [] && b != []
    requires forall k :: WithScore(a, k) == WithScore(b, k)
    ensures a[0] == b[0]
  {
    var ka, kb := a[0].score, b[0].score;
    assert WithScore(a, ka) == WithScore(b, ka);
    assert WithScore(a, kb) == WithScore(b, kb);
    WithScoreMember(b, ka, a[0]);
    WithScoreMember(a, kb, b[0]);
    assert WithScore(a, ka) == [a[0]] + WithScore(a[1..], ka);
    assert WithScore(b, kb) == [b[0]] + WithScore(b[1..], kb);
  }

  /** Removing the same first entry from two sequences with the same score
      groups leaves sequences with the same score groups. */
  lemma SameTailGroups(a: seq<ScoreEntry>, b: seq<ScoreEntry>)
    requires a != [] && b != [] && a[0] == b[0]
    requires forall k :: WithScore(a, k) == WithScore(b, k)
    ensures forall k :: WithScore(a[1..], k) == WithScore(b[1..], k)
  {
    forall k ensures WithScore(a[1..], k) == WithScore(b[1..], k) {
      var head := if a[0].score == k then [a[0]] else [];
      assert WithScore(a, k) == head + WithScore(a[1..], k);
      assert WithScore(b, k) == head + WithScore(b[1..], k);
      assert WithScore(a, k) == WithScore(b, k);
      assert WithScore(a[1..], k) == WithScore(a, k)[|head|..];
      assert WithScore(b[1..], k) == WithScore(b, k)[|head|..];
    }
  }

  /** `SortByScoreDesc` is the one stable descending sort. */
  lemma StableSortIsSortByScoreDesc(input: seq<ScoreEntry>, output: seq<ScoreEntry>)
    requires IsStableSortDesc(input, output)
    ensures output == SortByScoreDesc(input)
  {
    SortByScoreDescIsStable(input);
    SortedDeterminedByScoreGroups(output, SortByScoreDesc(input));
  }

  // ---------------------------------------------------------------------------
  // Inserting into a sorted ranking

  /** The number of leading entries whose score is at least `k`: in a
      sorted ranking, the place a new score `k` takes, after every entry
      that scores at least as well, ties included. */
  function RankOf(s: seq<ScoreEntry>, k: int): (p: nat)
    ensures p <= |s|
    ensures forall j | 0 <= j < p :: s[j].score >= k
    ensures p < |s| ==> s[p].score < k
  {
    if s == [] || s[0].score < k then 0 else 1 + RankOf(s[1..], k)
  }

  /** `s` with `e` placed just after the last entry that scores at least `e.score`. */
  function InsertByScore(s: seq<ScoreEntry>, e: ScoreEntry): (r: seq<ScoreEntry>)
    ensures |r| == |s| + 1
  {
    var p := RankOf(s, e.score);
    s[..p] + [e] + s[p..]
  }

  /** In a sorted ranking the new entry goes after every entry that scores
      at least as well, ties included, and before every entry that scores
      less; the entries keep their order around it. */
  lemma InsertAfterTies(s: seq<ScoreEntry>, e: ScoreEntry)
    requires SortedDesc(s)
    ensures var p := RankOf(s, e.score); var r := InsertByScore(s, e);
      && |r| == |s| + 1 && r[p] == e
      && (forall j | 0 <= j < |s| :: s[j].score >= e.score <==> j < p)
      && (forall j | 0 <= j < p :: r[j] == s[j])
      && (forall j | p <= j < |s| :: r[j + 1] == s[j])
  {
    var p := RankOf(s, e.score);
    var r := InsertByScore(s, e);
    assert r == s[..p] + [e] + s[p..];
    forall j | 0 <= j < p ensures r[j] == s[j] {
    }
    forall j | p <= j < |s| ensures r[j + 1] == s[j] {
    }
    forall j | p <= j < |s| ensures s[j].score < e.score {
      assert s[p].score >= s[j].score;
    }
  }

  /** On an already sorted ranking, appending and stable-sorting is the
      same as inserting the new entry after all entries that score at
      least as well. */
  lemma AppendSortIsInsert(s: seq<ScoreEntry>, e: ScoreEntry)
    requires SortedDesc(s)
    ensures SortByScoreDesc(s + [e]) == InsertByScore(s, e)
  {
    InsertKeepsSorted(s, e);
    InsertKeepsGroups(s, e);
    StableSortIsSortByScoreDesc(s + [e], InsertByScore(s, e));
  }

  /** Inserting by score keeps a ranking sorted. */
  lemma InsertKeepsSorted(s: seq<ScoreEntry>, e: ScoreEntry)
    requires SortedDesc(s)
    ensures SortedDesc(InsertByScore(s, e))
  {
  }

  /** On a sorted ranking, inserting by score and appending agree on the
      order of the entries of every score. */
  lemma InsertKeepsGroups(s: seq<ScoreEntry>, e: ScoreEntry)
    requires SortedDesc(s)
    ensures forall k :: WithScore(InsertByScore(s, e), k) == WithScore(s + [e], k)
  {
    var p := RankOf(s, e.score);
    assert s == s[..p] + s[p..];
    forall j | p <= j < |s| ensures s[j].score < e.score {
      assert s[p].score >= s[j].score;
    }
    forall k ensures WithScore(InsertByScore(s, e), k) == WithScore(s + [e], k) {
      WithScoreAppend(s[..p] + [e], s[p..], k);
      WithScoreAppend(s[..p], [e], k);
      WithScoreAppend(s[..p] + s[p..], [e], k);
      WithScoreAppend(s[..p], s[p..], k);
      if k == e.score {
        WithScoreNone(s[p..], k);
      }
    }
  }

  // ---------------------------------------------------------------------------
  // The leaderboard invariant

  /** How many entries a board built with `maxEntries` keeps: Python's
      `entries[:max_entries]` keeps none when `max_entries` is zero or
      negative, starting from a board of at most one entry. */
  function Capacity(maxEntries: int): nat {
    if maxEntries > 0 then maxEntries else 0
  }

  /** Every entry that `submit` stores: a non-negative score and a
      non-empty name of at most 32 characters that does not start with
      whitespace, and does not end with whitespace unless it was cut. */
  predicate WellFormed(e: ScoreEntry) {
    && e.score >= 0 && 0 < |e.playerName| <= MaxNameLength
    && !PyStr.IsSpace(e.playerName[0])
    && (|e.playerName| < MaxNameLength ==> !PyStr.IsSpace(e.playerName[|e.playerName| - 1]))
  }

  ghost predicate ValidRanking(s: seq<ScoreEntry>, maxEntries: int) {
    SortedDesc(s) && |s| <= Capacity(maxEntries)
    && forall j | 0 <= j < |s| :: WellFormed(s[j])
  }

  /** Lines 36-38 of `submit` on values: append, stable sort, cut to `max_entries`. */
  function Admit(s: seq<ScoreEntry>, e: ScoreEntry, maxEntries: int): (r: seq<ScoreEntry>)
    ensures SortedDesc(r)
    ensures multiset(r) <= multiset(s) + multiset{e}
    ensures |s| <= Capacity(maxEntries) ==> |r| <= Capacity(maxEntries)
  {
    var sorted := SortByScoreDesc(s + [e]);
    var r := PyStr.SliceTo(sorted, maxEntries);
    assert sorted == r + sorted[|r|..];
    assert forall i | 0 <= i < |r| :: r[i] == sorted[i];
    r
  }

  /** Admitting a well-formed entry keeps a valid ranking valid. */
  lemma AdmitKeepsValid(s: seq<ScoreEntry>, e: ScoreEntry, maxEntries: int)
    requires ValidRanking(s, maxEntries) && WellFormed(e)
    ensures ValidRanking(Admit(s, e, maxEntries), maxEntries)
  {
    var sorted := SortByScoreDesc(s + [e]);
    var r := Admit(s, e, maxEntries);
    forall j | 0 <= j < |r| ensures WellFormed(r[j]) {
      assert r[j] == sorted[j];
      assert sorted[j] in multiset(s + [e]);
    }
  }

  /** With room on the board, admitting an entry inserts it after every
      entry that scores at least as well and drops nothing. */
  lemma AdmitWithRoom(s: seq<ScoreEntry>, e: ScoreEntry, maxEntries: int)
    requires SortedDesc(s) && |s| < Capacity(maxEntries)
    ensures Admit(s, e, maxEntries) == InsertByScore(s, e)
  {
    AppendSortIsInsert(s, e);
    var ins := InsertByScore(s, e);
    SliceToCapacity(ins, maxEntries);
    assert ins[..|ins|] == ins;
  }

  /** On a full board, an entry that ranks inside the board is inserted
      after every entry that scores at least as well, and exactly the
      previous last entry is dropped. */
  lemma AdmitEvictsLast(s: seq<ScoreEntry>, e: ScoreEntry, maxEntries: int)
    requires SortedDesc(s) && |s| == Capacity(maxEntries)
    requires RankOf(s, e.score) < |s|
    ensures var p := RankOf(s, e.score);
      Admit(s, e, maxEntries) == s[..p] + [e] + s[p..|s| - 1]
  {
    var p := RankOf(s, e.score);
    AppendSortIsInsert(s, e);
    var ins := InsertByScore(s, e);
    SliceToCapacity(ins, maxEntries);
    var want := s[..p] + [e] + s[p..|s| - 1];
    forall j | 0 <= j < |s| ensures ins[j] == want[j] {
      if j > p {
        assert ins[j] == s[j - 1] == want[j];
      }
    }
    assert ins[..|s|] == want;
  }

  /** On a full board, an entry that scores no better than every entry,
      ties included, is the one dropped: the board is unchanged. */
  lemma AdmitRankedOut(s: seq<ScoreEntry>, e: ScoreEntry, maxEntries: int)
    requires SortedDesc(s) && |s| == Capacity(maxEntries)
    requires RankOf(s, e.score) == |s|
    ensures Admit(s, e, maxEntries) == s
  {
    AppendSortIsInsert(s, e);
    var ins := InsertByScore(s, e);
    SliceToCapacity(ins, maxEntries);
    assert ins[..|s|] == s;
  }

  /** At the cutoff the newer of two tied entries is the one dropped: on a
      full board whose last entry has the new score, nothing changes. */
  lemma TiedNewcomerDropped(s: seq<ScoreEntry>, e: ScoreEntry, maxEntries: int)
    requires SortedDesc(s) && |s| == Capacity(maxEntries) && s != []
    requires s[|s| - 1].score == e.score
    ensures Admit(s, e, maxEntries) == s
  {
    RankOfCountsAtLeast(s, e.score);
    AdmitRankedOut(s, e, maxEntries);
  }

  /** When the last entry of a sorted ranking scores at least `k`, every
      entry does, so `k` takes the place at the end. */
  lemma RankOfCountsAtLeast(s: seq<ScoreEntry>, k: int)
    requires SortedDesc(s) && s != [] && s[|s| - 1].score >= k
    ensures RankOf(s, k) == |s|
  {
  }

  /** Cutting a ranking that overflows by at most one keeps its first `Capacity` entries. */
  lemma SliceToCapacity(t: seq<ScoreEntry>, maxEntries: int)
    requires |t| <= Capacity(maxEntries) + 1
    ensures PyStr.SliceTo(t, maxEntries) == t[..if |t| <= Capacity(maxEntries) then |t| else Capacity(maxEntries)]
  {
  }

  // ---------------------------------------------------------------------------
  // The leaderboard

  /** `Leaderboard` of `app/game.py`: a bounded ranked collection. Each
      method is one atomic step (the Python code serialises them with a lock). */
  class Leaderboard {
    const maxEntries: int
    var entries: seq<ScoreEntry>

    ghost predicate Valid()
      reads this
    {
      ValidRanking(entries, maxEntries)
    }

    /** `Leaderboard(max_entries=10)`: the capacity defaults to 10. */
    constructor (maxEntries: int := 10)
      ensures Valid()
      ensures this.maxEntries == maxEntries && entries == []
    {
      this.maxEntries := maxEntries;
      entries := [];
    }

    /** Rejects a negative score without touching the board; otherwise
        stores the entry with the normalised name, re-ranks, cuts to
        `maxEntries` and returns the new ranking. */
    method Submit(playerName: string, score: int) returns (r: Result<seq<ScoreEntry>>)
      requires Valid()
      modifies this
      ensures Valid()
      ensures score < 0 ==> r == Err(InvalidScore) && entries == old(entries)
      ensures score >= 0 ==>
                var e := ScoreEntry(NormalizeName(playerName), score);
                && entries == Admit(old(entries), e, maxEntries)
                && entries == PyStr.SliceTo(InsertByScore(old(entries), e), maxEntries)
                && r == Ok(entries)
    {
      if score < 0 {
        return Err(InvalidScore);
      }
      var name := NormalizeName(playerName);
      var entry := ScoreEntry(name, score);
      AdmitKeepsValid(entries, entry, maxEntries);
      AppendSortIsInsert(entries, entry);
      entries := entries + [entry];
      entries := SortByScoreDesc(entries);
      entries := PyStr.SliceTo(entries, maxEntries);
      r := Ok(entries);
    }

    /** A copy of the current ranking; the board is not changed. */
    method Entries() returns (s: seq<ScoreEntry>)
      ensures s == entries
    {
      s := entries;
    }

    /** Empties the board. */
    method Clear()
      modifies this
      ensures Valid() && entries == []
    {
      entries := [];
    }
  }
}
