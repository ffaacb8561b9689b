/** The scenarios of the repository's tests, stated as verified methods
    over the model. The ranking scenarios hold for any names; the names
    the tests use are stored unchanged (`TestNamesStoredAsGiven`). */
module GameScenarios {
  import PyStr
  import opened Game

  /** The names the ranking tests submit have no surrounding whitespace and
      are short, so they are stored as given. */
  lemma TestNamesStoredAsGiven(name: string)
    requires name in ["Alice", "Bob", "Cara", "Dan", "Ace", "Nova"]
    ensures NormalizeName(name) == name
  {
    NormalizeTrimmedName(name);
  }

  /** The insertions of `TopThreeScenario`. */
  lemma TopThreeInsertions(alice: ScoreEntry, bob: ScoreEntry, cara: ScoreEntry, dan: ScoreEntry)
    requires alice.score == 100 && bob.score == 150 && cara.score == 120 && dan.score == 90
    ensures PyStr.SliceTo(InsertByScore([], alice), 3) == [alice]
    ensures PyStr.SliceTo(InsertByScore([alice], bob), 3) == [bob, alice]
    ensures PyStr.SliceTo(InsertByScore([bob, alice], cara), 3) == [bob, cara, alice]
    ensures PyStr.SliceTo(InsertByScore([bob, cara, alice], dan), 3) == [bob, cara, alice]
  {
  }

  /** Capacity 3; Alice 100, Bob 150, Cara 120 and Dan 90 leave
      Bob, Cara, Alice; Dan is dropped. */
  method TopThreeScenario(alice: string, bob: string, cara: string, dan: string)
    returns (ranking: seq<ScoreEntry>)
    ensures ranking == [ScoreEntry(NormalizeName(bob), 150), ScoreEntry(NormalizeName(cara), 120),
                        ScoreEntry(NormalizeName(alice), 100)]
  {
    var board := new Leaderboard(3);
    var a, b := ScoreEntry(NormalizeName(alice), 100), ScoreEntry(NormalizeName(bob), 150);
    var c, d := ScoreEntry(NormalizeName(cara), 120), ScoreEntry(NormalizeName(dan), 90);
    TopThreeInsertions(a, b, c, d);
    var r := board.Submit(alice, 100);
    r := board.Submit(bob, 150);
    r := board.Submit(cara, 120);
    r := board.Submit(dan, 90);
    ranking := board.Entries();
  }

  /** A negative score is refused with a message about the score, and
      the board stays empty. */
  method NegativeScoreScenario(name: string, score: int) returns (r: Result<seq<ScoreEntry>>, ranking: seq<ScoreEntry>)
    requires score < 0
    ensures r == Err(InvalidScore) && r.error.Message()[..2] == "점수"
    ensures ranking == []
  {
    var board := new Leaderboard();
    r := board.Submit(name, score);
    ranking := board.Entries();
  }

  /** The blank name of the normalisation test is all whitespace. */
  lemma BlankTestName()
    ensures PyStr.AllSpace("   ")
  {
  }

  /** The long name of the normalisation test is over 32 characters and has
      no surrounding whitespace (written as two pieces so that its first
      character is at hand). */
  lemma LongTestName()
    ensures var long := "V" + "eryLongNameThatShouldBeTrimmedBeyondThirtyTwoCharacters";
      |long| > MaxNameLength && !PyStr.IsSpace(long[0]) && !PyStr.IsSpace(long[|long| - 1])
  {
  }

  /** The insertions of `NameNormalizationScenario`. */
  lemma NameNormalizationInsertions(blank: ScoreEntry, long: ScoreEntry)
    requires blank.score == 50 && long.score == 60
    ensures PyStr.SliceTo(InsertByScore([], blank), 10) == [blank]
    ensures PyStr.SliceTo(InsertByScore([blank], long), 10) == [long, blank]
  {
  }

  /** An all-blank name becomes the placeholder; a long name with no
      surrounding whitespace is cut to its first 32 characters. */
  method NameNormalizationScenario(blank: string, long: string) returns (ranking: seq<ScoreEntry>)
    requires PyStr.AllSpace(blank)
    requires |long| > MaxNameLength && !PyStr.IsSpace(long[0]) && !PyStr.IsSpace(long[|long| - 1])
    ensures |ranking| == 2
    ensures ranking[0].playerName == long[..MaxNameLength]
    ensures ranking[1].playerName == DefaultName
  {
    var board := new Leaderboard();
    NormalizeTrimmedName(long);
    assert NormalizeName(blank) == DefaultName;
    var b, l := ScoreEntry(DefaultName, 50), ScoreEntry(long[..MaxNameLength], 60);
    NameNormalizationInsertions(b, l);
    var r := board.Submit(blank, 50);
    r := board.Submit(long, 60);
    ranking := board.Entries();
  }

  /** The insertions of `SubmitAndFetchScenario`. */
  lemma SubmitAndFetchInsertions(ace: ScoreEntry, nova: ScoreEntry)
    requires ace.score == 320 && nova.score == 420
    ensures PyStr.SliceTo(InsertByScore([], ace), 10) == [ace]
    ensures PyStr.SliceTo(InsertByScore([ace], nova), 10) == [nova, ace]
  {
  }

  /** A fresh board is empty; Ace 320 then Nova 420 rank Nova first, and
      each submission returns the new ranking. */
  method SubmitAndFetchScenario(ace: string, nova: string)
    returns (empty: seq<ScoreEntry>, r1: Result<seq<ScoreEntry>>, r2: Result<seq<ScoreEntry>>,
             ranking: seq<ScoreEntry>)
    ensures empty == []
    ensures r1 == Ok([ScoreEntry(NormalizeName(ace), 320)])
    ensures r2 == Ok([ScoreEntry(NormalizeName(nova), 420), ScoreEntry(NormalizeName(ace), 320)])
    ensures ranking == r2.value
  {
    var board := new Leaderboard();
    empty := board.Entries();
    var a, n := ScoreEntry(NormalizeName(ace), 320), ScoreEntry(NormalizeName(nova), 420);
    SubmitAndFetchInsertions(a, n);
    r1 := board.Submit(ace, 320);
    r2 := board.Submit(nova, 420);
    ranking := board.Entries();
  }

  /** Clearing empties a board whatever it held. */
  method ClearScenario(name: string, score: int) returns (ranking: seq<ScoreEntry>)
    ensures ranking == []
  {
    var board := new Leaderboard();
    var r := board.Submit(name, score);
    board.Clear();
    ranking := board.Entries();
  }
}
