/** The in-memory high-score table: at most ten entries, best first. */
module HighScores {

  /** The timestamp is an opaque string supplied by the caller. */
  datatype ScoreEntry = ScoreEntry(name: string, score: int, timestamp: string)

  const MaxScores: nat := 10

  ghost predicate SortedDesc(s: seq<ScoreEntry>) {
    forall i, j :: 0 <= i < j < |s| ==> s[i].score >= s[j].score
  }

  /** The index of the first entry that scores strictly less than `score`. */
  function FirstBelow(s: seq<ScoreEntry>, score: int): (k: nat)
    ensures k <= |s|
    ensures forall i :: 0 <= i < k ==> s[i].score >= score
    ensures k < |s| ==> s[k].score < score
  {
    if s == [] then 0
    else if s[0].score < score then 0
    else 1 + FirstBelow(s[1..], score)
  }

  /** Inserts `e` after every leading entry that scores at least as much. */
  function Insert(s: seq<ScoreEntry>, e: ScoreEntry): (r: seq<ScoreEntry>)
    ensures |r| == |s| + 1
  {
    var k := FirstBelow(s, e.score);
    s[..k] + [e] + s[k..]
  }

  /** `scores.sort((a, b) => b.score - a.score)`: a stable sort, best score first
      (written as an insertion sort). */
  function SortByScore(s: seq<ScoreEntry>): (r: seq<ScoreEntry>)
    ensures |r| == |s|
    decreases |s|
  {
    if s == [] then []
    else Insert(SortByScore(s[..|s| - 1]), s[|s| - 1])
  }

  /** The entries of `s` with score `v`, in their order in `s`. */
  function WithScore(s: seq<ScoreEntry>, v: int): seq<ScoreEntry>
    decreases |s|
  {
    if s == [] then []
    else WithScore(s[..|s| - 1], v) + (if s[|s| - 1].score == v then [s[|s| - 1]] else [])
  }

  /** `slice(0, maxScores)`. */
  function Top(s: seq<ScoreEntry>): (r: seq<ScoreEntry>)
    ensures |r| == if |s| < MaxScores then |s| else MaxScores
    ensures r == s[..|r|]
  {
    if |s| < MaxScores then s else s[..MaxScores]
  }

  /** `isHighScore(score)` on a given table. */
  predicate IsHighScoreIn(s: seq<ScoreEntry>, score: int) {
    |s| < MaxScores || score > s[|s| - 1].score
  }

  /** The table after `addScore` adds `e` to `s`. */
  function Admit(s: seq<ScoreEntry>, e: ScoreEntry): seq<ScoreEntry> {
    Top(SortByScore(s + [e]))
  }

  lemma {:induction false} WithScoreAppend(a: seq<ScoreEntry>, b: seq<ScoreEntry>, v: int)
    ensures WithScore(a + b, v) == WithScore(a, v) + WithScore(b, v)
    decreases |b|
  {
    if b == [] {
      assert a + b == a;
    } else {
      var b' := b[..|b| - 1];
      assert (a + b)[..|a + b| - 1] == a + b';
      WithScoreAppend(a, b', v);
    }
  }

  lemma {:induction false} WithScoreNone(s: seq<ScoreEntry>, v: int)
    requires forall i :: 0 <= i < |s| ==> s[i].score != v
    ensures WithScore(s, v) == []
    decreases |s|
  {
    if s != [] {
      WithScoreNone(s[..|s| - 1], v);
    }
  }

  lemma {:induction false} InsertSorted(s: seq<ScoreEntry>, e: ScoreEntry)
    requires SortedDesc(s)
    ensures SortedDesc(Insert(s, e))
  {
    var k := FirstBelow(s, e.score);
    var r := Insert(s, e);
    assert forall i :: 0 <= i < k ==> r[i] == s[i];
    assert r[k] == e;
    assert forall i :: k < i < |r| ==> r[i] == s[i - 1];
  }

  lemma WithScoreSingle(e: ScoreEntry, v: int)
    ensures WithScore([e], v) == if e.score == v then [e] else []
  {
    assert [e][..0] == [];
  }

  /** Below the insertion point of a score v nothing scores v. */
  lemma {:induction false} TailBelow(s: seq<ScoreEntry>, k: nat, v: int)
    requires SortedDesc(s) && k <= |s| && (k < |s| ==> s[k].score < v)
    ensures WithScore(s[k..], v) == []
  {
    forall i | 0 <= i < |s[k..]|
      ensures s[k..][i].score != v
    {
      assert s[k + i].score <= s[k].score;
    }
    WithScoreNone(s[k..], v);
  }

  /** WithScore over the insertion `pre + [e] + post`. */
  lemma WithScoreSplit(pre: seq<ScoreEntry>, e: ScoreEntry, post: seq<ScoreEntry>, v: int)
    ensures WithScore(pre + [e] + post, v) == WithScore(pre, v) + WithScore([e], v) + WithScore(post, v)
  {
    WithScoreAppend(pre + [e], post, v);
    WithScoreAppend(pre, [e], v);
  }

  /** Inserting keeps the other entries of e's score ahead of e and leaves every other
      score's entries as they were. */
  lemma InsertStable(s: seq<ScoreEntry>, e: ScoreEntry, v: int)
    requires SortedDesc(s)
    ensures WithScore(Insert(s, e), v) == WithScore(s, v) + (if e.score == v then [e] else [])
  {
    var k := FirstBelow(s, e.score);
    assert s == s[..k] + s[k..];
    WithScoreAppend(s[..k], s[k..], v);
    WithScoreSplit(s[..k], e, s[k..], v);
    WithScoreSingle(e, v);
    if e.score == v {
      TailBelow(s, k, v);
      InsertedLast(WithScore(s[..k], v), e);
    } else {
      InsertedNothing(WithScore(s[..k], v), WithScore(s[k..], v));
    }
  }

  lemma InsertedLast(w: seq<ScoreEntry>, e: ScoreEntry)
    ensures w + [e] + [] == (w + []) + [e]
  {
  }

  lemma InsertedNothing(w: seq<ScoreEntry>, u: seq<ScoreEntry>)
    ensures w + [] + u == w + u + []
  {
  }

  /** Inserting adds exactly the new entry. */
  lemma InsertPermutes(s: seq<ScoreEntry>, e: ScoreEntry)
    ensures multiset(Insert(s, e)) == multiset(s) + multiset{e}
  {
    var k := FirstBelow(s, e.score);
    assert s == s[..k] + s[k..];
  }

  /** The sort neither loses nor invents an entry. */
  lemma {:induction false} SortPermutes(s: seq<ScoreEntry>)
    ensures multiset(SortByScore(s)) == multiset(s)
    decreases |s|
  {
    if s != [] {
      SortPermutes(s[..|s| - 1]);
      InsertPermutes(SortByScore(s[..|s| - 1]), s[|s| - 1]);
      assert s == s[..|s| - 1] + [s[|s| - 1]];
    }
  }

  /** The sort orders by score, best first. */
  lemma {:induction false} SortIsSorted(s: seq<ScoreEntry>)
    ensures SortedDesc(SortByScore(s))
    decreases |s|
  {
    if s != [] {
      SortIsSorted(s[..|s| - 1]);
      InsertSorted(SortByScore(s[..|s| - 1]), s[|s| - 1]);
    }
  }

  /** The sort is stable: the entries of every score keep their original order. */
  lemma {:induction false} SortIsStable(s: seq<ScoreEntry>, v: int)
    ensures WithScore(SortByScore(s), v) == WithScore(s, v)
    decreases |s|
  {
    if s != [] {
      SortIsSorted(s[..|s| - 1]);
      SortIsStable(s[..|s| - 1], v);
      InsertStable(SortByScore(s[..|s| - 1]), s[|s| - 1], v);
    }
  }

  lemma SortedPrefix(s: seq<ScoreEntry>)
    requires SortedDesc(s) && s != []
    ensures SortedDesc(s[..|s| - 1])
  {
  }

  /** In a sorted table the last entry goes back to the end. */
  lemma LastGoesLast(s: seq<ScoreEntry>)
    requires SortedDesc(s) && s != []
    ensures Insert(s[..|s| - 1], s[|s| - 1]) == s
  {
    var s', last := s[..|s| - 1], s[|s| - 1];
    assert forall j :: 0 <= j < |s'| ==> last.score <= s'[j].score;
    FirstBelowIsFirst(s', last.score, |s'|);
    assert s'[..|s'|] == s' && s'[|s'|..] == [];
    assert s' + [last] == s;
  }

  /** Sorting a sorted table changes nothing. */
  lemma {:induction false} SortOfSorted(s: seq<ScoreEntry>)
    requires SortedDesc(s)
    ensures SortByScore(s) == s
    decreases |s|
  {
    if s != [] {
      SortedPrefix(s);
      SortOfSorted(s[..|s| - 1]);
      LastGoesLast(s);
    }
  }

  /** Where `addScore` puts a new entry in a sorted table: right after every entry that
      scores at least as much; the table then keeps its first ten entries. */
  lemma AdmitPlacement(s: seq<ScoreEntry>, e: ScoreEntry)
    requires SortedDesc(s)
    ensures var k := FirstBelow(s, e.score);
            Admit(s, e) == Top(s[..k] + [e] + s[k..])
    ensures |Admit(s, e)| == if |s| + 1 < MaxScores then |s| + 1 else MaxScores
    ensures SortedDesc(Admit(s, e))
  {
    var t := s + [e];
    assert t[..|t| - 1] == s;
    SortOfSorted(s);
    InsertSorted(s, e);
  }

  /** The new entry stays in the table exactly when `isHighScore` held before it was added. */
  lemma AdmitKeepsEntryIffHighScore(s: seq<ScoreEntry>, e: ScoreEntry)
    requires SortedDesc(s) && |s| <= MaxScores
    ensures FirstBelow(s, e.score) < MaxScores <==> IsHighScoreIn(s, e.score)
  {
    var k := FirstBelow(s, e.score);
    if |s| == MaxScores && k < MaxScores {
      assert s[k].score >= s[|s| - 1].score;
    }
  }

  /** `addScore` returns `isHighScore(score)` evaluated on the table that already holds
      the new entry, which is true exactly when the entry landed in the top nine places:
      an entry that just made tenth place is reported as not a high score. */
  lemma AddScoreReport(s: seq<ScoreEntry>, e: ScoreEntry)
    requires SortedDesc(s) && |s| <= MaxScores
    ensures IsHighScoreIn(Admit(s, e), e.score) <==> FirstBelow(s, e.score) < MaxScores - 1
  {
    var k := FirstBelow(s, e.score);
    AdmitPlacement(s, e);
    var full := s[..k] + [e] + s[k..];
    var r := Admit(s, e);
    var n := |r|;
    assert r == full[..n];
    if n == MaxScores {
      var last := full[n - 1];
      assert r[n - 1] == last;
      if k < n - 1 {
        assert last == s[n - 2];
        assert s[k].score >= s[n - 2].score;
      } else if k == n - 1 {
        assert last == e;
      } else {
        assert last == s[n - 1];
      }
    }
  }

  class HighScoreManager {
    var scores: seq<ScoreEntry>

    ghost predicate Valid()
      reads this
    {
      SortedDesc(scores) && |scores| <= MaxScores
    }

    /** A manager over an empty store. */
    constructor ()
      ensures Valid() && scores == []
    {
      scores := [];
    }

    /** Pushes the entry, sorts best first, keeps ten, and reports `isHighScore(score)`. */
    method AddScore(name: string, score: int, timestamp: string) returns (reported: bool)
      modifies this
      ensures scores == Admit(old(scores), ScoreEntry(name, score, timestamp))
      ensures Valid()
      ensures reported == IsHighScore(score)
    {
      var entry := ScoreEntry(name, score, timestamp);
      ghost var before := scores;
      scores := scores + [entry];
      scores := SortByScore(scores);
      SortIsSorted(before + [entry]);
      if |scores| > MaxScores {
        scores := scores[..MaxScores];
      }
      reported := IsHighScore(score);
    }

    predicate IsHighScore(score: int)
      reads this
    {
      IsHighScoreIn(scores, score)
    }

    /** The 1-based place a score would take: one past the entries it does not beat. */
    method GetHighScoreRank(score: int) returns (rank: nat)
      ensures 1 <= rank <= |scores| + 1
      ensures forall i :: 0 <= i < rank - 1 ==> score <= scores[i].score
      ensures rank <= |scores| ==> score > scores[rank - 1].score
      ensures rank == FirstBelow(scores, score) + 1
    {
      var i := 0;
      while i < |scores|
        invariant 0 <= i <= |scores|
        invariant forall j :: 0 <= j < i ==> score <= scores[j].score
      {
        if score > scores[i].score {
          FirstBelowIsFirst(scores, score, i);
          return i + 1;
        }
        i := i + 1;
      }
      FirstBelowIsFirst(scores, score, i);
      rank := |scores| + 1;
    }
  }

  /** FirstBelow is the first index at which the table drops below the score. */
  lemma FirstBelowIsFirst(s: seq<ScoreEntry>, score: int, i: nat)
    requires i <= |s|
    requires forall j :: 0 <= j < i ==> score <= s[j].score
    requires i < |s| ==> score > s[i].score
    ensures FirstBelow(s, score) == i
  {
  }
}
