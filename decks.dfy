/** The 52-card deck and its Fisher-Yates shuffle (game/util/Deck.js). */
module Decks {
  import opened Cards

  /** The order the constructor builds: suit-major, values 0..12 within each suit. */
  function FullDeck(): (d: seq<Card>)
    ensures |d| == 52
  {
    seq(52, i requires 0 <= i < 52 => NewCard(i / 13, i % 13))
  }

  /** Each position 13*suit+value of a new deck holds that suit and value. */
  lemma FullDeckAt(suit: int, value: int)
    requires InRange(suit, value)
    ensures FullDeck()[13 * suit + value] == NewCard(suit, value)
  {
  }

  /** A new deck holds exactly the real cards. */
  lemma {:induction false} FullDeckMembers(c: Card)
    ensures c in FullDeck() <==> RealCard(c)
  {
    if RealCard(c) {
      FullDeckAt(c.suit, c.value);
    }
  }

  /** No two positions of a new deck hold the same card. */
  lemma FullDeckDistinct()
    ensures Distinct(FullDeck())
  {
    var d := FullDeck();
    forall i, j | 0 <= i < j < |d| ensures d[i] != d[j] {
      assert d[i].suit == i / 13 && d[i].value == i % 13;
      assert d[j].suit == j / 13 && d[j].value == j % 13;
      assert i == 13 * (i / 13) + i % 13;
      assert j == 13 * (j / 13) + j % 13;
    }
  }

  /** Pairwise distinct elements. */
  ghost predicate Distinct(s: seq<Card>)
  {
    forall i, j | 0 <= i < j < |s| :: s[i] != s[j]
  }

  /** In a sequence without repeats every element occurs exactly once. */
  lemma {:induction false} DistinctCount(s: seq<Card>, c: Card)
    requires Distinct(s)
    ensures multiset(s)[c] == if c in s then 1 else 0
  {
    if s != [] {
      assert s == [s[0]] + s[1..];
      assert Distinct(s[1..]) by {
        forall i, j | 0 <= i < j < |s[1..]| ensures s[1..][i] != s[1..][j] {
          assert s[1..][i] == s[i + 1] && s[1..][j] == s[j + 1];
        }
      }
      DistinctCount(s[1..], c);
      assert s[0] !in s[1..] by {
        forall k | 0 <= k < |s[1..]| ensures s[1..][k] != s[0] {
          assert s[1..][k] == s[k + 1];
        }
      }
    }
  }

  /** A card the constructor can build: suit and value in range, symbols from the tables. */
  predicate RealCard(c: Card)
  {
    InRange(c.suit, c.value) && c == NewCard(c.suit, c.value)
  }

  /** A new deck contains every real card exactly once and nothing else. */
  lemma FullDeckCovers(c: Card)
    ensures multiset(FullDeck())[c] == if RealCard(c) then 1 else 0
  {
    FullDeckDistinct();
    DistinctCount(FullDeck(), c);
    FullDeckMembers(c);
  }

  /** The swap of one Fisher-Yates step. */
  function Swap(s: seq<Card>, i: int, j: int): (r: seq<Card>)
    requires 0 <= i < |s| && 0 <= j < |s|
    ensures |r| == |s| && r[i] == s[j] && r[j] == s[i]
    ensures forall k | 0 <= k < |s| && k != i && k != j :: r[k] == s[k]
  {
    s[i := s[j]][j := s[i]]
  }

  /** A swap only reorders. */
  lemma SwapPermutes(s: seq<Card>, i: int, j: int)
    requires 0 <= i < |s| && 0 <= j < |s|
    ensures multiset(Swap(s, i, j)) == multiset(s)
  {
    var t := s[i := s[j]];
    assert multiset(t) == multiset(s) - multiset{s[i]} + multiset{s[j]};
    assert t[j] == (if i == j then s[j] else s[j]);
  }

  /**
   * The random draws of one shuffle: `picks[i]` stands for
   * Math.floor(Math.random() * (i + 1)), so it lies in 0..i.
   */
  predicate ValidPicks(picks: seq<int>, n: int)
  {
    |picks| == n && forall i | 0 <= i < n :: 0 <= picks[i] <= i
  }

  /** The iterations i, i-1, ..., 1 of the shuffle loop applied to s. */
  function ShuffleDown(s: seq<Card>, picks: seq<int>, i: int): seq<Card>
    requires ValidPicks(picks, |s|)
    requires -1 <= i < |s|
    decreases i
  {
    if i <= 0 then s else ShuffleDown(Swap(s, i, picks[i]), picks, i - 1)
  }

  /** The deck after `shuffle` with the given draws. */
  function Shuffled(s: seq<Card>, picks: seq<int>): (r: seq<Card>)
    requires ValidPicks(picks, |s|)
    ensures |r| == |s| && multiset(r) == multiset(s)
  {
    ShufflePermutes(s, picks, |s| - 1);
    ShuffleDown(s, picks, |s| - 1)
  }

  /** Positions above i are never touched by the iterations i, i-1, ..., 1. */
  lemma {:induction false} ShuffleDownKeepsAbove(s: seq<Card>, picks: seq<int>, i: int, k: int)
    requires ValidPicks(picks, |s|) && -1 <= i < |s|
    requires i < k < |s|
    ensures |ShuffleDown(s, picks, i)| == |s| && ShuffleDown(s, picks, i)[k] == s[k]
    decreases i
  {
    if i > 0 {
      ShuffleDownKeepsAbove(Swap(s, i, picks[i]), picks, i - 1, k);
    }
  }

  /** Once the iteration for i has run, positions i..len-1 hold their final cards. */
  lemma {:induction false} ShuffleFixesTail(s: seq<Card>, picks: seq<int>, i: int, k: int)
    requires ValidPicks(picks, |s|) && 0 < i < |s|
    requires i <= k < |s|
    ensures |ShuffleDown(s, picks, i)| == |s|
    ensures ShuffleDown(s, picks, i)[k] == Swap(s, i, picks[i])[k]
  {
    ShuffleDownKeepsAbove(Swap(s, i, picks[i]), picks, i - 1, k);
  }

  /** The shuffle keeps the length. */
  lemma {:induction false} ShuffleLength(s: seq<Card>, picks: seq<int>, i: int)
    requires ValidPicks(picks, |s|) && -1 <= i < |s|
    ensures |ShuffleDown(s, picks, i)| == |s|
    decreases i
  {
    if i > 0 {
      ShuffleLength(Swap(s, i, picks[i]), picks, i - 1);
    }
  }

  /** The shuffle is a permutation: same length, same multiset of cards. */
  lemma {:induction false} ShufflePermutes(s: seq<Card>, picks: seq<int>, i: int)
    requires ValidPicks(picks, |s|) && -1 <= i < |s|
    ensures |ShuffleDown(s, picks, i)| == |s|
    ensures multiset(ShuffleDown(s, picks, i)) == multiset(s)
    decreases i
  {
    if i > 0 {
      SwapPermutes(s, i, picks[i]);
      ShufflePermutes(Swap(s, i, picks[i]), picks, i - 1);
    }
  }

  /** A deck of at most one card is left as it is. */
  lemma ShuffleShortDeck(s: seq<Card>, picks: seq<int>)
    requires ValidPicks(picks, |s|) && |s| <= 1
    ensures Shuffled(s, picks) == s
  {
  }

  /** A shuffled new deck still holds every real card exactly once. */
  lemma ShuffledFullDeckCovers(picks: seq<int>, c: Card)
    requires ValidPicks(picks, 52)
    ensures |Shuffled(FullDeck(), picks)| == 52
    ensures multiset(Shuffled(FullDeck(), picks))[c] == if RealCard(c) then 1 else 0
  {
    ShufflePermutes(FullDeck(), picks, 51);
    FullDeckCovers(c);
  }

  class Deck {
    var cards: seq<Card>

    /** Builds the 52 cards suit by suit, value by value. */
    constructor ()
      ensures cards == FullDeck()
    {
      cards := [];
      new;
      var suit := 0;
      while suit < 4
        invariant 0 <= suit <= 4
        invariant cards == FullDeck()[..13 * suit]
      {
        var value := 0;
        while value < 13
          invariant 0 <= value <= 13
          invariant cards == FullDeck()[..13 * suit + value]
        {
          FullDeckAt(suit, value);
          cards := cards + [NewCard(suit, value)];
          value := value + 1;
        }
        suit := suit + 1;
      }
    }

    /** Fisher-Yates: for i from the last index down to 1, swap cards[i] with cards[picks[i]]. */
    method Shuffle(picks: seq<int>)
      requires ValidPicks(picks, |cards|)
      modifies this
      ensures cards == Shuffled(old(cards), picks)
      ensures |cards| == |old(cards)| && multiset(cards) == multiset(old(cards))
    {
      ShufflePermutes(cards, picks, |cards| - 1);
      var i := |cards| - 1;
      while i > 0
        invariant -1 <= i < |cards| && |cards| == |old(cards)|
        invariant ShuffleDown(cards, picks, i) == Shuffled(old(cards), picks)
      {
        var j := picks[i];
        cards := cards[i := cards[j]][j := cards[i]];
        i := i - 1;
      }
    }
  }
}
