/** Playing cards and the deck of the game server: suits and ranks, the two
    string renderings of a card, building a 52-card deck, the Fisher-Yates
    shuffle, dealing from the end of the deck, and the short-hand branch of
    hand evaluation. */
module Cards {
  import opened Common

  // Suit is an ordinal: Hearts = 0, Diamonds = 1, Clubs = 2, Spades = 3.
  const Hearts := 0
  const Spades := 3
  // Rank is numeric: Two = 2 up to Ace = 14.
  const Two := 2
  const Ten := 10
  const Ace := 14

  datatype Card = Card(suit: int, rank: int)

  /** A card the deck can hold: one of the four suits and one of the thirteen ranks. */
  predicate ValidCard(c: Card)
  {
    Hearts <= c.suit <= Spades && Two <= c.rank <= Ace
  }

  /** A card whose suit and rank index the string tables (anything else panics in the source). */
  predicate InTables(c: Card)
  {
    0 <= c.suit < 4 && 0 <= c.rank < 15
  }

  const SuitGlyphs: seq<string> := ["♥", "♦", "♣", "♠"]
  const RankNames: seq<string> := ["", "", "2", "3", "4", "5", "6", "7", "8", "9", "10", "J", "Q", "K", "A"]

  /** The display string of a card: rank name followed by the suit glyph. */
  function CardString(c: Card): (s: string)
    requires InTables(c)
    ensures ValidCard(c) ==> |s| == (if c.rank == Ten then 3 else 2)
    ensures ValidCard(c) ==> s[|s| - 1] == SuitGlyphs[c.suit][0] && s[..|s| - 1] == RankNames[c.rank]
  {
    RankNames[c.rank] + SuitGlyphs[c.suit]
  }

  /** Distinct valid cards get distinct display strings. */
  lemma CardStringInjective(a: Card, b: Card)
    requires ValidCard(a) && ValidCard(b)
    requires CardString(a) == CardString(b)
    ensures a == b
  {
    var s := CardString(a);
    assert SuitGlyphs[a.suit][0] == s[|s| - 1] == SuitGlyphs[b.suit][0];
    assert RankNames[a.rank] == s[..|s| - 1] == RankNames[b.rank];
  }

  const PokerSuits: seq<string> := ["h", "d", "c", "s"]
  const PokerRanks: seq<string> := ["", "", "2", "3", "4", "5", "6", "7", "8", "9", "T", "J", "Q", "K", "A"]

  /** The notation handed to the poker library ("As", "Th", ...), built before the library call. */
  function PokerNotation(c: Card): (s: string)
    requires InTables(c)
  {
    PokerRanks[c.rank] + PokerSuits[c.suit]
  }

  /** Every valid card has a two-character poker notation: Ten is "T" there,
      although its display string uses "10". */
  lemma PokerNotationShape(c: Card)
    requires ValidCard(c)
    ensures |PokerNotation(c)| == 2
    ensures PokerNotation(c)[0] in "23456789TJQKA" && PokerNotation(c)[1] in "hdcs"
    ensures c.rank == Ten ==> PokerNotation(c) == "T" + PokerSuits[c.suit] && CardString(c)[..2] == "10"
  {
  }

  /** Distinct valid cards get distinct poker notations, so the library sees the same cards. */
  lemma PokerNotationInjective(a: Card, b: Card)
    requires ValidCard(a) && ValidCard(b)
    requires PokerNotation(a) == PokerNotation(b)
    ensures a == b
  {
    PokerNotationShape(a);
    PokerNotationShape(b);
    assert PokerNotation(a)[0] == PokerNotation(b)[0];
    assert PokerNotation(a)[1] == PokerNotation(b)[1];
    assert PokerRanks[a.rank][0] == PokerRanks[b.rank][0];
    assert PokerSuits[a.suit][0] == PokerSuits[b.suit][0];
  }

  /** Position k of a fresh deck: suit-major, then ascending rank. */
  function DeckCard(k: int): Card
  {
    Card(k / 13, k % 13 + Two)
  }

  /** The fresh deck holds every valid card exactly once, each at its suit-major position. */
  lemma DeckCardBijective(k: int, c: Card)
    requires 0 <= k < 52
    ensures ValidCard(DeckCard(k))
    ensures ValidCard(c) ==> (DeckCard(k) == c <==> k == c.suit * 13 + c.rank - Two)
  {
  }

  /** A deck whose cards are a Go slice: dealing takes from the end. */
  class Deck {
    var cards: seq<Card>

    /** The nested loops of NewDeck: 4 suits times 13 ranks. */
    static method NewDeckCards() returns (deck: seq<Card>)
      ensures |deck| == 52
      ensures forall k | 0 <= k < 52 :: deck[k] == Card(k / 13, k % 13 + Two)
      ensures forall i, j | 0 <= i < j < 52 :: deck[i] != deck[j]
      ensures forall c :: c in deck <==> ValidCard(c)
    {
      deck := [];
      var suit := Hearts;
      while suit <= Spades
        invariant Hearts <= suit <= Spades + 1
        invariant |deck| == 13 * suit
        invariant forall k | 0 <= k < |deck| :: deck[k] == DeckCard(k)
      {
        var rank := Two;
        while rank <= Ace
          invariant Two <= rank <= Ace + 1
          invariant |deck| == 13 * suit + rank - Two
          invariant forall k | 0 <= k < |deck| :: deck[k] == DeckCard(k)
        {
          deck := deck + [Card(suit, rank)];
          rank := rank + 1;
        }
        suit := suit + 1;
      }
      forall i, j | 0 <= i < j < 52 ensures deck[i] != deck[j] {
        DeckCardBijective(j, deck[i]);
      }
      forall c ensures c in deck <==> ValidCard(c) {
        if ValidCard(c) {
          var k := c.suit * 13 + c.rank - Two;
          DeckCardBijective(k, c);
          assert deck[k] == c;
        } else if c in deck {
          var k :| 0 <= k < 52 && deck[k] == c;
          DeckCardBijective(k, c);
        }
      }
    }

    /** NewDeck: the standard 52-card deck in suit-major order. */
    constructor ()
      ensures |cards| == 52
      ensures forall k | 0 <= k < 52 :: cards[k] == DeckCard(k)
    {
      var built := NewDeckCards();
      cards := built;
    }

    /** The number of cards left in the deck. */
    function Remaining(): (n: nat)
      reads this
      ensures n == |cards|
      ensures n == 0 <==> cards == []
    {
      |cards|
    }

    /** Fisher-Yates: for i from the last index down to 1 swap positions i and
        picks[i], where picks[i] stands for the random draw in 0..i. */
    method Shuffle(picks: seq<int>)
      requires |picks| == |cards|
      requires ValidPicks(picks)
      modifies this
      ensures cards == Shuffled(old(cards), picks, |picks| - 1)
      ensures |cards| == |old(cards)| && multiset(cards) == multiset(old(cards))
    {
      var i := |cards| - 1;
      while i > 0
        invariant -1 <= i < |cards| == |picks|
        invariant Shuffled(cards, picks, i) == Shuffled(old(cards), picks, |picks| - 1)
        invariant multiset(cards) == multiset(old(cards))
      {
        var j := picks[i];
        cards := cards[i := cards[j]][j := cards[i]];
        i := i - 1;
      }
    }

    /** Deal: nothing from an empty deck, otherwise the last card, which leaves the deck. */
    method Deal() returns (card: Option<Card>)
      modifies this
      ensures old(cards) == [] ==> card == None && cards == []
      ensures old(cards) != [] ==> card == Some(old(cards)[|old(cards)| - 1])
                                   && cards == old(cards)[..|old(cards)| - 1]
    {
      if |cards| == 0 {
        return None;
      }
      card := Some(cards[|cards| - 1]);
      cards := cards[..|cards| - 1];
    }

    /** DealHand: deals one card at a time until numCards are dealt or the deck is empty. */
    method DealHand(numCards: nat) returns (hand: seq<Card>)
      modifies this
      ensures |hand| == Min(numCards, old(Remaining()))
      ensures hand == TopReversed(old(cards), |hand|)
      ensures cards == old(cards)[..|old(cards)| - |hand|]
      ensures multiset(hand) + multiset(cards) == multiset(old(cards))
    {
      hand := [];
      var i := 0;
      while i < numCards && |cards| > 0
        invariant 0 <= i <= numCards && i <= |old(cards)|
        invariant |hand| == i
        invariant cards == old(cards)[..|old(cards)| - i]
        invariant hand == TopReversed(old(cards), i)
      {
        var card := Deal();
        if card.Some? {
          hand := hand + [card.value];
        }
        i := i + 1;
      }
      DealtCardsConserved(old(cards), i);
    }
  }

  /** Each draw of the shuffle lies in 0..i for the step i that uses it. */
  predicate ValidPicks(picks: seq<int>)
  {
    forall i | 1 <= i < |picks| :: 0 <= picks[i] <= i
  }

  function Swap(s: seq<Card>, i: int, j: int): seq<Card>
    requires 0 <= i < |s| && 0 <= j < |s|
  {
    s[i := s[j]][j := s[i]]
  }

  /** The shuffle's remaining steps i, i-1, ..., 1 applied to s. */
  function Shuffled(s: seq<Card>, picks: seq<int>, i: int): seq<Card>
    requires |picks| == |s| && ValidPicks(picks) && i < |s|
    decreases i
  {
    if i <= 0 then s else Shuffled(Swap(s, i, picks[i]), picks, i - 1)
  }

  /** Whatever the draws, the shuffle keeps the deck's length and its multiset of cards. */
  lemma {:induction false} ShuffledIsPermutation(s: seq<Card>, picks: seq<int>, i: int)
    requires |picks| == |s| && ValidPicks(picks) && i < |s|
    ensures |Shuffled(s, picks, i)| == |s|
    ensures multiset(Shuffled(s, picks, i)) == multiset(s)
    decreases i
  {
    if i > 0 {
      var t := Swap(s, i, picks[i]);
      assert multiset(t) == multiset(s);
      ShuffledIsPermutation(t, picks, i - 1);
    }
  }

  /** The first k cards dealt from s: its last card first, then the one before, and so on. */
  function TopReversed(s: seq<Card>, k: nat): seq<Card>
    requires k <= |s|
  {
    if k == 0 then [] else TopReversed(s, k - 1) + [s[|s| - k]]
  }

  /** The i-th dealt card is the i-th card from the end of the deck. */
  lemma {:induction false} TopReversedAt(s: seq<Card>, k: nat, i: nat)
    requires k <= |s| && i < k
    ensures |TopReversed(s, k)| == k
    ensures TopReversed(s, k)[i] == s[|s| - 1 - i]
  {
    TopReversedLength(s, k);
    if i < k - 1 {
      TopReversedAt(s, k - 1, i);
    }
  }

  lemma {:induction false} TopReversedLength(s: seq<Card>, k: nat)
    requires k <= |s|
    ensures |TopReversed(s, k)| == k
  {
    if k > 0 {
      TopReversedLength(s, k - 1);
    }
  }

  /** Dealing k cards loses no card: hand plus what is left is the old deck. */
  lemma {:induction false} DealtCardsConserved(s: seq<Card>, k: nat)
    requires k <= |s|
    ensures multiset(TopReversed(s, k)) + multiset(s[..|s| - k]) == multiset(s)
  {
    if k == 0 {
      assert s[..|s|] == s;
    } else {
      DealtCardsConserved(s, k - 1);
      assert s[..|s| - (k - 1)] == s[..|s| - k] + [s[|s| - k]];
    }
  }

  /** The outcome of hand evaluation. */
  datatype Hand = Hand(cards: seq<Card>, rank: int, name: string)

  /** EvaluateHand. With five cards or more the poker library ranks and names
      the hand; its answer comes in as libraryRank and libraryName. */
  function EvaluateHand(cards: seq<Card>, libraryRank: int, libraryName: string): (h: Hand)
    ensures h.cards == cards
    ensures |cards| < 5 ==> h.rank == 0 && h.name == "Incomplete Hand"
    ensures |cards| >= 5 ==> h.rank == libraryRank && h.name == libraryName
  {
    if |cards| < 5 then Hand(cards, 0, "Incomplete Hand")
    else Hand(cards, libraryRank, libraryName)
  }
}
