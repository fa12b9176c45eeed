/** The board of community cards: always five slots, the dealt cards first
    and empty slots after them. */
module CommunityCards {
  import opened Common

  /** A card as the client receives it. */
  datatype CardData = CardData(suit: int, rank: int)

  /** The marker of a slot with no card. */
  const Sentinel := CardData(-1, -1)

  /** Slots on the board. */
  const Slots := 5

  /** What one slot shows: the dashed empty frame, or a card face. */
  datatype SlotView = Empty | Face(suit: int, rank: int)

  /** A slot is empty exactly when its suit or its rank is -1; any other
      entry is handed to the card face unchanged. */
  function View(c: CardData): (v: SlotView)
    ensures v.Empty? <==> c.suit == -1 || c.rank == -1
    ensures v.Face? ==> v == Face(c.suit, c.rank)
  {
    if c.suit == -1 || c.rank == -1 then Empty else Face(c.suit, c.rank)
  }

  /** Copy the cards and push sentinels until there are at least five. */
  method PadToFive(cards: seq<CardData>) returns (display: seq<CardData>)
    ensures |display| == Max(|cards|, Slots)
    ensures display[..|cards|] == cards
    ensures forall i | |cards| <= i < |display| :: display[i] == Sentinel
  {
    display := cards;
    while |display| < Slots
      invariant |cards| <= |display| <= Max(|cards|, Slots)
      invariant display[..|cards|] == cards
      invariant forall i | |cards| <= i < |display| :: display[i] == Sentinel
      decreases Slots - |display|
    {
      display := display + [Sentinel];
    }
  }

  /** The board: the first five entries of the padded copy, each shown as a
      slot. Exactly five slots; the first min(n, 5) show the given cards in
      order, the rest are empty; cards after the fifth are not shown. */
  method Board(cards: seq<CardData>) returns (slots: seq<SlotView>)
    ensures |slots| == Slots
    ensures forall i | 0 <= i < Min(|cards|, Slots) :: slots[i] == View(cards[i])
    ensures forall i | |cards| <= i < Slots :: slots[i] == Empty
  {
    var display := PadToFive(cards);
    assert forall i | 0 <= i < |cards| :: display[i] == cards[i] by {
      forall i | 0 <= i < |cards| ensures display[i] == cards[i] {
        assert display[..|cards|][i] == display[i];
      }
    }
    slots := seq(Slots, i requires 0 <= i < Slots => View(display[i]));
  }

  /** Only cards with a real suit and rank reach a card face, and the
      sentinel never does. */
  lemma FacesAreRealCards(c: CardData)
    ensures View(Sentinel) == Empty
    ensures View(c).Face? ==> c.suit != -1 && c.rank != -1
  {
  }
}
