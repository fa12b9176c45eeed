/** One playing card as the client draws it: symbol lookups, red or black,
    face up or face down, and the deal animation. */
module CardFace {
  import opened Common
  import Cards

  const Suits: seq<string> := ["♥", "♦", "♣", "♠"]
  const Ranks: seq<string> := ["", "", "2", "3", "4", "5", "6", "7", "8", "9", "10", "J", "Q", "K", "A"]

  /** suits[suit]: an index outside the table gives undefined, modelled as None. */
  function SuitSymbol(suit: int): (s: Option<string>)
    ensures s.Some? <==> 0 <= suit < 4
  {
    if 0 <= suit < |Suits| then Some(Suits[suit]) else None
  }

  /** ranks[rank]: an index outside the table gives undefined, modelled as None. */
  function RankSymbol(rank: int): (s: Option<string>)
    ensures s.Some? <==> 0 <= rank < 15
  {
    if 0 <= rank < |Ranks| then Some(Ranks[rank]) else None
  }

  /** The decimal numeral of a number from 2 to 10. */
  function Numeral(n: int): string
    requires 2 <= n <= 10
  {
    if n < 10 then [('0' as int + n) as char] else "10"
  }

  /** Ranks 2 to 10 show their numeral, 11 to 14 show J, Q, K and A, and
      ranks 0 and 1 show nothing. */
  lemma RankSymbols(rank: int)
    ensures 2 <= rank <= 10 ==> RankSymbol(rank) == Some(Numeral(rank))
    ensures RankSymbol(11) == Some("J") && RankSymbol(12) == Some("Q")
    ensures RankSymbol(13) == Some("K") && RankSymbol(14) == Some("A")
    ensures RankSymbol(0) == Some("") && RankSymbol(1) == Some("")
  {
  }

  /** isRed: hearts or diamonds, the suits whose symbol is a heart or a diamond. */
  function IsRed(suit: int): (red: bool)
    ensures red <==> SuitSymbol(suit) == Some("♥") || SuitSymbol(suit) == Some("♦")
  {
    suit == 0 || suit == 1
  }

  /** For every card the server deals, the client's rank symbol followed by
      its suit symbol is the server's display string of that card. */
  lemma AgreesWithServerString(c: Cards.Card)
    requires Cards.ValidCard(c)
    ensures RankSymbol(c.rank).Some? && SuitSymbol(c.suit).Some?
    ensures RankSymbol(c.rank).value + SuitSymbol(c.suit).value == Cards.CardString(c)
  {
  }

  /** The card's properties that decide what is drawn. */
  datatype CardProps = CardProps(suit: int, rank: int, faceDown: bool, isDealing: bool, dealDelay: int)

  /** What is drawn: a face-down back, or a face with rank and suit symbols in
      red or black; either way with its deal animation class and delay style. */
  datatype CardView =
    | Back(dealClass: string, delay: Option<int>)
    | FaceUp(rank: Option<string>, suit: Option<string>, red: bool, dealClass: string, delay: Option<int>)

  /** The deal animation class: applied only while dealing. */
  function DealClass(isDealing: bool): (cls: string)
    ensures cls != "" <==> isDealing
  {
    if isDealing then "animate-card-deal" else ""
  }

  /** What Card draws: a face-down card shows neither rank nor suit; a
      face-up card shows the table symbols of its rank and suit; both animate
      and wait only as asked. */
  function Render(p: CardProps): (v: CardView)
    ensures p.faceDown <==> v.Back?
    ensures !p.faceDown ==> v.rank == RankSymbol(p.rank) && v.suit == SuitSymbol(p.suit)
    ensures !p.faceDown ==> (v.red <==> p.suit == 0 || p.suit == 1)
    ensures v.dealClass == "animate-card-deal" <==> p.isDealing
    ensures v.delay.Some? <==> p.dealDelay > 0
  {
    if p.faceDown then Back(DealClass(p.isDealing), AnimationDelay(p.dealDelay))
    else FaceUp(RankSymbol(p.rank), SuitSymbol(p.suit), IsRed(p.suit), DealClass(p.isDealing), AnimationDelay(p.dealDelay))
  }
}
