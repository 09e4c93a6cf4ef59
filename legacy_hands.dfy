/**
 * The hand of the earlier rules: cards, status and bet, without lineage.
 * A pair is judged by the points of its two cards rather than their
 * symbols, any two-card hand can be doubled (so also after a split and one
 * more card), and a best total of 21 is always a blackjack.
 *
 * The totals are the same fold as for the current hand.
 */
module LegacyHands {
  import opened Symbols
  import opened Cards
  import HandValue
  import Hands

  /** Exactly two cards worth the same points. */
  predicate ValuePair(cards: seq<PlayingCard>) {
    |cards| == 2 && Points(cards[0]) == Points(cards[1])
  }

  /** A pair by symbol is a pair by value; a pair by value is a pair by symbol unless both cards are worth 10. */
  lemma ValuePairIff(cards: seq<PlayingCard>)
    ensures Hands.SymbolPair(cards) ==> ValuePair(cards)
    ensures ValuePair(cards) <==>
      Hands.SymbolPair(cards) || (|cards| == 2 && Points(cards[0]) == 10 == Points(cards[1]))
  {
    if ValuePair(cards) && Points(cards[0]) != 10 {
      EqualValueSameSymbol(cards[0].symbol, cards[1].symbol);
    }
  }

  /** A ten and a king are a pair for the earlier rules but not for the current ones. */
  lemma TenKingPair(s: Suit, t: Suit)
    ensures ValuePair([Valid(Ten, s), Valid(King, t)])
    ensures !Hands.SymbolPair([Valid(Ten, s), Valid(King, t)])
  {
  }

  class Hand {
    var cards: seq<PlayingCard>
    var status: Hands.HandStatus
    var bet: int

    /** An empty hand in play with no bet. */
    constructor ()
      ensures cards == [] && status == Hands.Play && bet == 0
    {
      cards := [];
      status := Hands.Play;
      bet := 0;
    }

    /** The totals of at most 21, as for the current hand. */
    function Total(): (t: seq<int>)
      reads this
      ensures HandValue.LowSum(cards) > HandValue.BJ_HAND ==> t == []
      ensures HandValue.LowSum(cards) <= HandValue.BJ_HAND ==>
        t == HandValue.Ladder(HandValue.LowSum(cards),
                              HandValue.SoftAces(HandValue.LowSum(cards), HandValue.AceCount(cards)))
    {
      HandValue.TotalClosedForm(cards);
      HandValue.Total(cards)
    }

    /** Bust exactly when the low sum is over 21. */
    function IsBust(): (b: bool)
      reads this
      ensures b <==> HandValue.LowSum(cards) > HandValue.BJ_HAND
    {
      HandValue.BustIffLowSumOver(cards);
      HandValue.IsBust(cards)
    }

    /** The best total: 0 when bust, else L plus 10 for each ace that still fits under 21. */
    function MaxHand(): (m: int)
      reads this
      ensures m == HandValue.Best(HandValue.LowSum(cards), HandValue.AceCount(cards))
      ensures 0 <= m <= HandValue.BJ_HAND
    {
      HandValue.MaxHandClosedForm(cards);
      HandValue.MaxHandBounds(cards);
      HandValue.MaxHand(cards)
    }

    /** The hand can take a card: some total is at most 21 and it is not standing. */
    function CanHit(): (r: bool)
      reads this
      ensures r <==> !IsBust() && status == Hands.Play
    {
      HandValue.KeepAtMostTwice(Total(), HandValue.BJ_HAND);
      HandValue.KeepAtMost(Total(), HandValue.BJ_HAND) != [] && status != Hands.HandStatus.Stand
    }

    /** A blackjack is any best total of 21, whatever the number of cards. */
    function IsBlackjack(): (r: bool)
      reads this
      ensures r ==> !IsBust()
      ensures r <==> HandValue.Best(HandValue.LowSum(cards), HandValue.AceCount(cards)) == HandValue.BJ_HAND
    {
      MaxHand() == HandValue.BJ_HAND
    }

    /** The hand can still stand: it is in play. A hand that cannot stand cannot take a card either. */
    function CanStand(): (r: bool)
      reads this
      ensures r <==> status != Hands.HandStatus.Stand
      ensures !r ==> !CanHit()
    {
      status == Hands.Play
    }

    /**
     * The hand can be split: two cards whose symbols the rank table values
     * the same. Every pair by symbol qualifies, and so does any two cards
     * worth 10.
     */
    function CanSplit(): (r: bool)
      reads this
      ensures r <==> |cards| == 2 && SymbolVals[Key(cards[0].symbol)] == SymbolVals[Key(cards[1].symbol)]
      ensures Hands.SymbolPair(cards) ==> r
    {
      ValuePairIff(cards);
      if |cards| == 2 then
        SymbolsMatchTable(cards[0].symbol);
        SymbolsMatchTable(cards[1].symbol);
        ValuePair(cards)
      else
        false
    }

    /**
     * The hand can be doubled: exactly two cards, whether or not it came out
     * of a split.
     */
    predicate CanDouble()
      reads this
    {
      |cards| == 2
    }

    /** Some card is an ace. */
    function HasAces(): (r: bool)
      reads this
      ensures r <==> HandValue.AceCount(cards) > 0
    {
      HandValue.HasAceIffAceCount(cards);
      HandValue.HasAce(cards)
    }

    /** Puts the card at the end of a hand in play; a standing hand refuses it. */
    method Hit(c: PlayingCard) returns (ok: bool)
      modifies this
      ensures ok <==> old(status) == Hands.Play
      ensures cards == if ok then old(cards) + [c] else old(cards)
      ensures status == old(status) && bet == old(bet)
      ensures old(IsBust()) ==> IsBust()
      ensures ok ==> (CanDouble() <==> |old(cards)| == 1)
    {
      if status == Hands.Play {
        if IsBust() {
          HandValue.BustStaysBust(cards, c);
        }
        cards := cards + [c];
        ok := true;
      } else {
        ok := false;
      }
    }

    /** Stands the hand: it can neither stand again nor take a card, and nothing else changes. */
    method Stand()
      modifies this
      ensures status == Hands.HandStatus.Stand && !CanStand() && !CanHit()
      ensures cards == old(cards) && bet == old(bet)
    {
      status := Hands.HandStatus.Stand;
    }

    /**
     * Splits a pair by value: this hand keeps the first card and a new hand in
     * play takes the second and the same bet. The new hand has one card, so one
     * more card lets either hand double. A hand that is no pair is left alone.
     */
    method Split() returns (h: Hand?)
      modifies this
      ensures (h != null) <==> old(CanSplit())
      ensures h == null ==> cards == old(cards) && status == old(status) && bet == old(bet)
      ensures h != null ==>
        fresh(h) && h != this &&
        cards == [old(cards)[0]] && h.cards == [old(cards)[1]] && old(cards) == cards + h.cards &&
        h.bet == bet == old(bet) && h.status == Hands.Play && status == old(status)
    {
      if CanSplit() {
        h := new Hand();
        var second := cards[1];
        cards := cards[..1];
        var _ := h.Hit(second);
        h.bet := bet;
      } else {
        h := null;
      }
    }

    /** Doubles the bet of any two-card hand; otherwise nothing changes. */
    method DoubleBet() returns (ok: bool)
      modifies this
      ensures ok <==> old(CanDouble())
      ensures bet == if ok then 2 * old(bet) else old(bet)
      ensures cards == old(cards) && status == old(status)
    {
      if CanDouble() {
        bet := bet * 2;
        ok := true;
      } else {
        ok := false;
      }
    }
  }

  /** Whatever the current rules let a hand split or double, the earlier rules allow on the same cards. */
  lemma EarlierRulesAllowMore(h: Hands.Hand, g: Hand)
    requires h.cards == g.cards
    ensures h.CanSplit() ==> g.CanSplit()
    ensures h.CanDouble() ==> g.CanDouble()
  {
    ValuePairIff(h.cards);
  }

  /**
   * The split-then-double sequence of the tests of the earlier rules: a pair
   * of aces with a bet of 100 is split, the new hand cannot double on its one
   * card, takes a king and then doubles to twice the bet of the other hand.
   */
  method SplitAcesThenDouble() returns (first: Hand, second: Hand, oneCard: bool, doubled: bool)
    ensures first.cards == [Valid(Ace, Diamonds)]
    ensures second.cards == [Valid(Ace, Spades), Valid(King, Diamonds)]
    ensures first.HasAces() && second.HasAces() && !first.CanSplit()
    ensures !oneCard && doubled && first.bet == 100 && second.bet == 2 * first.bet
  {
    first := new Hand();
    var hit := first.Hit(Valid(Ace, Diamonds));
    hit := first.Hit(Valid(Ace, Spades));
    first.bet := 100;
    var h := first.Split();
    second := h;
    oneCard := second.CanDouble();
    hit := second.Hit(Valid(King, Diamonds));
    doubled := second.DoubleBet();
  }
}
