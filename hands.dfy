/**
 * A hand of the current rules: its cards, its status, the bet riding on it and
 * two lineage flags. `isSplit` records that the hand came out of a split;
 * `aceSplit` records that a pair of aces was split somewhere in its lineage,
 * which stops a 21 from counting as a blackjack.
 *
 * Every total, bust and best-total question is answered by the fold of
 * `HandValue`; the contracts below state the answers in its closed form
 * (low sum L with every ace as 1, and k aces).
 */
module Hands {
  import opened Symbols
  import opened Cards
  import HandValue

  /** A hand is either still in play or standing until the next round. */
  datatype HandStatus = Stand | Play

  /** Exactly two cards with the same symbol. */
  predicate SymbolPair(cards: seq<PlayingCard>) {
    |cards| == 2 && cards[0].symbol == cards[1].symbol
  }

  /** A pair by symbol is a pair by key, of equal points, with aces exactly when the first card is one. */
  lemma PairFacts(cards: seq<PlayingCard>)
    ensures SymbolPair(cards) <==> |cards| == 2 && Key(cards[0].symbol) == Key(cards[1].symbol)
    ensures SymbolPair(cards) ==>
      Points(cards[0]) == Points(cards[1]) && (HandValue.AceCount(cards) > 0 <==> IsAce(cards[0]))
  {
    if |cards| == 2 {
      if Key(cards[0].symbol) == Key(cards[1].symbol) {
        KeyInjective(cards[0].symbol, cards[1].symbol);
      }
      HandValue.TwoCardCounts(cards[0], cards[1]);
      assert cards == [cards[0], cards[1]];
    }
  }

  class Hand {
    var cards: seq<PlayingCard>
    var status: HandStatus
    var bet: int
    var aceSplit: bool
    var isSplit: bool

    /** An empty hand in play, with no bet and no lineage. */
    constructor ()
      ensures cards == [] && status == Play && bet == 0 && !aceSplit && !isSplit
    {
      cards := [];
      status := Play;
      bet := 0;
      aceSplit := false;
      isSplit := false;
    }

    /** Every total of the hand: L, L + 10, ..., L + 10k. */
    function DisplayTotal(): (t: seq<int>)
      reads this
      ensures t == HandValue.Ladder(HandValue.LowSum(cards), HandValue.AceCount(cards))
      ensures |t| == HandValue.AceCount(cards) + 1
    {
      HandValue.DisplayTotalClosedForm(cards);
      HandValue.DisplayTotal(cards)
    }

    /** The totals of at most 21: none when L is over 21, else the rungs L + 10j that fit. */
    function Total(): (t: seq<int>)
      reads this
      ensures forall x :: x in t <==> x in DisplayTotal() && x <= HandValue.BJ_HAND
      ensures HandValue.LowSum(cards) > HandValue.BJ_HAND ==> t == []
      ensures HandValue.LowSum(cards) <= HandValue.BJ_HAND ==>
        t == HandValue.Ladder(HandValue.LowSum(cards),
                              HandValue.SoftAces(HandValue.LowSum(cards), HandValue.AceCount(cards)))
    {
      HandValue.TotalClosedForm(cards);
      HandValue.KeepAtMostTwice(HandValue.DisplayTotal(cards), HandValue.BJ_HAND);
      HandValue.Total(cards)
    }

    /** Bust: no total is left, which happens exactly when the low sum is over 21. */
    function IsBust(): (b: bool)
      reads this
      ensures b <==> HandValue.LowSum(cards) > HandValue.BJ_HAND
    {
      HandValue.BustIffLowSumOver(cards);
      HandValue.IsBust(cards)
    }

    /** The best total: 0 when bust, else L plus 10 for each ace that still fits under 21. */
    function MaxHand(): (m: int)
      reads this
      ensures m == HandValue.Best(HandValue.LowSum(cards), HandValue.AceCount(cards))
      ensures 0 <= m <= HandValue.BJ_HAND
      ensures IsBust() ==> m == 0
      ensures !IsBust() ==> m in Total()
    {
      HandValue.MaxHandClosedForm(cards);
      HandValue.MaxHandBounds(cards);
      HandValue.MaxHand(cards)
    }

    /** The hand can take a card: some total is at most 21 and it is not standing. */
    function CanHit(): (r: bool)
      reads this
      ensures r <==> !IsBust() && status == Play
    {
      HandValue.KeepAtMostTwice(Total(), HandValue.BJ_HAND);
      HandValue.KeepAtMost(Total(), HandValue.BJ_HAND) != [] && status != HandStatus.Stand
    }

    /**
     * A blackjack: the best total is 21 and no pair of aces was split in the
     * lineage. The number of cards is not checked.
     */
    function IsBlackjack(): (r: bool)
      reads this
      ensures r ==> !IsBust() && !aceSplit
      ensures r <==> !aceSplit && HandValue.Best(HandValue.LowSum(cards), HandValue.AceCount(cards)) == HandValue.BJ_HAND
    {
      MaxHand() == HandValue.BJ_HAND && !aceSplit
    }

    /** The hand can still stand: it is in play. A hand that cannot stand cannot take a card either. */
    function CanStand(): (r: bool)
      reads this
      ensures r <==> status != HandStatus.Stand
      ensures !r ==> !CanHit()
    {
      status == Play
    }

    /**
     * The hand can be split: two cards whose symbols have the same key. The
     * two cards are then worth the same, and the pair has aces exactly when
     * its first card is one.
     */
    function CanSplit(): (r: bool)
      reads this
      ensures r <==> |cards| == 2 && Key(cards[0].symbol) == Key(cards[1].symbol)
      ensures r ==> Points(cards[0]) == Points(cards[1]) && (HasAces() <==> IsAce(cards[0]))
    {
      PairFacts(cards);
      SymbolPair(cards)
    }

    /**
     * The hand can be doubled: two cards, and it did not come out of a split.
     * A hand that came out of a split never doubles, whatever its cards (see
     * `Hit` and `SplitAcesThenDouble`).
     */
    predicate CanDouble()
      reads this
    {
      |cards| == 2 && !isSplit
    }

    /** Some card is an ace. */
    function HasAces(): (r: bool)
      reads this
      ensures r <==> HandValue.AceCount(cards) > 0
    {
      HandValue.HasAceIffAceCount(cards);
      HandValue.HasAce(cards)
    }

    /** Puts the card at the end of a hand in play; a standing hand refuses it. */
    method Hit(c: PlayingCard) returns (ok: bool)
      modifies this
      ensures ok <==> old(status) == Play
      ensures cards == if ok then old(cards) + [c] else old(cards)
      ensures status == old(status) && bet == old(bet)
      ensures aceSplit == old(aceSplit) && isSplit == old(isSplit)
      ensures ok ==> HandValue.LowSum(cards) == HandValue.LowSum(old(cards)) + Points(c)
      ensures old(IsBust()) ==> IsBust()
      ensures ok ==> (CanDouble() <==> |old(cards)| == 1 && !old(isSplit))
      ensures old(isSplit) ==> !CanDouble()
    {
      if status == Play {
        HandValue.AppendCounts(cards, c);
        if IsBust() {
          HandValue.BustStaysBust(cards, c);
        }
        cards := cards + [c];
        ok := true;
      } else {
        ok := false;
      }
    }

    /** Stands the hand: it can neither stand again nor take a card, and nothing else changes. */
    method Stand()
      modifies this
      ensures status == HandStatus.Stand && !CanStand() && !CanHit()
      ensures cards == old(cards) && bet == old(bet)
      ensures aceSplit == old(aceSplit) && isSplit == old(isSplit)
    {
      status := HandStatus.Stand;
    }

    /**
     * Splits a pair: this hand keeps the first card, a new hand in play takes
     * the second and the same bet, both are marked as split, and both carry the
     * ace-split mark when the pair was aces (the mark is never cleared). A hand
     * that is no pair is left alone and nothing is returned.
     */
    method Split() returns (h: Hand?)
      modifies this
      ensures (h != null) <==> old(CanSplit())
      ensures h == null ==>
        cards == old(cards) && status == old(status) && bet == old(bet) &&
        aceSplit == old(aceSplit) && isSplit == old(isSplit)
      ensures h != null ==>
        fresh(h) && h != this &&
        cards == [old(cards)[0]] && h.cards == [old(cards)[1]] && old(cards) == cards + h.cards &&
        h.bet == bet == old(bet) && h.status == Play && status == old(status) &&
        isSplit && h.isSplit &&
        aceSplit == (old(aceSplit) || old(cards)[0].symbol == Ace) && h.aceSplit == aceSplit &&
        !CanDouble() && !h.CanDouble()
      ensures old(aceSplit) ==> aceSplit
    {
      if CanSplit() {
        if HasAces() {
          aceSplit := true;
        }
        isSplit := true;
        h := new Hand();
        h.aceSplit := aceSplit;
        h.isSplit := isSplit;
        var second := cards[1];
        cards := cards[..1];
        var _ := h.Hit(second);
        h.bet := bet;
      } else {
        h := null;
      }
    }

    /** Doubles the bet of a hand that can be doubled; otherwise nothing changes. */
    method DoubleBet() returns (ok: bool)
      modifies this
      ensures ok <==> old(CanDouble())
      ensures bet == if ok then 2 * old(bet) else old(bet)
      ensures cards == old(cards) && status == old(status)
      ensures aceSplit == old(aceSplit) && isSplit == old(isSplit)
    {
      if CanDouble() {
        bet := bet * 2;
        ok := true;
      } else {
        ok := false;
      }
    }
  }

  /**
   * The split-then-double sequence of the hand tests: a pair of aces with a
   * bet of 100 is split, the new hand cannot double on its one card, takes a
   * king and then asks to double. The split lineage refuses it, so the bet
   * stays 100 although the comment on `double?` allows doubling here.
   */
  method SplitAcesThenDouble() returns (first: Hand, second: Hand, oneCard: bool, doubled: bool)
    ensures first.cards == [Valid(Ace, Diamonds)]
    ensures second.cards == [Valid(Ace, Spades), Valid(King, Diamonds)]
    ensures first.isSplit && second.isSplit && first.aceSplit && second.aceSplit
    ensures first.HasAces() && second.HasAces() && !first.CanSplit() && !second.CanSplit()
    ensures !oneCard && !doubled && first.bet == 100 && second.bet == 100
  {
    first := new Hand();
    var hit := first.Hit(Valid(Ace, Diamonds));
    hit := first.Hit(Valid(Ace, Spades));
    first.bet := 100;
    var h := first.Split();
    second := h;
    oneCard := second.CanDouble();
    hit := second.Hit(Valid(King, Diamonds));
    doubled := second.DoubleBet();
  }
}
