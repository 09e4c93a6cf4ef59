/**
 * A player: a betting account that owns hands. Placing, doubling and
 * splitting move money from `cash` into `totalBet` (what is riding on the
 * player's hands this round), so their sum, the stake, never changes; only
 * winnings and refunds add to it.
 *
 * Cash is a real number because a blackjack pays two and a half times the
 * bet; bets are whole numbers.
 */
module Players {
  import opened Wrappers
  import Symbols
  import opened Hands

  /** The hands that are still in play, in order. */
  function LiveHands(hs: seq<Hand>): (r: seq<Hand>)
    reads hs
    ensures forall i :: 0 <= i < |r| ==> r[i] in hs && r[i].status == Play
    ensures forall i :: 0 <= i < |hs| && hs[i].status == Play ==> hs[i] in r
    ensures r == [] <==> forall i :: 0 <= i < |hs| ==> hs[i].status != Play
  {
    if hs == [] then []
    else (if hs[0].status == Play then [hs[0]] else []) + LiveHands(hs[1..])
  }

  class Player {
    var name: string
    var cash: real
    var bet: int
    var totalBet: int
    var hands: seq<Hand>

    /** A new player with the given cash, no hands and nothing bet. */
    constructor (name: string, cash: real)
      ensures this.name == name && this.cash == cash
      ensures hands == [] && bet == 0 && totalBet == 0
    {
      this.name := name;
      this.cash := cash;
      hands := [];
      bet := 0;
      totalBet := 0;
    }

    /** The money the player controls: cash in hand plus what is riding on the hands. */
    function Stake(): real
      reads this
    {
      cash + totalBet as real
    }

    /** Adds a hand at the end and hands back that same hand. */
    method AddHand(h: Hand) returns (r: Hand)
      modifies this
      ensures hands == old(hands) + [h] && r == h
      ensures name == old(name) && cash == old(cash) && bet == old(bet) && totalBet == old(totalBet)
    {
      hands := hands + [h];
      r := hands[|hands| - 1];
    }

    /** Some owned hand is still in play. */
    function HasHands(): (r: bool)
      reads this, hands
      ensures r <==> exists i :: 0 <= i < |hands| && hands[i].status == Play
    {
      LiveHands(hands) != []
    }

    /** The first hand, when some hand is still in play (the first need not be that one); nothing otherwise. */
    function MainHand(): (r: Option<Hand>)
      reads this, hands
      ensures r.Some? <==> exists i :: 0 <= i < |hands| && hands[i].status == Play
      ensures r.Some? ==> r.value == hands[0]
    {
      if HasHands() then Some(hands[0]) else None
    }

    /**
     * Puts the player's current bet on an owned hand, when the cash covers
     * it. The stake is unchanged; a refused bet changes nothing.
     */
    method PlaceBet(h: Hand) returns (ok: bool)
      modifies this, h
      ensures ok <==> h in old(hands) && old(cash) - old(bet) as real >= 0.0
      ensures ok ==> h.bet == old(bet) && cash == old(cash) - old(bet) as real && totalBet == old(totalBet) + old(bet)
      ensures !ok ==> h.bet == old(h.bet) && cash == old(cash) && totalBet == old(totalBet)
      ensures Stake() == old(Stake())
      ensures hands == old(hands) && bet == old(bet) && name == old(name)
      ensures h.cards == old(h.cards) && h.status == old(h.status)
      ensures h.aceSplit == old(h.aceSplit) && h.isSplit == old(h.isSplit)
    {
      if h in hands && cash - bet as real >= 0.0 {
        h.bet := bet;
        totalBet := totalBet + h.bet;
        cash := cash - bet as real;
        ok := true;
      } else {
        ok := false;
      }
    }

    /**
     * Doubles an owned hand that can be doubled, when the cash is strictly
     * more than its bet: the old bet moves from cash to the total bet. The
     * stake is unchanged; a refused double changes nothing.
     */
    method DoubleBet(h: Hand) returns (ok: bool)
      modifies this, h
      ensures ok <==> h in old(hands) && old(h.CanDouble()) && old(cash) - old(h.bet) as real > 0.0
      ensures ok ==> h.bet == 2 * old(h.bet) && cash == old(cash) - old(h.bet) as real && totalBet == old(totalBet) + old(h.bet)
      ensures !ok ==> h.bet == old(h.bet) && cash == old(cash) && totalBet == old(totalBet)
      ensures Stake() == old(Stake())
      ensures hands == old(hands) && bet == old(bet) && name == old(name)
      ensures h.cards == old(h.cards) && h.status == old(h.status)
      ensures h.aceSplit == old(h.aceSplit) && h.isSplit == old(h.isSplit)
    {
      if h in hands && h.CanDouble() && cash - h.bet as real > 0.0 {
        cash := cash - h.bet as real;
        totalBet := totalBet + h.bet;
        var _ := h.DoubleBet();
        ok := true;
      } else {
        ok := false;
      }
    }

    /** Adds the winnings to the cash; nothing else changes. */
    method WonBet(winnings: real)
      modifies this`cash
      ensures cash == old(cash) + winnings
      ensures hands == old(hands) && bet == old(bet) && totalBet == old(totalBet) && name == old(name)
    {
      cash := cash + winnings;
    }

    /**
     * Splits an owned pair when the cash covers its bet again: the hand keeps
     * its first card, and a new hand in play, with the second card and the
     * same bet, goes at the end of the hands. Both are marked as split, and
     * both carry the ace-split mark when the pair was aces. The bet moves
     * from cash to the total bet. There is no limit on the number of hands.
     * The stake is unchanged; a refused split changes nothing.
     */
    method SplitHand(h: Hand) returns (ok: bool)
      modifies this, h
      ensures ok <==> h in old(hands) && old(h.CanSplit()) && old(cash) - old(h.bet) as real >= 0.0
      ensures ok ==>
        |hands| == |old(hands)| + 1 && hands[..|old(hands)|] == old(hands) &&
        fresh(hands[|old(hands)|]) &&
        h.cards == [old(h.cards)[0]] && hands[|old(hands)|].cards == [old(h.cards)[1]] &&
        hands[|old(hands)|].bet == h.bet == old(h.bet) &&
        hands[|old(hands)|].status == Play && h.status == old(h.status) &&
        h.isSplit && hands[|old(hands)|].isSplit &&
        h.aceSplit == hands[|old(hands)|].aceSplit == (old(h.aceSplit) || old(h.cards)[0].symbol == Symbols.Ace) &&
        cash == old(cash) - old(h.bet) as real && totalBet == old(totalBet) + old(h.bet)
      ensures !ok ==>
        hands == old(hands) && cash == old(cash) && totalBet == old(totalBet) &&
        h.cards == old(h.cards) && h.bet == old(h.bet) && h.status == old(h.status) &&
        h.aceSplit == old(h.aceSplit) && h.isSplit == old(h.isSplit)
      ensures Stake() == old(Stake())
      ensures bet == old(bet) && name == old(name)
    {
      if h in hands && h.CanSplit() && cash - h.bet as real >= 0.0 {
        var n := h.Split();
        hands := hands + [n];
        cash := cash - h.bet as real;
        totalBet := totalBet + h.bet;
        ok := true;
      } else {
        ok := false;
      }
    }

    /** Throws away the old hands; the money is left alone. */
    method StartNewRound()
      modifies this
      ensures hands == []
      ensures cash == old(cash) && bet == old(bet) && totalBet == old(totalBet) && name == old(name)
    {
      hands := [];
    }

    /** Stands every owned hand, so none of them can take another card; cards, bets and marks stay. */
    method EndRound()
      modifies hands
      ensures forall i :: 0 <= i < |hands| ==> hands[i].status == Stand && !hands[i].CanHit()
      ensures forall h :: h in hands ==>
        h.cards == old(h.cards) && h.bet == old(h.bet) && h.aceSplit == old(h.aceSplit) && h.isSplit == old(h.isSplit)
    {
      for i := 0 to |hands|
        invariant forall j :: 0 <= j < i ==> hands[j].status == Stand
        invariant forall h :: h in hands ==>
          h.cards == old(h.cards) && h.bet == old(h.bet) && h.aceSplit == old(h.aceSplit) && h.isSplit == old(h.isSplit)
      {
        hands[i].Stand();
      }
    }
  }
}
