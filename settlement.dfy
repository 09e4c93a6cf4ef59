/**
 * The end of a round: the dealer draws to 17, every player hand is settled
 * against the dealer's hand, and broke players leave the table. An aborted
 * round refunds every stake instead.
 *
 * Settlement looks at three things of each hand, gathered in a `Showing`:
 * whether it is bust, whether it is a blackjack, and its best total. The
 * classification is a chain of four tests; `Classify` keeps the fifth,
 * impossible branch as `None`, and its contract proves that branch is never
 * taken. `OutcomeByBest` then shows that the whole chain amounts to
 * comparing best totals, with the player's blackjack deciding between the
 * two kinds of win.
 */
module Settlement {
  import opened Wrappers
  import opened Symbols
  import opened Cards
  import HandValue
  import opened Hands
  import opened Players
  import opened Shoe

  /** The dealer draws while the best total is below this. */
  const DEALER_STAY: int := 17

  /** How a player hand ends against the dealer's hand. */
  datatype Outcome = Push | Lose | BlackjackWin | Win

  /** What settlement reads off a hand. */
  datatype Showing = Showing(bust: bool, blackjack: bool, best: int)

  /** A bust hand shows best 0, a blackjack shows 21, and every best total lies in 0..21. */
  predicate Consistent(s: Showing) {
    0 <= s.best <= HandValue.BJ_HAND &&
    (s.bust ==> s.best == 0) &&
    (s.blackjack ==> s.best == HandValue.BJ_HAND)
  }

  /**
   * What a hand with these cards and this ace-split mark shows, in the closed
   * form of the totals: bust when the low sum is over 21, the best total, and
   * a blackjack when that best is 21 and no aces were split.
   */
  function Show(cards: seq<PlayingCard>, aceSplit: bool): (s: Showing)
    ensures Consistent(s)
  {
    var low := HandValue.LowSum(cards);
    var best := HandValue.Best(low, HandValue.AceCount(cards));
    HandValue.BestRange(low, HandValue.AceCount(cards));
    Showing(low > HandValue.BJ_HAND, !aceSplit && best == HandValue.BJ_HAND, best)
  }

  /** The closed form agrees with the fold: bust, best total and blackjack as the totals give them. */
  lemma ShowByFold(cards: seq<PlayingCard>, aceSplit: bool)
    ensures Show(cards, aceSplit) ==
      Showing(HandValue.IsBust(cards), HandValue.MaxHand(cards) == HandValue.BJ_HAND && !aceSplit,
              HandValue.MaxHand(cards))
  {
    HandValue.MaxHandClosedForm(cards);
    HandValue.BustIffLowSumOver(cards);
  }

  /** The hand's own queries show what the closed form shows for its cards and its ace-split mark. */
  lemma QueriesShow(h: Hand)
    ensures Showing(h.IsBust(), h.IsBlackjack(), h.MaxHand()) == Show(h.cards, h.aceSplit)
  {
  }

  /**
   * The chain of tests of the settlement, in order: push, lose, blackjack
   * win, win; `None` stands for the branch that raises. Whatever the two
   * hands show, one of the four tests holds.
   */
  function Classify(p: Showing, d: Showing): (r: Option<Outcome>)
    ensures r.Some?
  {
    if (p.bust && d.bust) || (p.blackjack && d.blackjack) || p.best == d.best then Some(Push)
    else if p.bust || d.blackjack || (!d.bust && p.best < d.best) then Some(Lose)
    else if p.blackjack then Some(BlackjackWin)
    else if d.bust || p.best > d.best then Some(Win)
    else None
  }

  /**
   * For hands that show consistently, the outcome is decided by the best
   * totals alone: equal is a push, lower loses, higher wins, and a higher
   * blackjack is the blackjack win.
   */
  lemma OutcomeByBest(p: Showing, d: Showing)
    requires Consistent(p) && Consistent(d)
    ensures Classify(p, d) == Some(Push) <==> p.best == d.best
    ensures Classify(p, d) == Some(Lose) <==> p.best < d.best
    ensures Classify(p, d) == Some(BlackjackWin) <==> p.best > d.best && p.blackjack
    ensures Classify(p, d) == Some(Win) <==> p.best > d.best && !p.blackjack
  {
  }

  /** A push for the player is a push seen from the dealer's side too. */
  lemma PushSymmetric(p: Showing, d: Showing)
    requires Consistent(p) && Consistent(d)
    ensures Classify(p, d) == Some(Push) <==> Classify(d, p) == Some(Push)
  {
    OutcomeByBest(p, d);
    OutcomeByBest(d, p);
  }

  /** What the player is credited for a hand with this bet. */
  function Payout(o: Outcome, bet: int): real
  {
    match o
    case Push => bet as real
    case Lose => 0.0
    case BlackjackWin => 2.5 * bet as real
    case Win => 2.0 * bet as real
  }

  /** What the dealer is credited for a hand with this bet. */
  function DealerTake(o: Outcome, bet: int): real
  {
    if o == Lose then bet as real else 0.0
  }

  /**
   * Every stake comes back somewhere: the player gets it back (a push), the
   * dealer takes it (a loss), or the player gets it back with winnings of one
   * or one and a half times the bet. Nobody is credited twice for one hand.
   */
  lemma StakeAccountedFor(o: Outcome, bet: int)
    requires bet >= 0
    ensures Payout(o, bet) == 0.0 || DealerTake(o, bet) == 0.0
    ensures Payout(o, bet) + DealerTake(o, bet) >= bet as real
    ensures DealerTake(o, bet) > 0.0 ==> o == Lose
  {
  }

  /** What settlement needs of a hand: its cards, its ace-split mark and its bet. */
  datatype Staked = Staked(cards: seq<PlayingCard>, aceSplit: bool, bet: int)

  /** The cards, ace-split mark and bet of a hand as they are now. */
  function StakeOf(h: Hand): Staked
    reads h
  {
    Staked(h.cards, h.aceSplit, h.bet)
  }

  /** The stakes list the hands one for one, as they are now. */
  predicate StakesOf(hs: seq<Hand>, st: seq<Staked>)
    reads hs
  {
    |st| == |hs| && forall j :: 0 <= j < |hs| ==> st[j] == StakeOf(hs[j])
  }

  /** The outcome of a staked hand against what the dealer hand shows. */
  function OutcomeOf(s: Staked, d: Showing): Outcome {
    Classify(Show(s.cards, s.aceSplit), d).value
  }

  /**
   * What settlement credits for one hand, by best totals: the bet on equal
   * totals, nothing on a lower one, and two and a half or two times the bet
   * on a higher one, depending on the blackjack. The dealer takes the bet
   * exactly on a lower total.
   */
  lemma PayoutByBest(s: Staked, d: Showing)
    requires Consistent(d)
    ensures var p := Show(s.cards, s.aceSplit);
      Payout(OutcomeOf(s, d), s.bet) ==
        if p.best == d.best then s.bet as real
        else if p.best < d.best then 0.0
        else if p.blackjack then 2.5 * s.bet as real
        else 2.0 * s.bet as real
    ensures var p := Show(s.cards, s.aceSplit);
      DealerTake(OutcomeOf(s, d), s.bet) == if p.best < d.best then s.bet as real else 0.0
  {
    OutcomeByBest(Show(s.cards, s.aceSplit), d);
  }

  /** What settling some hands moves: the amount paid to the player and the amount taken by the dealer. */
  datatype Amounts = Amounts(paid: real, taken: real)

  /** The payouts and the dealer's takings of the staked hands, each summed in order. */
  function Settled(st: seq<Staked>, d: Showing): Amounts {
    if st == [] then Amounts(0.0, 0.0)
    else
      var before, s := Settled(st[..|st| - 1], d), st[|st| - 1];
      var o := OutcomeOf(s, d);
      Amounts(before.paid + Payout(o, s.bet), before.taken + DealerTake(o, s.bet))
  }

  /** The dealer's takings from every player's staked hands, in order. */
  function TotalTaken(stakes: seq<seq<Staked>>, d: Showing): real {
    if stakes == [] then 0.0
    else TotalTaken(stakes[..|stakes| - 1], d) + Settled(stakes[|stakes| - 1], d).taken
  }

  /** Adding a player's stakes at the end adds what the dealer takes from them. */
  lemma TotalTakenAppend(stakes: seq<seq<Staked>>, st: seq<Staked>, d: Showing)
    ensures TotalTaken(stakes + [st], d) == TotalTaken(stakes, d) + Settled(st, d).taken
  {
    assert (stakes + [st])[..|stakes|] == stakes;
  }

  /** The sum of the bets on the staked hands. */
  function StakesBet(st: seq<Staked>): int {
    if st == [] then 0 else StakesBet(st[..|st| - 1]) + st[|st| - 1].bet
  }

  /**
   * With bets that are not negative, nothing settled is negative, and the
   * player and the dealer together receive at least every bet: no stake
   * disappears at settlement.
   */
  lemma {:induction false} SettledCoversBets(st: seq<Staked>, d: Showing)
    requires forall i :: 0 <= i < |st| ==> st[i].bet >= 0
    ensures Settled(st, d).paid >= 0.0 && Settled(st, d).taken >= 0.0
    ensures Settled(st, d).paid + Settled(st, d).taken >= StakesBet(st) as real
  {
    if st != [] {
      var s := st[|st| - 1];
      SettledCoversBets(st[..|st| - 1], d);
      StakeAccountedFor(OutcomeOf(s, d), s.bet);
    }
  }

  /** The players whose cash is gone, in order. */
  function Broke(ps: seq<Player>): seq<Player>
    reads ps`cash
  {
    if ps == [] then []
    else (if ps[0].cash <= 0.0 then [ps[0]] else []) + Broke(ps[1..])
  }

  /** The players who still have cash, in order. */
  function Solvent(ps: seq<Player>): seq<Player>
    reads ps`cash
  {
    if ps == [] then []
    else (if ps[0].cash > 0.0 then [ps[0]] else []) + Solvent(ps[1..])
  }

  /** The cash of each player, in order. */
  function CashOf(ps: seq<Player>): (r: seq<real>)
    reads ps
    ensures |r| == |ps| && forall k :: 0 <= k < |ps| ==> r[k] == ps[k].cash
  {
    if ps == [] then [] else [ps[0].cash] + CashOf(ps[1..])
  }

  /** No player appears twice: the first is not among the rest, and so on down the list. */
  predicate Distinct(ps: seq<Player>) {
    ps == [] || (ps[0] !in ps[1..] && Distinct(ps[1..]))
  }

  /** In a list without repeats, different positions hold different players. */
  lemma {:induction false} DistinctAt(ps: seq<Player>)
    requires Distinct(ps)
    ensures forall i, j :: 0 <= i < j < |ps| ==> ps[i] != ps[j]
  {
    if ps != [] {
      DistinctAt(ps[1..]);
      forall i, j | 0 <= i < j < |ps|
        ensures ps[i] != ps[j]
      {
        if i > 0 {
          assert ps[i] == ps[1..][i - 1] && ps[j] == ps[1..][j - 1];
        } else {
          assert ps[j] == ps[1..][j - 1];
        }
      }
    }
  }

  /** In a list without repeats, no other position holds the player at position i. */
  lemma {:induction false} DistinctOthers(ps: seq<Player>, i: int)
    requires Distinct(ps) && 0 <= i < |ps|
    ensures forall k :: 0 <= k < |ps| && k != i ==> ps[k] != ps[i]
  {
    DistinctAt(ps);
  }

  /** A player not yet listed can join a list without repeats at the end. */
  lemma {:induction false} DistinctAppend(ps: seq<Player>, p: Player)
    requires Distinct(ps) && p !in ps
    ensures Distinct(ps + [p])
  {
    if ps != [] {
      DistinctAppend(ps[1..], p);
      assert (ps + [p])[1..] == ps[1..] + [p];
    }
  }

  /** A player is broke exactly when it is one of the players and has no cash left; solvent exactly when it has some. */
  lemma {:induction false} PartitionMembers(ps: seq<Player>)
    ensures forall p :: p in Broke(ps) <==> p in ps && p.cash <= 0.0
    ensures forall p :: p in Solvent(ps) <==> p in ps && p.cash > 0.0
  {
    if ps != [] {
      PartitionMembers(ps[1..]);
      assert ps == [ps[0]] + ps[1..];
    }
  }

  /** The broke and the solvent players together are the players, each as often as before. */
  lemma {:induction false} PartitionKeepsPlayers(ps: seq<Player>)
    ensures multiset(Broke(ps)) + multiset(Solvent(ps)) == multiset(ps)
  {
    if ps != [] {
      PartitionKeepsPlayers(ps[1..]);
      assert ps == [ps[0]] + ps[1..];
    }
  }

  /** Keeping the solvent players keeps them distinct. */
  lemma {:induction false} SolventDistinct(ps: seq<Player>)
    requires Distinct(ps)
    ensures Distinct(Solvent(ps))
  {
    if ps != [] {
      SolventDistinct(ps[1..]);
      PartitionMembers(ps[1..]);
      if ps[0].cash > 0.0 {
        assert Solvent(ps) == [ps[0]] + Solvent(ps[1..]);
        assert Solvent(ps)[1..] == Solvent(ps[1..]);
        assert ps[0] !in Solvent(ps[1..]);
      } else {
        assert Solvent(ps) == Solvent(ps[1..]);
      }
    }
  }

  /** Twenty against twenty is a push that returns the bet. */
  lemma TwentyAgainstTwenty(bet: int)
    ensures var o := Classify(Show([Valid(King, Spades), Valid(Queen, Hearts)], false),
                              Show([Valid(Ten, Clubs), Valid(Jack, Diamonds)], false));
      o == Some(Push) && Payout(o.value, bet) == bet as real
  {
    var mine: seq<PlayingCard> := [Valid(King, Spades), Valid(Queen, Hearts)];
    var theirs: seq<PlayingCard> := [Valid(Ten, Clubs), Valid(Jack, Diamonds)];
    assert Show(mine, false).best == 20 && Show(theirs, false).best == 20;
  }

  /** Fifteen against a bust dealer wins twice the bet. */
  lemma FifteenAgainstBust(bet: int)
    ensures var o := Classify(Show([Valid(Nine, Spades), Valid(Six, Hearts)], false),
                              Show([Valid(King, Diamonds), Valid(Six, Clubs), Valid(Nine, Clubs)], false));
      o == Some(Win) && Payout(o.value, bet) == 2.0 * bet as real
  {
    var mine: seq<PlayingCard> := [Valid(Nine, Spades), Valid(Six, Hearts)];
    var theirs: seq<PlayingCard> := [Valid(King, Diamonds), Valid(Six, Clubs), Valid(Nine, Clubs)];
    assert HandValue.LowSum(mine) == 15 && HandValue.AceCount(mine) == 0;
    assert HandValue.LowSum(theirs) == 25;
  }

  /** An ace and a king against nineteen win two and a half times the bet. */
  lemma NaturalAgainstNineteen(bet: int)
    ensures var o := Classify(Show([Valid(Ace, Spades), Valid(King, Hearts)], false),
                              Show([Valid(Ten, Diamonds), Valid(Nine, Clubs)], false));
      o == Some(BlackjackWin) && Payout(o.value, bet) == 2.5 * bet as real
  {
    var mine: seq<PlayingCard> := [Valid(Ace, Spades), Valid(King, Hearts)];
    var theirs: seq<PlayingCard> := [Valid(Ten, Diamonds), Valid(Nine, Clubs)];
    assert HandValue.LowSum(mine) == 11 && HandValue.AceCount(mine) == 1;
    assert HandValue.LowSum(theirs) == 19 && HandValue.AceCount(theirs) == 0;
  }

  /** A bust player against a bust dealer is a push. */
  lemma BustAgainstBust(bet: int)
    ensures var o := Classify(Show([Valid(Queen, Spades), Valid(Eight, Hearts), Valid(Five, Spades)], false),
                              Show([Valid(King, Diamonds), Valid(Six, Clubs), Valid(Nine, Clubs)], false));
      o == Some(Push) && Payout(o.value, bet) == bet as real
  {
    var mine: seq<PlayingCard> := [Valid(Queen, Spades), Valid(Eight, Hearts), Valid(Five, Spades)];
    var theirs: seq<PlayingCard> := [Valid(King, Diamonds), Valid(Six, Clubs), Valid(Nine, Clubs)];
    assert HandValue.LowSum(mine) == 23 && HandValue.LowSum(theirs) == 25;
  }

  /**
   * The blackjack test does not count cards, so a dealer's three sevens are a
   * blackjack too, and a natural against them is only a push.
   */
  lemma NaturalAgainstThreeSevens()
    ensures Show([Valid(Seven, Diamonds), Valid(Seven, Clubs), Valid(Seven, Hearts)], false).blackjack
    ensures Classify(Show([Valid(Ace, Spades), Valid(King, Hearts)], false),
                     Show([Valid(Seven, Diamonds), Valid(Seven, Clubs), Valid(Seven, Hearts)], false)) == Some(Push)
  {
    var mine: seq<PlayingCard> := [Valid(Ace, Spades), Valid(King, Hearts)];
    var theirs: seq<PlayingCard> := [Valid(Seven, Diamonds), Valid(Seven, Clubs), Valid(Seven, Hearts)];
    assert HandValue.LowSum(mine) == 11 && HandValue.AceCount(mine) == 1;
    assert HandValue.LowSum(theirs) == 21 && HandValue.AceCount(theirs) == 0;
  }

  /** A 21 reached after splitting aces is no blackjack: against twenty it wins twice the bet, not two and a half. */
  lemma SplitAcesTwentyOne(bet: int)
    ensures !Show([Valid(Ace, Spades), Valid(King, Hearts)], true).blackjack
    ensures var o := Classify(Show([Valid(Ace, Spades), Valid(King, Hearts)], true),
                              Show([Valid(King, Spades), Valid(Queen, Hearts)], false));
      o == Some(Win) && Payout(o.value, bet) == 2.0 * bet as real
  {
    var mine: seq<PlayingCard> := [Valid(Ace, Spades), Valid(King, Hearts)];
    var theirs: seq<PlayingCard> := [Valid(King, Spades), Valid(Queen, Hearts)];
    assert HandValue.LowSum(mine) == 11 && HandValue.AceCount(mine) == 1;
    assert HandValue.LowSum(theirs) == 20 && HandValue.AceCount(theirs) == 0;
  }

  /**
   * Settles one hand of a player against what the dealer hand shows: the
   * player is credited the payout of its outcome and the dealer what it
   * takes; nothing else changes.
   */
  method SettleHand(p: Player, h: Hand, dealer: Player, theirs: Showing) returns (o: Outcome)
    requires p != dealer
    modifies p`cash, dealer`cash
    ensures o == OutcomeOf(StakeOf(h), theirs)
    ensures p.cash == old(p.cash) + Payout(o, h.bet)
    ensures dealer.cash == old(dealer.cash) + DealerTake(o, h.bet)
  {
    var mine := Showing(h.IsBust(), h.IsBlackjack(), h.MaxHand());
    QueriesShow(h);
    o := Classify(mine, theirs).value;
    match o
    case Push => p.WonBet(h.bet as real);
    case Lose => dealer.WonBet(h.bet as real);
    case BlackjackWin => p.WonBet(2.5 * h.bet as real);
    case Win => p.WonBet(2.0 * h.bet as real);
  }

  /**
   * Settles every hand of a player in order: the player is credited the
   * payouts of all its hands and the dealer what it takes from them.
   * `st` lists the hands as they were settled.
   */
  method SettlePlayer(p: Player, dealer: Player, theirs: Showing) returns (ghost st: seq<Staked>)
    requires p != dealer
    modifies p`cash, dealer`cash
    ensures StakesOf(p.hands, st)
    ensures p.cash == old(p.cash) + Settled(st, theirs).paid
    ensures dealer.cash == old(dealer.cash) + Settled(st, theirs).taken
  {
    var hs := p.hands;
    st := [];
    for j := 0 to |hs|
      invariant p.hands == hs && old(StakesOf(hs[..j], st))
      invariant p.cash == old(p.cash) + Settled(st, theirs).paid
      invariant dealer.cash == old(dealer.cash) + Settled(st, theirs).taken
    {
      var h := hs[j];
      var _ := SettleHand(p, h, dealer, theirs);
      ghost var s := StakeOf(h);
      assert (st + [s])[..j] == st;
      st := st + [s];
    }
    assert hs[..|hs|] == hs;
  }

  /** The dealer takes another card: its hand is neither bust nor at 17 or more. */
  predicate Draws(cards: seq<PlayingCard>) {
    !HandValue.IsBust(cards) && HandValue.MaxHand(cards) < DEALER_STAY
  }

  /** Every card from position `from` on was drawn to a hand that still had to draw. */
  predicate DrewWhileShort(cards: seq<PlayingCard>, from: nat) {
    forall j :: from <= j < |cards| ==> Draws(cards[..j])
  }

  /**
   * The dealer's rule, from the hand `held` and the shoe `shoe` to the hand
   * `hand` and the shoe `left`: it stops exactly when it no longer has to
   * draw (`ok`), or else with the shoe empty. A hand in play takes cards
   * from the top of the shoe, each while it still had to draw; a hand not in
   * play takes none, and the cards dealt to it drop. A hand that has no
   * reason to draw changes nothing.
   */
  predicate DealerRule(held: seq<PlayingCard>, shoe: seq<PlayingCard>, inPlay: bool,
                       hand: seq<PlayingCard>, left: seq<PlayingCard>, ok: bool)
  {
    (ok <==> !Draws(hand)) && (!ok ==> left == []) &&
    (inPlay ==> hand + left == held + shoe && DrewWhileShort(hand, |held|)) &&
    (!inPlay ==> hand == held && left == if ok then shoe else []) &&
    (!Draws(held) ==> hand == held && left == shoe)
  }

  /** A card drawn to a hand that has to draw extends the run of draws. */
  lemma DrawOneMore(cards: seq<PlayingCard>, from: nat, c: PlayingCard)
    requires from <= |cards| && DrewWhileShort(cards, from) && Draws(cards)
    ensures DrewWhileShort(cards + [c], from)
  {
    forall j | from <= j < |cards + [c]|
      ensures Draws((cards + [c])[..j])
    {
      if j == |cards| {
        assert (cards + [c])[..j] == cards;
      } else {
        assert (cards + [c])[..j] == cards[..j];
      }
    }
  }

  /** Moving the top card of a shoe to the end of a hand keeps the hand followed by the shoe. */
  lemma MoveTop(held: seq<PlayingCard>, shoe: seq<PlayingCard>)
    requires shoe != []
    ensures (held + [shoe[0]]) + shoe[1..] == held + shoe
  {
    assert shoe == [shoe[0]] + shoe[1..];
  }

  class Game {
    var dealer: Player
    var deck: Decks
    var players: seq<Player>
    var losers: seq<Player>
    var numRounds: int

    /** The dealer sits apart from the players, and no player sits twice. */
    predicate Valid()
      reads this
    {
      dealer !in players && Distinct(players)
    }

    /**
     * A table with a dealer holding no cash, a shuffled shoe of `numDecks`
     * decks (the shuffle's random choices are `picks`), and one new player per
     * name, each with the same starting cash.
     */
    constructor (names: seq<string>, cash: real, numDecks: int, picks: seq<nat>)
      ensures Valid()
      ensures |players| == |names| && losers == [] && numRounds == 0
      ensures forall i :: 0 <= i < |players| ==>
        fresh(players[i]) && players[i].name == names[i] && players[i].cash == cash &&
        players[i].hands == [] && players[i].totalBet == 0
      ensures fresh(dealer) && dealer.cash == 0.0 && dealer.hands == []
      ensures fresh(deck) && |deck.cards| == if numDecks < MIN_DECKS then 0 else 52 * numDecks
      ensures multiset(deck.cards) == multiset(ShoeOf(if numDecks < MIN_DECKS then 0 else numDecks))
    {
      var d := new Player("Dealer", 0.0);
      var ps: seq<Player> := [];
      for i := 0 to |names|
        invariant |ps| == i && d !in ps && Distinct(ps)
        invariant d.cash == 0.0 && d.hands == []
        invariant forall k :: 0 <= k < i ==>
          fresh(ps[k]) && ps[k].name == names[k] && ps[k].cash == cash &&
          ps[k].hands == [] && ps[k].totalBet == 0
      {
        var p := new Player(names[i], cash);
        DistinctAppend(ps, p);
        ps := ps + [p];
      }
      dealer := d;
      var shoe := new Decks(numDecks);
      shoe.Shuffle(picks);
      deck := shoe;
      players := ps;
      losers := [];
      numRounds := 0;
    }

    /**
     * Deals the top card of the shoe to the dealer hand, when the shoe has
     * one; a hand that is not in play refuses it, and the card is gone.
     */
    method DealOne(dh: Hand) returns (dealt: bool)
      modifies dh, deck
      ensures dealt <==> old(deck.cards) != []
      ensures dealt ==> deck.cards == old(deck.cards)[1..]
      ensures !dealt ==> deck.cards == []
      ensures dh.cards == if dealt && dh.status == Play then old(dh.cards) + [old(deck.cards)[0]] else old(dh.cards)
      ensures dh.status == old(dh.status) && dh.bet == old(dh.bet)
      ensures dh.aceSplit == old(dh.aceSplit) && dh.isSplit == old(dh.isSplit)
      ensures deck.numDecks == old(deck.numDecks)
    {
      var d := deck.Deal(1);
      dealt := !d.NoCard?;
      if dealt {
        assert old(deck.cards) == [d.card] + deck.cards;
        var _ := dh.Hit(d.card);
      }
    }

    /**
     * The dealer draws while its hand is neither bust nor at 17, and stops
     * there. When the shoe runs out first, the draw fails with the shoe empty
     * and the hand still short. Each drawn card goes to the hand if it is in
     * play, so cards move from the shoe to an open hand without loss, and
     * every card it gets was drawn while it still had to draw. A standing
     * hand lets every card drop, so the shoe empties unless the hand already
     * stops. A hand that already stops takes nothing and leaves the shoe.
     */
    method DealerDraws(dh: Hand) returns (ok: bool)
      modifies dh, deck
      ensures ok <==> !Draws(dh.cards)
      ensures ok ==> dh.IsBust() || dh.MaxHand() >= DEALER_STAY
      ensures !ok ==> deck.cards == [] && !dh.IsBust() && dh.MaxHand() < DEALER_STAY
      ensures DealerRule(old(dh.cards), old(deck.cards), old(dh.status) == Play, dh.cards, deck.cards, ok)
      ensures dh.status == old(dh.status) && dh.bet == old(dh.bet)
      ensures dh.aceSplit == old(dh.aceSplit) && dh.isSplit == old(dh.isSplit)
      ensures deck.numDecks == old(deck.numDecks)
    {
      ok := true;
      ghost var stops := !Draws(dh.cards);
      while !dh.IsBust() && dh.MaxHand() < DEALER_STAY
        invariant old(dh.status) == Play ==> dh.cards + deck.cards == old(dh.cards) + old(deck.cards)
        invariant old(dh.status) == Play ==> |old(dh.cards)| <= |dh.cards| && DrewWhileShort(dh.cards, |old(dh.cards)|)
        invariant old(dh.status) != Play ==> dh.cards == old(dh.cards)
        invariant stops ==> dh.cards == old(dh.cards) && deck.cards == old(deck.cards)
        invariant dh.status == old(dh.status) && dh.bet == old(dh.bet)
        invariant dh.aceSplit == old(dh.aceSplit) && dh.isSplit == old(dh.isSplit)
        invariant deck.numDecks == old(deck.numDecks)
        decreases |deck.cards|
      {
        ghost var held, top := dh.cards, deck.cards;
        assert Draws(held);
        var dealt := DealOne(dh);
        if !dealt {
          ok := false;
          return;
        }
        if dh.status == Play {
          MoveTop(held, top);
          DrawOneMore(held, |old(dh.cards)|, top[0]);
        }
      }
    }

    /**
     * The dealer plays its first hand by the dealer's rule and shows it: bust,
     * blackjack and best total, as its own queries answer them.
     */
    method DealerPlays() returns (ok: bool, shown: Showing)
      requires dealer.hands != []
      modifies deck, dealer.hands[0]
      ensures shown == Show(dealer.hands[0].cards, dealer.hands[0].aceSplit)
      ensures dealer.hands[0].status == old(dealer.hands[0].status)
      ensures DealerRule(old(dealer.hands[0].cards), old(deck.cards), old(dealer.hands[0].status) == Play,
                         dealer.hands[0].cards, deck.cards, ok)
      ensures ok ==> shown.bust || shown.best >= DEALER_STAY
      ensures !ok ==> !shown.bust && shown.best < DEALER_STAY
    {
      var dh := dealer.hands[0];
      ok := DealerDraws(dh);
      shown := Showing(dh.IsBust(), dh.IsBlackjack(), dh.MaxHand());
      QueriesShow(dh);
    }

    /**
     * Settles every player in order against what the dealer hand shows.
     * `stakes` lists each player's hands as they were settled.
     */
    method SettleAll(theirs: Showing) returns (ghost stakes: seq<seq<Staked>>)
      requires Valid()
      modifies players`cash, dealer`cash
      ensures |stakes| == |players|
      ensures forall k :: 0 <= k < |players| ==> StakesOf(players[k].hands, stakes[k])
      ensures forall k :: 0 <= k < |players| ==> players[k].cash == old(players[k].cash) + Settled(stakes[k], theirs).paid
      ensures dealer.cash == old(dealer.cash) + TotalTaken(stakes, theirs)
    {
      var ps, dl := players, dealer;
      stakes := [];
      for i := 0 to |ps|
        invariant |stakes| == i
        invariant forall k :: 0 <= k < i ==> old(StakesOf(ps[k].hands, stakes[k]))
        invariant forall k :: 0 <= k < |ps| ==>
          ps[k].cash == old(ps[k].cash) + (if k < i then Settled(stakes[k], theirs).paid else 0.0)
        invariant dl.cash == old(dl.cash) + TotalTaken(stakes, theirs)
      {
        DistinctOthers(ps, i);
        var st := SettlePlayer(ps[i], dl, theirs);
        TotalTakenAppend(stakes, st, theirs);
        stakes := stakes + [st];
      }
    }

    /** Moves the players without cash to the losers, keeping the order of both groups. */
    method RemoveBroke(ghost stakes: seq<seq<Staked>>)
      requires Valid()
      requires |stakes| == |players| && forall k :: 0 <= k < |players| ==> StakesOf(players[k].hands, stakes[k])
      modifies this`players, this`losers
      ensures Valid()
      ensures forall k :: 0 <= k < |old(players)| ==> StakesOf(old(players)[k].hands, stakes[k])
      ensures players == Solvent(old(players)) && losers == old(losers) + Broke(old(players))
    {
      SolventDistinct(players);
      PartitionMembers(players);
      losers := losers + Broke(players);
      players := Solvent(players);
    }

    /**
     * Settles every player against what the dealer hand shows, then moves
     * the players without cash to the losers. `ps`, `cash` and `dealerCash`
     * are the players and what they and the dealer hold beforehand.
     */
    method SettleRound(theirs: Showing, ghost ps: seq<Player>, ghost cash: seq<real>, ghost dealerCash: real)
      returns (ghost stakes: seq<seq<Staked>>)
      requires Valid() && players == ps
      requires |cash| == |ps| && forall k :: 0 <= k < |ps| ==> ps[k].cash == cash[k]
      requires dealer.cash == dealerCash
      modifies this`players, this`losers, ps`cash, dealer`cash
      ensures Valid()
      ensures |stakes| == |ps|
      ensures forall k :: 0 <= k < |ps| ==> StakesOf(ps[k].hands, stakes[k])
      ensures forall k :: 0 <= k < |ps| ==> ps[k].cash == cash[k] + Settled(stakes[k], theirs).paid
      ensures dealer.cash == dealerCash + TotalTaken(stakes, theirs)
      ensures players == Solvent(ps) && losers == old(losers) + Broke(ps)
    {
      stakes := SettleAll(theirs);
      RemoveBroke(stakes);
    }

    /**
     * Finishes a round: counts it, lets the dealer draw into its first hand,
     * and, if the shoe lasted, settles every player against what that hand
     * shows and then moves the broke players to the losers. When the shoe
     * runs out during the draw, nobody is paid and the table is left as it was.
     * `ps` and `cash` are the players and their cash beforehand.
     */
    method FinishRound() returns (ok: bool, shown: Showing, ghost ps: seq<Player>, ghost cash: seq<real>,
                                  ghost stakes: seq<seq<Staked>>)
      requires Valid() && dealer.hands != []
      modifies this`numRounds, this`players, this`losers, deck, dealer.hands[0], players`cash, dealer`cash
      ensures ps == old(players) && |cash| == |ps| && forall k :: 0 <= k < |ps| ==> cash[k] == old(ps[k].cash)
      ensures Valid()
      ensures numRounds == old(numRounds) + 1
      ensures shown == Show(dealer.hands[0].cards, dealer.hands[0].aceSplit)
      ensures dealer.hands[0].status == old(dealer.hands[0].status)
      ensures DealerRule(old(dealer.hands[0].cards), old(deck.cards), old(dealer.hands[0].status) == Play,
                         dealer.hands[0].cards, deck.cards, ok)
      ensures !ok ==> deck.cards == [] && !shown.bust && shown.best < DEALER_STAY
      ensures !ok ==> players == ps && losers == old(losers)
      ensures !ok ==> forall k :: 0 <= k < |ps| ==> ps[k].cash == cash[k]
      ensures !ok ==> dealer.cash == old(dealer.cash)
      ensures ok ==> shown.bust || shown.best >= DEALER_STAY
      ensures ok ==> |stakes| == |ps|
      ensures ok ==> forall k :: 0 <= k < |ps| ==> StakesOf(ps[k].hands, stakes[k])
      ensures ok ==> forall k :: 0 <= k < |ps| ==> ps[k].cash == cash[k] + Settled(stakes[k], shown).paid
      ensures ok ==> dealer.cash == old(dealer.cash) + TotalTaken(stakes, shown)
      ensures ok ==> players == Solvent(ps) && losers == old(losers) + Broke(ps)
    {
      ps, cash := players, CashOf(players);
      ghost var dealerCash := dealer.cash;
      numRounds := numRounds + 1;
      ok, shown := DealerPlays();
      stakes := [];
      if ok {
        stakes := SettleRound(shown, ps, cash, dealerCash);
      }
    }

    /** Gives every player back what is riding on the hands; the dealer gets nothing back, and nothing else changes. */
    method ResetPlayers()
      requires Valid()
      modifies players
      ensures forall k :: 0 <= k < |players| ==>
        players[k].cash == old(players[k].cash) + old(players[k].totalBet) as real &&
        players[k].totalBet == old(players[k].totalBet) && players[k].hands == old(players[k].hands) &&
        players[k].bet == old(players[k].bet) && players[k].name == old(players[k].name)
    {
      DistinctAt(players);
      for i := 0 to |players|
        invariant forall k :: 0 <= k < i ==>
          players[k].cash == old(players[k].cash) + old(players[k].totalBet) as real
        invariant forall k :: i <= k < |players| ==> players[k].cash == old(players[k].cash)
        invariant forall k :: 0 <= k < |players| ==>
          players[k].totalBet == old(players[k].totalBet) && players[k].hands == old(players[k].hands) &&
          players[k].bet == old(players[k].bet) && players[k].name == old(players[k].name)
      {
        players[i].WonBet(players[i].totalBet as real);
      }
    }

    /** Clears the hands, the bet and the total bet of every player and of the dealer; the cash stays. */
    method ResetRound()
      modifies players, dealer
      ensures forall p :: p in players + [dealer] ==>
        p.hands == [] && p.bet == 0 && p.totalBet == 0 && p.cash == old(p.cash) && p.name == old(p.name)
    {
      var table := players + [dealer];
      for i := 0 to |table|
        invariant forall k :: 0 <= k < i ==>
          table[k].hands == [] && table[k].bet == 0 && table[k].totalBet == 0
        invariant forall p :: p in table ==> p.cash == old(p.cash) && p.name == old(p.name)
      {
        table[i].StartNewRound();
        table[i].bet := 0;
        table[i].totalBet := 0;
      }
    }

    /**
     * Ends a round that could not be completed: every player gets back the
     * stake placed this round, so the stake before the round is the cash
     * after it, and every hand and bet is cleared, the dealer's included.
     */
    method IncompleteRound()
      requires Valid()
      modifies players, dealer
      ensures forall k :: 0 <= k < |players| ==>
        players[k].cash == old(players[k].Stake()) && players[k].name == old(players[k].name) &&
        players[k].hands == [] && players[k].bet == 0 && players[k].totalBet == 0
      ensures dealer.cash == old(dealer.cash) && dealer.name == old(dealer.name) &&
        dealer.hands == [] && dealer.bet == 0 && dealer.totalBet == 0
    {
      ResetPlayers();
      ResetRound();
      assert forall k :: 0 <= k < |players| ==> players[k] in players + [dealer];
    }
  }
}
