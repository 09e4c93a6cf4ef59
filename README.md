# Blackjack rules engine in Dafny

This project models the rules engine of a terminal blackjack game written
in Ruby. The model covers:

- the rank table and the cards;
- the valuation of a hand;
- the hand, both in its current form and in an earlier variant;
- the player as a betting account;
- the shoe;
- the end of a round: the dealer draws to 17, every hand is settled, an
  aborted round is refunded, and broke players leave the table.

Modules, one per part of the engine:

- `Wrappers`: the `Option` type.
- `Symbols`: the rank table `SymbolVals` (bj_symbol.rb) with its key order, and
  the suit list (`CardSuits`, as in Cards.rb; bj_suit.rb is not part of this
  model). Symbols and suits become enumerations. `ParseSymbol` and `ParseSuit`
  recognise exactly the keys of the table and the listed suits.
- `Cards`: `Card` (bj_card.rb). A card is either valid or an explicit
  `Invalid` value whose symbol and suit are unset. Hands and the shoe hold
  `PlayingCard`, the valid cards.
- `HandValue`: the fold of `display_total`, which starts from `[0]`, adds every
  value of each card and drops repeats after each card. Also `total`,
  `bust?` and `max_hand` over a list of cards. The fold is proved equal to a
  closed form: with low sum L (every ace as 1) and k aces, the totals are
  L, L+10, ..., L+10k.
- `Hands`: the `Hand` class of bj_hand.rb, with its fields updated in place.
  It carries the `is_split` and `ace_split` lineage flags.
- `LegacyHands`: the `Hand` of Cards.rb as a second rule policy. It has no
  lineage, a pair is judged by points, any two cards can double, and any 21
  is a blackjack.
- `Players`: the `Player` class of bj_player.rb. Placing, doubling and
  splitting move money from `cash` to `totalBet`. Their sum, the stake, is
  an invariant of each of these operations.
- `Shoe`: the `Decks` class of bj_deck.rb, a first-in first-out list of cards.
  The deck builder's nested loops are a method proved equal to `FullDeck()`.
  A shoe of n decks holds every card except the alternate ace exactly n times.
- `Settlement`: `finish_round`, `incomplete_round`, `reset_players` and
  `reset_round` of bj_game.rb.
  - The classification of a hand against the dealer's is a function.
  - The raising branch is proved unreachable.
  - The outcome is proved to depend only on the best totals and the player's
    blackjack.
  - The dealer's draw loop, the crediting loops and the partition of broke
    players are methods of the `Game` class. Their results are stated against
    specification functions (`Settled`, `TotalTaken`, `Solvent`, `Broke`).

Money is exact: cash is a `real`, because a blackjack pays 2.5 times the bet,
and bets are integers.

Where the code and its comments or tests disagree, the model follows the code:

- `double?` in bj_hand.rb (line 128) refuses a hand that came out of a split,
  although the comment at line 126 says doubling after a split is allowed.
  The split-then-double test in tc_hand.rb (line 93) expects the double to
  succeed; `Hands.SplitAcesThenDouble` shows that the code refuses it.
- The guard of `Decks#initialize` (bj_deck.rb:31) parses as
  `not (a.is_a?(Integer) || a < MIN_DECKS)`. So an integer count below one is
  accepted and builds an empty shoe.
- A dealer hand that reaches 21 with three cards is a blackjack, because
  `bj?` does not count cards.

## Model

| member | source | states |
|---|---|---|
| Symbols.ParseSymbol | bj_symbol.rb:4-18 | a key is recognised exactly when it is in the table; the symbol found has that key and the table's points for it |
| Symbols.ParseSuit | Cards.rb:30-37 | a letter is recognised exactly when it is one of D, C, H, S, and the suit found has that letter |
| Symbols.SymbolsMatchTable | bj_symbol.rb:6-16 | every symbol is a key of the table, is worth the table's points, and parses back to itself |
| Symbols.SuitsMatchList | Cards.rb:30-37 | every suit is in the suit list and parses back to itself |
| Symbols.KeyInjective | bj_symbol.rb:6-16 | different symbols have different keys |
| Symbols.KeysInOrder | bj_symbol.rb:6-16 | the table's keys in insertion order are the 14 symbols' keys in order, without repeats, and are exactly the table's keys |
| Symbols.TableSize | bj_symbol.rb:6-16 | the table has exactly 14 keys |
| Symbols.NumberValues | bj_symbol.rb:6-9 | "A" is worth 1 and "2" to "9" are worth their own number |
| Symbols.CourtAndAlternateAce | bj_symbol.rb:10-16 | "T", "J", "Q", "K" are worth 10 and "AA" is worth 11 |
| Symbols.LowValueCount | bj_symbol.rb:6-16 | exactly nine entries are worth less than 10 |
| Symbols.TenValueCount | bj_symbol.rb:10-13 | exactly four entries are worth 10 |
| Symbols.OneValueCount | bj_symbol.rb:6 | exactly one entry is worth 1 |
| Symbols.EqualValueSameSymbol | bj_symbol.rb:6-16 | two symbols with the same points are the same symbol unless both are worth 10 |
| Symbols.SuitsDistinct | Cards.rb:30-37 | the suit list holds four different one-letter strings |
| Cards.NewCard | bj_card.rb:22-32 | the card is valid exactly when the symbol is a key of the table and the suit is listed; a valid card holds the symbol and suit it was given |
| Cards.AllValues | bj_card.rb:40-46 | an ace has two values (its points, then the value of "AA"); any other card has one, the table's points for its symbol |
| Cards.AceIffKeyA | bj_card.rb:35-37 | a card is an ace exactly when it is valid and its symbol's key is "A" |
| Cards.ToString | bj_card.rb:49-51 | a valid card's text is its symbol's key, then "(", its suit's letter and ")", so both can be read back; an invalid card prints as "()" |
| Cards.NewCardOfKeys | bj_card.rb:22-32 | a card built from a symbol's key and a suit's letter is the card of that symbol and suit |
| Cards.AlternateAceCard | bj_card.rb:22-46 | "AA" is accepted as a valid symbol; that card is no ace and has the single value 11 |
| Cards.ValuesOfCards | bj_card.rb:40-46 | an ace's values are [1, 11]; any other card's are [its points] |
| Cards.SampleCards | bj_card.rb:22-37 | A of D and K of S build valid cards, the first an ace and the second not; an unknown symbol or suit builds an invalid card |
| Cards.ToStringInjective | bj_card.rb:49-51 | the text SYMBOL(SUIT) of a card determines the card |
| HandValue.SeqMax | bj_hand.rb:54-63 | the result is an element of the list and no element exceeds it |
| HandValue.DisplayTotalClosedForm | bj_hand.rb:159-175 | the fold yields L, L+10, ..., L+10k (k aces, low sum L): k+1 totals, no repeats |
| HandValue.TotalClosedForm | bj_hand.rb:155-157 | the totals of at most 21 are none when L is over 21, otherwise the rungs L+10j that still fit |
| HandValue.KeepAtMostTwice | bj_hand.rb:155-157 | the filter keeps exactly the sums of at most 21, and applying it again changes nothing |
| HandValue.BustIffLowSumOver | bj_hand.rb:81-83 | a hand is bust exactly when its low sum is over 21 |
| HandValue.MaxHandClosedForm | bj_hand.rb:54-63 | the best total is 0 when bust, else L plus 10 for every ace that still fits under 21 |
| HandValue.MaxHandBounds | bj_hand.rb:54-63 | the best total lies in 0..21, is 0 for a bust hand, and is one of the totals otherwise |
| HandValue.NoAcesSingleTotal | bj_hand.rb:159-175 | a hand without aces has the single total of its points |
| HandValue.HasAceIffAceCount | bj_hand.rb:142-144 | some card is an ace exactly when the ace count is positive |
| HandValue.AppendCounts | bj_hand.rb:66-73 | a card added at the end adds its points to the low sum and one to the ace count if it is an ace |
| HandValue.BustStaysBust | bj_hand.rb:81-83 | adding a card to a bust hand leaves it bust |
| HandValue.TwoCardTwentyOne | bj_hand.rb:86-88 | two dealt cards reach 21 exactly when one is an ace and the other is worth 10 |
| HandValue.ThreeSevensTwentyOne | bj_hand.rb:86-88 | three sevens reach 21 as well |
| HandValue.Largest | bj_hand.rb:54-63 | the loop over the totals returns their maximum |
| HandValue.ComputeMaxHand | bj_hand.rb:54-63 | the best total computed by the loop is the best total of the closed form |
| HandValue.EmptyHandTotals | bj_hand.rb:155-175 | an empty hand has totals [0], is not bust and has best total 0 |
| HandValue.TwoAcesTotals | bj_hand.rb:155-175 | two aces show 2, 12, 22 and total 2, 12, and are not bust |
| HandValue.AceKingTotals | Cards.rb:246-255 | an ace and a king show 11, 21, and the best total is 21 |
| HandValue.CourtCardsBust | Cards.rb:246-275 | a king, a queen and a jack are bust with best total 0 |
| HandValue.LoneTwo | Cards.rb:246-255 | a lone two has best total 2 |
| Hands.Hand.constructor | bj_hand.rb:43-51 | a new hand is empty, in play, has no bet and no lineage |
| Hands.Hand.DisplayTotal | bj_hand.rb:159-175 | the hand's totals are L, L+10, ..., L+10k, one more than the number of aces |
| Hands.Hand.Total | bj_hand.rb:155-157 | the totals of at most 21 are exactly the display totals of at most 21, in closed form |
| Hands.Hand.IsBust | bj_hand.rb:81-83 | bust exactly when the low sum is over 21 |
| Hands.Hand.MaxHand | bj_hand.rb:54-63 | the best total, in 0..21; 0 when bust, otherwise one of the totals |
| Hands.Hand.CanHit | bj_hand.rb:76-78 | the hand can take a card exactly when it is not bust and is in play |
| Hands.Hand.IsBlackjack | bj_hand.rb:86-88 | a blackjack exactly when the best total is 21 and no aces were split in its lineage, whatever the number of cards |
| Hands.PairFacts | bj_hand.rb:119-121 | a pair by symbol is exactly a pair by key; its two cards are worth the same, and it has aces exactly when the first card is one |
| Hands.Hand.CanStand | bj_hand.rb:96-98 | the hand can stand exactly when it is not standing, and a hand that cannot stand cannot take a card either |
| Hands.Hand.CanSplit | bj_hand.rb:119-121 | the hand can be split exactly when it has two cards whose symbols have the same key; those cards are then worth the same, and the pair has aces exactly when its first card is one |
| Hands.SplitAcesThenDouble | tc_hand.rb:71-95 | the test's sequence under the current rules: after splitting aces with a bet of 100, both hands hold one ace, carry both split marks and cannot split again; the new hand cannot double on one card, and after taking a king its double is refused because it came out of a split, so both bets stay 100 |
| Hands.Hand.HasAces | bj_hand.rb:142-144 | some card is an ace exactly when the ace count is positive |
| Hands.Hand.Hit | bj_hand.rb:66-73 | the card is appended exactly when the hand is in play, otherwise nothing changes; a bust hand stays bust; after a card the hand can double exactly when it had one card and no split lineage, and a hand from a split can never double after it |
| Hands.Hand.Stand | bj_hand.rb:91-98 | the hand stands, can neither stand again nor take a card, and keeps its cards and bet |
| Hands.Hand.Split | bj_hand.rb:102-121 | succeeds exactly on two cards of one symbol: this hand keeps card 0, a new hand in play takes card 1 and the same bet, both are marked split, both carry the ace-split mark when the pair was aces, the mark is never cleared, and neither can double; otherwise nothing changes |
| Hands.Hand.DoubleBet | bj_hand.rb:127-139 | the bet doubles exactly when the hand has two cards and did not come out of a split; otherwise nothing changes |
| LegacyHands.ValuePairIff | Cards.rb:306-308 | a pair by symbol is a pair by points; a pair by points is a pair by symbol unless both cards are worth 10 |
| LegacyHands.TenKingPair | Cards.rb:306-308 | a ten and a king are a pair for the earlier rules and not for the current ones |
| LegacyHands.Hand.constructor | Cards.rb:237-243 | a new hand is empty, in play and has no bet |
| LegacyHands.Hand.Total | Cards.rb:342-362 | the totals of at most 21, in the same closed form as the current hand |
| LegacyHands.Hand.IsBust | Cards.rb:273-275 | bust exactly when the low sum is over 21 |
| LegacyHands.Hand.MaxHand | Cards.rb:246-255 | the best total of the closed form, in 0..21 |
| LegacyHands.Hand.CanHit | Cards.rb:268-270 | the hand can take a card exactly when it is not bust and is in play |
| LegacyHands.Hand.IsBlackjack | Cards.rb:278-280 | a blackjack exactly when the best total is 21 |
| LegacyHands.Hand.CanStand | Cards.rb:288-290 | the hand can stand exactly when it is not standing, and a hand that cannot stand cannot take a card either |
| LegacyHands.Hand.CanSplit | Cards.rb:306-308 | the hand can be split exactly when it has two cards whose symbols the rank table values the same; every pair by symbol qualifies |
| LegacyHands.SplitAcesThenDouble | tc_cards.rb:222-246 | the test's sequence under the earlier rules: after splitting aces with a bet of 100, both hands hold an ace and the first cannot split again; the new hand cannot double on one card, and after taking a king it doubles to 200, twice the other hand's bet |
| LegacyHands.Hand.HasAces | Cards.rb:329-331 | some card is an ace exactly when the ace count is positive |
| LegacyHands.Hand.Hit | Cards.rb:258-265 | the card is appended exactly when the hand is in play, otherwise nothing changes; a bust hand stays bust; after a card the hand can double exactly when it had one card, split or not |
| LegacyHands.Hand.Stand | Cards.rb:283-290 | the hand stands, can neither stand again nor take a card, and keeps its cards and bet |
| LegacyHands.Hand.Split | Cards.rb:294-308 | succeeds exactly on two cards of equal points: this hand keeps card 0 and a new hand in play takes card 1 and the same bet; otherwise nothing changes |
| LegacyHands.Hand.DoubleBet | Cards.rb:314-326 | the bet doubles exactly when the hand has two cards; otherwise nothing changes |
| LegacyHands.EarlierRulesAllowMore | Cards.rb:306-316 | on the same cards, whatever the current rules let a hand split or double, the earlier rules allow too |
| Players.LiveHands | bj_player.rb:32-34 | lists exactly the hands in play, and is empty exactly when no hand is in play |
| Players.Player.constructor | bj_player.rb:16-23 | a new player has the given name and cash, no hands and nothing bet |
| Players.Player.AddHand | bj_player.rb:26-29 | the hand is appended and returned; the money is unchanged |
| Players.Player.HasHands | bj_player.rb:32-34 | true exactly when some owned hand is in play |
| Players.Player.MainHand | bj_player.rb:37-43 | the first hand exactly when some hand is in play, nothing otherwise |
| Players.Player.PlaceBet | bj_player.rb:47-56 | succeeds exactly when the hand is owned and the cash covers the bet; the hand takes the bet and the bet moves from cash to the total bet; the stake never changes; a refusal changes nothing |
| Players.Player.DoubleBet | bj_player.rb:60-69 | succeeds exactly when the hand is owned, can double, and the cash is strictly more than its bet; the old bet moves from cash to the total bet and the hand's bet doubles; the stake never changes; a refusal changes nothing |
| Players.Player.WonBet | bj_player.rb:72-74 | the cash grows by exactly the winnings and nothing else changes |
| Players.Player.SplitHand | bj_player.rb:78-87 | succeeds exactly when the hand is owned, is a pair, and the cash covers its bet. The hand keeps its first card. A fresh hand in play, with the second card and the same bet, is appended, with no cap on the number of hands. Both are marked split, and both carry the ace-split mark when the pair was aces. The bet moves from cash to the total bet, and the stake never changes. A refusal changes nothing: hands, money, and the hand's cards, bet, status and marks all stay |
| Players.Player.StartNewRound | bj_player.rb:90-92 | the hands are emptied and the money is left alone |
| Players.Player.EndRound | bj_player.rb:95-97 | every owned hand stands and none can take a card; cards, bets and split marks are unchanged |
| Shoe.ShoeOf | bj_deck.rb:36-38 | a shoe of n decks holds 52n cards |
| Shoe.CreateDeck | bj_deck.rb:44-55 | the nested loops build exactly the standard deck: for each suit, every symbol of the table except "AA" |
| Shoe.FullDeckIndex | bj_deck.rb:44-55 | card i of a deck is symbol i mod 13 of suit i div 13 |
| Shoe.FullDeckDistinct | bj_deck.rb:44-55 | the 52 cards of a deck are all different |
| Shoe.FullDeckMembers | bj_deck.rb:44-55 | a deck holds a card exactly when it is not the alternate ace |
| Shoe.FullDeckCount | bj_deck.rb:44-55 | a deck holds every card except the alternate ace exactly once |
| Shoe.ShoeCounts | bj_deck.rb:26-40 | a shoe of n decks holds every card except the alternate ace exactly n times |
| Shoe.Decks.constructor | bj_deck.rb:26-40 | the shoe is n decks in order, so its size is 52n; a count below one gives an empty shoe of size 0 |
| Shoe.Decks.Deal | bj_deck.rb:59-62 | the cards handed out followed by the cards left are the old shoe; one card is handed out as itself (nothing on an empty shoe); otherwise the first min(k, size) cards as a list; a negative count removes nothing; for a count k of at least 0 the size drops by min(k, size) |
| Shoe.Decks.AddCard | bj_deck.rb:65-67 | the card goes at the bottom and the size grows by exactly one |
| Shoe.Decks.Shuffle | bj_deck.rb:71-73 | whatever the random choices, the shoe keeps the same cards, each as many times, and its size |
| Settlement.Show | bj_hand.rb:54-88 | what settlement reads off a hand is consistent: a bust shows 0, a blackjack shows 21, every best total lies in 0..21 |
| Settlement.ShowByFold | bj_hand.rb:54-88 | the closed form shows the fold's bust, best total and blackjack |
| Settlement.QueriesShow | bj_hand.rb:81-88 | a hand's own bust, blackjack and best-total queries show what the closed form shows |
| Settlement.Classify | bj_game.rb:299-320 | one of the four tests always holds, so the raising branch is never reached |
| Settlement.OutcomeByBest | bj_game.rb:299-317 | push exactly on equal best totals, loss exactly on a lower one, a blackjack win exactly on a higher one with a blackjack, a plain win on a higher one without |
| Settlement.PushSymmetric | bj_game.rb:299-301 | a push for the player is a push with the roles swapped |
| Settlement.StakeAccountedFor | bj_game.rb:299-317 | at most one side is credited for a hand, together they get at least the bet, and the dealer is credited only on a loss |
| Settlement.PayoutByBest | bj_game.rb:299-317 | the player gets the bet on equal totals, nothing on a lower one, 2.5 or 2 times the bet on a higher one; the dealer takes the bet exactly on a lower one |
| Settlement.SettledCoversBets | bj_game.rb:295-323 | with bets that are not negative, nothing settled is negative and the player and dealer together receive at least all bets |
| Settlement.PartitionMembers | bj_game.rb:326-327 | a player is among the losers exactly when it had cash of at most 0, and stays exactly when it had more |
| Settlement.PartitionKeepsPlayers | bj_game.rb:326-327 | the losers and the remaining players together are the old players, none lost or duplicated |
| Settlement.SolventDistinct | bj_game.rb:327 | the remaining players still appear once each |
| Settlement.TwentyAgainstTwenty | bj_game.rb:299-303 | twenty against twenty is a push that returns the bet |
| Settlement.FifteenAgainstBust | bj_game.rb:315-317 | fifteen against a bust dealer wins twice the bet |
| Settlement.NaturalAgainstNineteen | bj_game.rb:311-313 | ace-king against nineteen wins 2.5 times the bet |
| Settlement.BustAgainstBust | bj_game.rb:299-303 | a bust player against a bust dealer is a push |
| Settlement.NaturalAgainstThreeSevens | bj_game.rb:299-303 | three sevens are a blackjack, so ace-king against them is only a push |
| Settlement.SplitAcesTwentyOne | bj_game.rb:311-317 | 21 after splitting aces is no blackjack and wins twice the bet, not 2.5 times |
| Settlement.SettleHand | bj_game.rb:298-321 | the player is credited the payout of the hand's outcome and the dealer what it takes, and the outcome is the classification of the hand |
| Settlement.SettlePlayer | bj_game.rb:296-322 | the player is credited the payouts of all its hands in order, and the dealer what it takes from them |
| Settlement.Game.constructor | bj_game.rb:132-149 | a dealer with no cash, one fresh player per name with the starting cash, and a shuffled shoe holding n decks' cards |
| Settlement.Game.DealOne | bj_game.rb:284-288 | the top card leaves the shoe and goes to the dealer hand if it is in play; an empty shoe reports failure |
| Settlement.Game.DealerDraws | bj_game.rb:283-292 | the dealer's rule: it stops exactly when bust or at 17 or more, and otherwise only with the shoe empty; an open hand takes cards from the top of the shoe without loss, each card drawn while the hand was neither bust nor at 17; a hand that already stops takes nothing and leaves the shoe; a standing hand keeps its cards and the shoe empties unless it already stops |
| Settlement.Game.DealerPlays | bj_game.rb:278-292 | the dealer's first hand is played by the dealer's rule, keeps its status, and shows its bust, blackjack and best total; it ends bust or at 17 or more exactly when the shoe lasted |
| Settlement.Game.SettleAll | bj_game.rb:295-323 | each player is credited the payouts of its own hands and the dealer the sum of what it takes from all of them |
| Settlement.Game.RemoveBroke | bj_game.rb:326-327 | the remaining players are the solvent ones in order, the broke ones are appended to the losers in order, and the table stays without repeats |
| Settlement.Game.SettleRound | bj_game.rb:295-327 | every player is credited its payouts, the dealer its takings, then the broke players leave |
| Settlement.Game.FinishRound | bj_game.rb:274-329 | counts the round and lets the dealer draw by the dealer's rule, so its final hand is its old hand plus cards from the top of the old shoe, each drawn under 17; if the shoe runs out nobody is paid, the dealer's cash is unchanged and so is the table; otherwise the dealer is bust or at 17 or more, every player is paid against that hand and the broke players leave |
| Settlement.Game.ResetPlayers | bj_game.rb:342-346 | every player's cash grows by its total bet; bets, total bets, hands and names are unchanged; the dealer gets nothing back |
| Settlement.Game.ResetRound | bj_game.rb:265-271 | hands, bet and total bet are cleared for every player and the dealer; no cash and no name changes |
| Settlement.Game.IncompleteRound | bj_game.rb:332-339 | every player's cash becomes its stake before the round, names are kept, and all hands and bets are cleared, the dealer's included |

## Left out

- The interactive game loop is not modelled: `play`, the move dispatch of
  `play_round`, `init_game`'s prompts, `place_bets`, `initial_deal`,
  `can_play?` and `continue_play?` of bj_game.rb. They are driven by terminal
  input. `play_round` also passes its `each_with_index` block parameters in
  swapped order (bj_game.rb:243), and that is not modelled either.
- The refund at the end of the whole game (bj_game.rb:106) is part of that
  loop and is left out. `ResetPlayers` models the method it calls.
- Terminal I/O, `sleep` and the SIGINT handling are left out, along with
  InputOutput.rb and bj_play.rb.
- Text rendering is left out: `to_s` of Hand, Player and Decks, and
  `to_long_s` of Card, which also swaps its block parameters. Card `to_s` is
  modelled.
- Players.rb (not valid Ruby) and Game.rb, the draft loop built on it, are not
  part of this model.
- Shuffle randomness: `sort_by { rand }` becomes the `picks` parameter, so only
  "some permutation" is modelled.
- Shoe.Decks.constructor: a count that is not an Integer is not modelled.
  Counts are `int`, so the path where the guard raises is never reached.
- The symbol and suit of an invalid card are modelled as absent. A hand or a
  shoe can hold only valid cards (`PlayingCard`), whereas the Ruby code would
  accept an invalid card and fail later.
- The `flatten!` in `display_total` (bj_hand.rb:162) is left out. It flattens
  nested arrays in the hand's card list, and a modelled hand holds a flat
  list of cards.
- Duplicates are modelled once. Cards.rb's copies of `SymbolVals`, `Card` and
  `Decks` are identical to bj_symbol.rb, bj_card.rb and bj_deck.rb. The suit
  list (D, C, H, S) follows Cards.rb:30-37, because bj_suit.rb is not part of
  this model; that order also fixes the order in which `CreateDeck` builds
  the deck. Only the `Hand` of Cards.rb differs, and it is modelled
  separately.
- Money is exact `real` rather than Ruby Float.
- The dealer's cash is credited on a loss but is never debited for a
  payout. This follows the code, and the model does the same.
- The unused `@dealer_stay` field of the game is left out. The draw limit is
  the literal 17, as in `finish_round`.
- Settlement.Game.FinishRound: the dealer hand is shown once, after its draw,
  and every player is settled against that. The `stakes` and `ps` outputs,
  which record each settled hand and the players beforehand, exist only in
  proofs.
