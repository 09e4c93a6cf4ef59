/**
 * The shoe: one or more standard decks in a single first-in, first-out list.
 * Cards are dealt from the front and returned at the back.
 *
 * The constructor's guard reads `not a.is_a?(Integer) || a < MIN_DECKS`,
 * which Ruby parses as `not (a.is_a?(Integer) || a < MIN_DECKS)`: an integer
 * is never refused, and a count below one simply builds no deck.
 */
module Shoe {
  import opened Symbols
  import opened Cards

  /** The smallest number of decks the guard is meant to accept. */
  const MIN_DECKS: int := 1

  /** What a deal hands out: nothing, the top card itself, or a list of cards. */
  datatype Dealt = NoCard | Single(card: PlayingCard) | Batch(cards: seq<PlayingCard>)

  /** The cards a deal hands out, as a list. */
  function DealtCards(d: Dealt): seq<PlayingCard> {
    match d
    case NoCard => []
    case Single(c) => [c]
    case Batch(cs) => cs
  }

  /** The thirteen cards of one suit, in the order of the rank table. */
  function SuitRow(s: Suit): (row: seq<PlayingCard>)
    ensures |row| == 13
  {
    seq(13, j requires 0 <= j < 13 => Valid(AllSymbols[j], s))
  }

  /** The rows of the first n suits, one after the other. */
  function Rows(n: nat): (d: seq<PlayingCard>)
    requires n <= 4
    ensures |d| == 13 * n
  {
    if n == 0 then [] else Rows(n - 1) + SuitRow(AllSuits[n - 1])
  }

  /** One standard deck: for each suit in list order, every symbol of the table except "AA". */
  function FullDeck(): seq<PlayingCard> {
    Rows(4)
  }

  /** n copies of a list of cards, one after the other. */
  function Repeat(d: seq<PlayingCard>, n: nat): (s: seq<PlayingCard>)
    ensures |s| == |d| * n
  {
    if n == 0 then [] else Repeat(d, n - 1) + d
  }

  /** A shoe of n decks, one after the other. */
  function ShoeOf(n: nat): (s: seq<PlayingCard>)
    ensures |s| == 52 * n
  {
    Repeat(FullDeck(), n)
  }

  /** The card built from the i-th suit letter and the j-th key of the table. */
  lemma BuiltCard(i: nat, j: nat)
    requires i < 4 && j < 14
    ensures SymbolKeys[j] == "AA" <==> j == 13
    ensures NewCard(SymbolKeys[j], CardSuits[i]) == Valid(AllSymbols[j], AllSuits[i])
  {
    KeysInOrder();
    assert SymbolKeys[j] == Key(AllSymbols[j]);
    assert CardSuits[i] == SuitKey(AllSuits[i]);
    NewCardOfKeys(AllSymbols[j], AllSuits[i]);
  }

  /** Extending a prefix of the first n rows plus part of the next row by its next card. */
  lemma RowStep(n: nat, j: nat)
    requires n < 4 && j < 13
    ensures Rows(n) + SuitRow(AllSuits[n])[..j] + [Valid(AllSymbols[j], AllSuits[n])]
         == Rows(n) + SuitRow(AllSuits[n])[..j + 1]
  {
    assert SuitRow(AllSuits[n])[..j] + [Valid(AllSymbols[j], AllSuits[n])] == SuitRow(AllSuits[n])[..j + 1];
  }

  /**
   * Builds one deck as the source does: for each suit letter, for each key of
   * the table in order, a new card unless the key is "AA".
   */
  method CreateDeck() returns (deck: seq<PlayingCard>)
    ensures deck == FullDeck()
  {
    deck := [];
    for i := 0 to |CardSuits|
      invariant deck == Rows(i)
    {
      for j := 0 to |SymbolKeys|
        invariant deck == Rows(i) + SuitRow(AllSuits[i])[..if j < 13 then j else 13]
      {
        BuiltCard(i, j);
        if SymbolKeys[j] != "AA" {
          RowStep(i, j);
          deck := deck + [NewCard(SymbolKeys[j], CardSuits[i])];
        }
      }
    }
  }

  /** A list without repeats counts each of its elements once. */
  lemma {:induction false} CountOnce(s: seq<PlayingCard>, x: PlayingCard)
    requires forall i, j :: 0 <= i < j < |s| ==> s[i] != s[j]
    ensures multiset(s)[x] == if x in s then 1 else 0
  {
    if s != [] {
      var init := s[..|s| - 1];
      CountOnce(init, x);
      assert s == init + [s[|s| - 1]];
      assert s[|s| - 1] !in init;
    }
  }

  /** Where a symbol stands in the table's order. */
  function SymbolIndex(s: Symbol): (i: nat)
    ensures i < 14 && AllSymbols[i] == s
    ensures s != AltAce <==> i < 13
  {
    match s
    case Ace => 0
    case Two => 1
    case Three => 2
    case Four => 3
    case Five => 4
    case Six => 5
    case Seven => 6
    case Eight => 7
    case Nine => 8
    case Ten => 9
    case Jack => 10
    case Queen => 11
    case King => 12
    case AltAce => 13
  }

  /** Where a suit stands in the suit list. */
  function SuitIndex(s: Suit): (i: nat)
    ensures i < 4 && AllSuits[i] == s
  {
    match s
    case Diamonds => 0
    case Clubs => 1
    case Hearts => 2
    case Spades => 3
  }

  /** Card i of a deck is symbol i mod 13 of suit i div 13. */
  lemma FullDeckIndex()
    ensures |FullDeck()| == 52
    ensures forall i :: 0 <= i < 52 ==> FullDeck()[i] == Valid(AllSymbols[i % 13], AllSuits[i / 13])
  {
    forall i | 0 <= i < 52
      ensures FullDeck()[i] == Valid(AllSymbols[i % 13], AllSuits[i / 13])
    {
      RowsIndex(4, i);
    }
  }

  /** The 52 cards of a deck are all different. */
  lemma FullDeckDistinct()
    ensures forall i, j :: 0 <= i < j < 52 ==> FullDeck()[i] != FullDeck()[j]
  {
    FullDeckIndex();
    forall i, j | 0 <= i < j < 52
      ensures FullDeck()[i] != FullDeck()[j]
    {
      if i % 13 != j % 13 {
        assert SymbolIndex(AllSymbols[i % 13]) != SymbolIndex(AllSymbols[j % 13]);
      } else {
        assert SuitIndex(AllSuits[i / 13]) != SuitIndex(AllSuits[j / 13]);
      }
    }
  }

  /** A deck holds every card except the alternate ace. */
  lemma FullDeckMembers(c: PlayingCard)
    ensures c in FullDeck() <==> c.symbol != AltAce
  {
    FullDeckIndex();
    if c.symbol != AltAce {
      var k := 13 * SuitIndex(c.suit) + SymbolIndex(c.symbol);
      assert k % 13 == SymbolIndex(c.symbol) && k / 13 == SuitIndex(c.suit);
      assert FullDeck()[k] == c;
    } else {
      forall k | 0 <= k < 52
        ensures FullDeck()[k] != c
      {
        assert SymbolIndex(AllSymbols[k % 13]) == k % 13;
      }
    }
  }

  /** A deck holds every card except the alternate ace exactly once. */
  lemma FullDeckCount(c: PlayingCard)
    ensures multiset(FullDeck())[c] == if c.symbol == AltAce then 0 else 1
  {
    FullDeckDistinct();
    FullDeckMembers(c);
    CountOnce(FullDeck(), c);
  }

  /** The i-th card of the first n rows: symbol i mod 13 of suit i div 13. */
  lemma {:induction false} RowsIndex(n: nat, i: nat)
    requires n <= 4 && i < 13 * n
    ensures Rows(n)[i] == Valid(AllSymbols[i % 13], AllSuits[i / 13])
  {
    if i < 13 * (n - 1) {
      RowsIndex(n - 1, i);
    } else {
      assert i / 13 == n - 1 && i % 13 == i - 13 * (n - 1);
      assert Rows(n)[i] == SuitRow(AllSuits[n - 1])[i - 13 * (n - 1)];
    }
  }

  /** n copies of a list hold each card n times as often as the list does. */
  lemma {:induction false} RepeatCount(d: seq<PlayingCard>, n: nat, c: PlayingCard)
    ensures multiset(Repeat(d, n))[c] == n * multiset(d)[c]
  {
    if n > 0 {
      var m := multiset(d)[c];
      RepeatCount(d, n - 1, c);
      assert multiset(Repeat(d, n)) == multiset(Repeat(d, n - 1)) + multiset(d);
      assert (n - 1) * m + m == n * m;
    }
  }

  /** A shoe of n decks holds every card except the alternate ace exactly n times. */
  lemma ShoeCounts(n: nat, c: PlayingCard)
    ensures multiset(ShoeOf(n))[c] == if c.symbol == AltAce then 0 else n
  {
    RepeatCount(FullDeck(), n, c);
    FullDeckCount(c);
  }

  class Decks {
    var numDecks: int
    var cards: seq<PlayingCard>

    /** A shoe of `numDecks` fresh decks in order; a count below one gives an empty shoe. */
    constructor (numDecks: int)
      ensures this.numDecks == numDecks
      ensures cards == ShoeOf(if numDecks < MIN_DECKS then 0 else numDecks)
      ensures Size() == if numDecks < MIN_DECKS then 0 else 52 * numDecks
    {
      this.numDecks := numDecks;
      var all: seq<PlayingCard> := [];
      var i := 1;
      while i <= numDecks
        invariant 1 <= i && (numDecks >= 1 ==> i <= numDecks + 1) && (numDecks < 1 ==> i == 1)
        invariant all == ShoeOf(i - 1)
      {
        var deck := CreateDeck();
        all := all + deck;
        i := i + 1;
      }
      cards := all;
    }

    /** The number of cards left, each copy of a card counted. */
    function Size(): nat
      reads this
    {
      |cards|
    }

    /**
     * Removes the first min(k, size) cards and hands them out: the top card
     * itself when k is 1 (nothing when the shoe is empty), the list otherwise
     * (possibly shorter, possibly empty). A negative k removes nothing and
     * hands out nothing. The cards handed out followed by the cards left are
     * the old shoe.
     */
    method Deal(k: int) returns (d: Dealt)
      modifies this
      ensures DealtCards(d) + cards == old(cards)
      ensures k < 0 ==> d == NoCard && cards == old(cards)
      ensures k == 1 ==> d == (if old(cards) == [] then NoCard else Single(old(cards)[0]))
      ensures k >= 0 && k != 1 ==> d == Batch(old(cards)[..if k < |old(cards)| then k else |old(cards)|])
      ensures k >= 0 ==> Size() == old(Size()) - (if k < old(Size()) then k else old(Size()))
      ensures numDecks == old(numDecks)
    {
      var taken: seq<PlayingCard>;
      var none := k < 0;
      if none {
        taken := [];
      } else {
        var m := if k < |cards| then k else |cards|;
        taken := cards[..m];
        cards := cards[m..];
      }
      if k == 1 {
        d := if none || taken == [] then NoCard else Single(taken[0]);
      } else {
        d := if none then NoCard else Batch(taken);
      }
    }

    /** Puts a card at the bottom of the shoe. */
    method AddCard(c: PlayingCard)
      modifies this
      ensures cards == old(cards) + [c]
      ensures Size() == old(Size()) + 1
      ensures numDecks == old(numDecks)
    {
      cards := cards + [c];
    }

    /**
     * Reorders the shoe. The random order becomes a parameter: step i takes
     * the card at position picks[i] (modulo what is left, 0 once picks run
     * out) out of the remaining cards. Whatever the picks, the shoe keeps the
     * same cards, each as many times.
     */
    method Shuffle(picks: seq<nat>)
      modifies this
      ensures multiset(cards) == multiset(old(cards))
      ensures Size() == old(Size())
      ensures numDecks == old(numDecks)
    {
      var rest := cards;
      var out: seq<PlayingCard> := [];
      for i := 0 to |cards|
        invariant |out| == i && |rest| == |cards| - i
        invariant multiset(out) + multiset(rest) == multiset(cards)
      {
        var p := if i < |picks| then picks[i] % |rest| else 0;
        assert rest == rest[..p] + [rest[p]] + rest[p + 1..];
        out := out + [rest[p]];
        rest := rest[..p] + rest[p + 1..];
      }
      cards := out;
    }
  }
}
