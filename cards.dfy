/**
 * A playing card. Building a card checks its symbol against the rank table and
 * its suit against the suit list; a card that fails the check is kept as an
 * explicit invalid value whose symbol and suit are unset.
 */
module Cards {
  import opened Wrappers
  import opened Symbols

  datatype Card = Valid(symbol: Symbol, suit: Suit) | Invalid

  /** The cards that hands and the shoe hold: valid ones. */
  type PlayingCard = c: Card | c.Valid? witness Valid(Ace, Diamonds)

  /** Builds a card, valid exactly when both checks pass, holding the symbol and suit it was given. */
  function NewCard(symbol: string, suit: string): (c: Card)
    ensures c.Valid? <==> symbol in SymbolVals && suit in CardSuits
    ensures c.Valid? ==> Key(c.symbol) == symbol && SuitKey(c.suit) == suit
  {
    match (ParseSymbol(symbol), ParseSuit(suit))
    case (Some(sym), Some(s)) => Valid(sym, s)
    case _ => Invalid
  }

  /** An ace is a card whose symbol is exactly "A" (an invalid card has no symbol). */
  predicate IsAce(c: Card) {
    c.Valid? && c.symbol == Ace
  }

  /** The points of a card's own symbol. */
  function Points(c: PlayingCard): nat {
    Value(c.symbol)
  }

  /** Every value a card can take: its own points, then the alternate ace's 11 as well for an ace. */
  function AllValues(c: PlayingCard): (vs: seq<nat>)
    ensures |vs| == (if IsAce(c) then 2 else 1)
    ensures vs[0] == Points(c) == SymbolVals[Key(c.symbol)]
    ensures IsAce(c) ==> vs[1] == SymbolVals["AA"]
  {
    SymbolsMatchTable(c.symbol);
    if IsAce(c) then [Value(c.symbol), Value(AltAce)] else [Value(c.symbol)]
  }

  /**
   * Text of a card as SYMBOL(SUIT); the unset fields of an invalid card print
   * as nothing. The symbol's key and the suit's letter can be read back from
   * the text.
   */
  function ToString(c: Card): (s: string)
    ensures c.Valid? ==>
      |s| == |Key(c.symbol)| + 3 && s[..|s| - 3] == Key(c.symbol) &&
      s[|s| - 3] == '(' && s[|s| - 2..|s| - 1] == SuitKey(c.suit) && s[|s| - 1] == ')'
    ensures !c.Valid? ==> s == "()"
  {
    match c
    case Valid(symbol, suit) => Key(symbol) + "(" + SuitKey(suit) + ")"
    case Invalid => "()"
  }

  /** A card is an ace exactly when it is valid and its symbol's key is "A". */
  lemma AceIffKeyA(c: Card)
    ensures IsAce(c) <==> c.Valid? && Key(c.symbol) == "A"
  {
    if c.Valid? && Key(c.symbol) == "A" {
      KeyInjective(c.symbol, Ace);
    }
  }

  /** A card built from a key and a suit letter is the card of that symbol and suit. */
  lemma NewCardOfKeys(sym: Symbol, suit: Suit)
    ensures NewCard(Key(sym), SuitKey(suit)) == Valid(sym, suit)
  {
    SymbolsMatchTable(sym);
    SuitsMatchList(suit);
  }

  /** "AA" is a key of the table, so a card built from it is valid; it is no ace and is worth only 11. */
  lemma AlternateAceCard(suit: Suit)
    ensures NewCard("AA", SuitKey(suit)) == Valid(AltAce, suit)
    ensures !IsAce(Valid(AltAce, suit)) && AllValues(Valid(AltAce, suit)) == [11]
  {
    NewCardOfKeys(AltAce, suit);
  }

  /** An ace can be 1 or 11; any other card has the single value of its symbol. */
  lemma ValuesOfCards(c: PlayingCard)
    ensures c.symbol == Ace ==> AllValues(c) == [1, 11]
    ensures c.symbol != Ace ==> AllValues(c) == [SymbolVals[Key(c.symbol)]]
  {
  }

  /** "A" of "D" is a valid ace with two values; "K" of "S" is a valid non-ace with one; "X" and "Z" are refused. */
  lemma SampleCards()
    ensures NewCard("A", "D") == Valid(Ace, Diamonds) && NewCard("K", "S") == Valid(King, Spades)
    ensures IsAce(NewCard("A", "D")) && !IsAce(NewCard("K", "S"))
    ensures !NewCard("X", "D").Valid? && !NewCard("A", "Z").Valid?
  {
    NewCardOfKeys(Ace, Diamonds);
    NewCardOfKeys(King, Spades);
  }

  /** The text of a card determines the card. */
  lemma {:induction false} ToStringInjective(a: PlayingCard, b: PlayingCard)
    requires ToString(a) == ToString(b)
    ensures a == b
  {
    var t := ToString(a);
    assert |SuitKey(a.suit)| == 1 && |SuitKey(b.suit)| == 1;
    assert |Key(a.symbol)| == |t| - 3 == |Key(b.symbol)|;
    assert Key(a.symbol) == t[..|t| - 3] == Key(b.symbol);
    assert SuitKey(a.suit) == t[|t| - 2..|t| - 1] == SuitKey(b.suit);
    KeyInjective(a.symbol, b.symbol);
  }
}
