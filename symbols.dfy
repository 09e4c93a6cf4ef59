/**
 * The rank table and the suit list shared by every card, hand and shoe.
 *
 * `SymbolVals` is a Ruby Hash, so it remembers the order in which its keys
 * were inserted; `SymbolKeys` is that order, and the deck builder walks it.
 * The key "AA" is not a rank that is ever dealt: it is where the second
 * value of an ace (11) is kept.
 *
 * Cards hold their symbol and suit as the enumerations `Symbol` and `Suit`;
 * `Key` and `SuitKey` give the text of each, and `ParseSymbol` and
 * `ParseSuit` recognise exactly the keys of the table and the listed suits.
 */
module Symbols {
  import opened Wrappers

  /** The keys of the rank table, in insertion order. */
  const SymbolKeys: seq<string> :=
    ["A", "2", "3", "4", "5", "6", "7", "8", "9", "T", "J", "Q", "K", "AA"]

  /** The rank table: symbol to points. */
  const SymbolVals: map<string, nat> :=
    map["A" := 1, "2" := 2, "3" := 3, "4" := 4, "5" := 5, "6" := 6, "7" := 7,
        "8" := 8, "9" := 9, "T" := 10, "J" := 10, "Q" := 10, "K" := 10,
        "AA" := 11]

  /** The four suits: (D)iamonds, (C)lubs, (H)earts and (S)pades. */
  const CardSuits: seq<string> := ["D", "C", "H", "S"]

  /** The ranks a deck is built from: every key except the alternate ace. */
  const FaceSymbols: seq<string> := SymbolKeys[..13]

  /** One key of the rank table. */
  datatype Symbol =
    | Ace | Two | Three | Four | Five | Six | Seven | Eight | Nine
    | Ten | Jack | Queen | King | AltAce

  /** One of the four suits. */
  datatype Suit = Diamonds | Clubs | Hearts | Spades

  /** The symbols in the table's insertion order. */
  const AllSymbols: seq<Symbol> :=
    [Ace, Two, Three, Four, Five, Six, Seven, Eight, Nine, Ten, Jack, Queen, King, AltAce]

  /** The suits in the order of the suit list. */
  const AllSuits: seq<Suit> := [Diamonds, Clubs, Hearts, Spades]

  /** The text of a symbol: its key in the rank table. */
  function Key(s: Symbol): string {
    match s
    case Ace => "A"
    case Two => "2"
    case Three => "3"
    case Four => "4"
    case Five => "5"
    case Six => "6"
    case Seven => "7"
    case Eight => "8"
    case Nine => "9"
    case Ten => "T"
    case Jack => "J"
    case Queen => "Q"
    case King => "K"
    case AltAce => "AA"
  }

  /** The points of a symbol. */
  function Value(s: Symbol): nat {
    match s
    case Ace => 1
    case Two => 2
    case Three => 3
    case Four => 4
    case Five => 5
    case Six => 6
    case Seven => 7
    case Eight => 8
    case Nine => 9
    case Ten => 10
    case Jack => 10
    case Queen => 10
    case King => 10
    case AltAce => 11
  }

  /** The text of a suit: its letter in the suit list. */
  function SuitKey(s: Suit): string {
    match s
    case Diamonds => "D"
    case Clubs => "C"
    case Hearts => "H"
    case Spades => "S"
  }

  /** The symbol whose key is `key`, if the table has that key. */
  function ParseSymbol(key: string): (r: Option<Symbol>)
    ensures r.Some? <==> key in SymbolVals
    ensures r.Some? ==> Key(r.value) == key && Value(r.value) == SymbolVals[key]
  {
    if key == "A" then Some(Ace)
    else if key == "2" then Some(Two)
    else if key == "3" then Some(Three)
    else if key == "4" then Some(Four)
    else if key == "5" then Some(Five)
    else if key == "6" then Some(Six)
    else if key == "7" then Some(Seven)
    else if key == "8" then Some(Eight)
    else if key == "9" then Some(Nine)
    else if key == "T" then Some(Ten)
    else if key == "J" then Some(Jack)
    else if key == "Q" then Some(Queen)
    else if key == "K" then Some(King)
    else if key == "AA" then Some(AltAce)
    else None
  }

  /** The suit whose letter is `key`, if the suit list has that letter. */
  function ParseSuit(key: string): (r: Option<Suit>)
    ensures r.Some? <==> key in CardSuits
    ensures r.Some? ==> SuitKey(r.value) == key
  {
    if key == "D" then Some(Diamonds)
    else if key == "C" then Some(Clubs)
    else if key == "H" then Some(Hearts)
    else if key == "S" then Some(Spades)
    else None
  }

  /** Every symbol is a key of the table, worth the table's points, and parses back to itself. */
  lemma SymbolsMatchTable(s: Symbol)
    ensures Key(s) in SymbolVals && SymbolVals[Key(s)] == Value(s)
    ensures ParseSymbol(Key(s)) == Some(s)
  {
  }

  /** Every suit is in the suit list and parses back to itself. */
  lemma SuitsMatchList(s: Suit)
    ensures SuitKey(s) in CardSuits && ParseSuit(SuitKey(s)) == Some(s)
  {
  }

  /** Different symbols have different keys. */
  lemma KeyInjective(a: Symbol, b: Symbol)
    requires Key(a) == Key(b)
    ensures a == b
  {
    SymbolsMatchTable(a);
    SymbolsMatchTable(b);
  }

  /** The keys of the table, in order, are the keys of the symbols in order, without repetition. */
  lemma KeysInOrder()
    ensures |SymbolKeys| == |AllSymbols| == 14
    ensures forall i :: 0 <= i < 14 ==> SymbolKeys[i] == Key(AllSymbols[i])
    ensures forall k :: k in SymbolVals <==> k in SymbolKeys
    ensures forall i, j :: 0 <= i < j < |SymbolKeys| ==> SymbolKeys[i] != SymbolKeys[j]
  {
  }

  /** A sequence without repetition has as many distinct elements as entries. */
  lemma {:induction false} DistinctCount(s: seq<string>)
    requires forall i, j :: 0 <= i < j < |s| ==> s[i] != s[j]
    ensures |set x | x in s| == |s|
  {
    if s != [] {
      var rest := s[..|s| - 1];
      DistinctCount(rest);
      assert (set x | x in s) == (set x | x in rest) + {s[|s| - 1]};
      assert s[|s| - 1] !in rest;
    }
  }

  /** The table has exactly 14 keys. */
  lemma TableSize()
    ensures |SymbolVals| == 14
  {
    KeysInOrder();
    assert SymbolVals.Keys == set x | x in SymbolKeys;
    DistinctCount(SymbolKeys);
  }

  /** "A" is worth 1 and "2" to "9" are worth their own number. */
  lemma NumberValues()
    ensures SymbolVals["A"] == 1
    ensures forall i :: 1 <= i <= 8 ==> SymbolVals[SymbolKeys[i]] == i + 1
  {
  }

  /** The ten and the three court cards are all worth 10; "AA" is worth 11. */
  lemma CourtAndAlternateAce()
    ensures SymbolVals["T"] == SymbolVals["J"] == SymbolVals["Q"] == SymbolVals["K"] == 10
    ensures SymbolVals["AA"] == 11
  {
  }

  /** Nine entries of the table are worth less than 10. */
  lemma LowValueCount()
    ensures |set k | k in SymbolVals && SymbolVals[k] < 10| == 9
  {
    var low := ["A", "2", "3", "4", "5", "6", "7", "8", "9"];
    assert (set k | k in SymbolVals && SymbolVals[k] < 10) == set x | x in low;
    DistinctCount(low);
  }

  /** Four entries of the table are worth exactly 10. */
  lemma TenValueCount()
    ensures |set k | k in SymbolVals && SymbolVals[k] == 10| == 4
  {
    var ten := ["T", "J", "Q", "K"];
    assert (set k | k in SymbolVals && SymbolVals[k] == 10) == set x | x in ten;
    DistinctCount(ten);
  }

  /** Exactly one entry of the table is worth 1. */
  lemma OneValueCount()
    ensures |set k | k in SymbolVals && SymbolVals[k] == 1| == 1
  {
    assert (set k | k in SymbolVals && SymbolVals[k] == 1) == {"A"};
  }

  /** Two symbols with the same value are the same symbol, unless both are worth 10. */
  lemma EqualValueSameSymbol(a: Symbol, b: Symbol)
    requires Value(a) == Value(b) != 10
    ensures a == b
  {
  }

  /** The four suits are distinct one-letter strings. */
  lemma SuitsDistinct()
    ensures |CardSuits| == 4
    ensures forall i, j :: 0 <= i < j < 4 ==> CardSuits[i] != CardSuits[j]
    ensures forall s :: s in CardSuits ==> |s| == 1
  {
  }
}
