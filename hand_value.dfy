/**
 * The valuation of a hand: every total its cards can reach.
 *
 * The fold starts from [0]; for each card, in deal order, it adds each of the
 * card's values to every running sum (all sums for the first value, then all
 * sums for the second), and removes repeated sums, keeping first occurrences,
 * before the next card. `Total` keeps the sums of at most 21. Both hand
 * variants value hands this way.
 *
 * The main result, `DisplayTotalClosedForm`, says what the fold computes:
 * with low sum L (every ace counted as 1) and k aces, the totals are exactly
 * L, L + 10, ..., L + 10k, in increasing order.
 */
module HandValue {
  import opened Symbols
  import opened Cards

  /** The point limit above which a total is bust. */
  const BJ_HAND: int := 21

  // ---------------------------------------------------------------------------
  // The fold, as the hand computes it

  /** Ruby's `uniq`: drops every repeat of an earlier element, keeping order. */
  function Uniq(s: seq<int>): seq<int>
  {
    if s == [] then []
    else
      var u := Uniq(s[..|s| - 1]);
      if s[|s| - 1] in u then u else u + [s[|s| - 1]]
  }

  /** Every running sum with `v` added. */
  function Shift(values: seq<int>, v: int): seq<int>
  {
    seq(|values|, i requires 0 <= i < |values| => values[i] + v)
  }

  /** The running sums shifted by each option in turn, concatenated. */
  function Combine(values: seq<int>, options: seq<nat>): seq<int>
  {
    if options == [] then [] else Shift(values, options[0]) + Combine(values, options[1..])
  }

  /** One card of the fold. */
  function Step(values: seq<int>, c: PlayingCard): seq<int>
  {
    Uniq(Combine(values, AllValues(c)))
  }

  /** The fold over the cards, in deal order, from the given running sums. */
  function Fold(values: seq<int>, cards: seq<PlayingCard>): seq<int>
    decreases cards
  {
    if cards == [] then values else Fold(Step(values, cards[0]), cards[1..])
  }

  /** Every total of the hand, including those over 21. */
  function DisplayTotal(cards: seq<PlayingCard>): seq<int>
  {
    Fold([0], cards)
  }

  /** The elements of `s` that are at most `limit`, in order. */
  function KeepAtMost(s: seq<int>, limit: int): seq<int>
  {
    if s == [] then []
    else (if s[0] <= limit then [s[0]] else []) + KeepAtMost(s[1..], limit)
  }

  /** The totals of the hand that are not bust. */
  function Total(cards: seq<PlayingCard>): seq<int>
  {
    KeepAtMost(DisplayTotal(cards), BJ_HAND)
  }

  /** A hand is bust when no total is left. */
  predicate IsBust(cards: seq<PlayingCard>) {
    Total(cards) == []
  }

  /** The largest element of a non-empty sequence. */
  function SeqMax(s: seq<int>): (m: int)
    requires s != []
    ensures m in s && forall x :: x in s ==> x <= m
  {
    if |s| == 1 then s[0]
    else
      var rest := SeqMax(s[1..]);
      assert forall x :: x in s ==> x == s[0] || x in s[1..];
      if s[0] < rest then rest else s[0]
  }

  /** The best non-bust total, or 0 for a bust hand. */
  function MaxHand(cards: seq<PlayingCard>): int
  {
    var t := Total(cards);
    if t == [] then 0 else SeqMax(t)
  }

  // ---------------------------------------------------------------------------
  // The closed form

  /** The sum of the cards with every ace counted as 1. */
  function LowSum(cards: seq<PlayingCard>): nat
  {
    if cards == [] then 0 else Points(cards[0]) + LowSum(cards[1..])
  }

  /** The number of aces among the cards. */
  function AceCount(cards: seq<PlayingCard>): nat
  {
    if cards == [] then 0 else (if IsAce(cards[0]) then 1 else 0) + AceCount(cards[1..])
  }

  /** The k + 1 totals b, b + 10, ..., b + 10k. */
  function Ladder(b: int, k: nat): seq<int>
  {
    seq(k + 1, j => b + 10 * j)
  }

  /** How many aces can count 11 without passing 21 (for a low sum of at most 21). */
  function SoftAces(low: int, aces: nat): nat
    requires low <= BJ_HAND
  {
    if aces < (BJ_HAND - low) / 10 then aces else (BJ_HAND - low) / 10
  }

  /** The best total the closed form predicts: 0 when even the low sum is bust. */
  function Best(low: int, aces: nat): int
  {
    if low > BJ_HAND then 0 else low + 10 * SoftAces(low, aces)
  }

  predicate NoDups(s: seq<int>) {
    forall i, j :: 0 <= i < j < |s| ==> s[i] != s[j]
  }

  // ---------------------------------------------------------------------------
  // Lemmas about Uniq

  /** `Uniq` keeps exactly the elements of its argument. */
  lemma {:induction false} UniqElements(s: seq<int>)
    ensures forall x :: x in Uniq(s) <==> x in s
  {
    if s != [] {
      var init := s[..|s| - 1];
      UniqElements(init);
      assert s == init + [s[|s| - 1]];
    }
  }

  /** `Uniq` never yields a repeated element. */
  lemma {:induction false} UniqNoDups(s: seq<int>)
    ensures NoDups(Uniq(s))
  {
    if s != [] {
      UniqNoDups(s[..|s| - 1]);
    }
  }

  /** `Uniq` leaves a sequence without repeats unchanged. */
  lemma {:induction false} UniqOfNoDups(s: seq<int>)
    requires NoDups(s)
    ensures Uniq(s) == s
  {
    if s != [] {
      var init := s[..|s| - 1];
      UniqOfNoDups(init);
      assert s[|s| - 1] !in init;
      assert s == init + [s[|s| - 1]];
    }
  }

  /** Appending elements already present does not change `Uniq`. */
  lemma {:induction false} UniqAppendPresent(s: seq<int>, t: seq<int>)
    requires forall x :: x in t ==> x in s
    ensures Uniq(s + t) == Uniq(s)
  {
    if t != [] {
      var init := t[..|t| - 1];
      UniqAppendPresent(s, init);
      var whole := s + t;
      assert whole[..|whole| - 1] == s + init;
      assert whole[|whole| - 1] == t[|t| - 1];
      assert t[|t| - 1] in t;
      UniqElements(s + init);
      assert t[|t| - 1] in Uniq(s + init);
    } else {
      assert s + t == s;
    }
  }

  // ---------------------------------------------------------------------------
  // Lemmas about ladders

  lemma LadderNoDups(b: int, k: nat)
    ensures NoDups(Ladder(b, k))
  {
  }

  lemma LadderShift(b: int, k: nat, v: int)
    ensures Shift(Ladder(b, k), v) == Ladder(b + v, k)
  {
  }

  lemma LowerRungsRepeat(b: int, k: nat)
    ensures forall x :: x in Ladder(b + 10, k)[..k] ==> x in Ladder(b, k)
  {
    var a := Ladder(b, k);
    var init := Ladder(b + 10, k)[..k];
    forall x | x in init ensures x in a {
      var j :| 0 <= j < k && init[j] == x;
      assert a[j + 1] == x;
    }
  }

  lemma LadderSnoc(b: int, k: nat)
    ensures Ladder(b, k) + [b + 10 * (k + 1)] == Ladder(b, k + 1)
    ensures b + 10 * (k + 1) !in Ladder(b, k)
  {
  }

  /** Deduplicating a ladder followed by the same ladder ten higher gives one longer ladder. */
  lemma UniqOfTwoLadders(b: int, k: nat)
    ensures Uniq(Ladder(b, k) + Ladder(b + 10, k)) == Ladder(b, k + 1)
  {
    var a := Ladder(b, k);
    var upper := Ladder(b + 10, k);
    var init := upper[..k];
    LowerRungsRepeat(b, k);
    UniqAppendPresent(a, init);
    LadderNoDups(b, k);
    UniqOfNoDups(a);
    var whole := a + upper;
    assert whole[..|whole| - 1] == a + init;
    assert whole[|whole| - 1] == b + 10 * (k + 1);
    LadderSnoc(b, k);
  }

  /** One card of the fold maps a ladder to a ladder. */
  lemma StepOfLadder(b: int, k: nat, c: PlayingCard)
    ensures Step(Ladder(b, k), c) == Ladder(b + Points(c), k + (if IsAce(c) then 1 else 0))
  {
    var vs := AllValues(c);
    if IsAce(c) {
      assert vs == [1, 11];
      LadderShift(b, k, 1);
      LadderShift(b, k, 11);
      var l := Ladder(b, k);
      assert vs[1..] == [11] && vs[1..][1..] == [];
      assert Combine(l, vs) == Shift(l, 1) + (Shift(l, 11) + Combine(l, []));
      assert Combine(l, vs) == Ladder(b + 1, k) + Ladder(b + 1 + 10, k);
      UniqOfTwoLadders(b + 1, k);
    } else {
      assert vs == [Points(c)] && vs[1..] == [];
      LadderShift(b, k, Points(c));
      assert Combine(Ladder(b, k), vs) == Ladder(b + Points(c), k);
      LadderNoDups(b + Points(c), k);
      UniqOfNoDups(Ladder(b + Points(c), k));
    }
  }

  /** The fold over any cards maps a ladder to a ladder. */
  lemma {:induction false} FoldOfLadder(b: int, k: nat, cards: seq<PlayingCard>)
    ensures Fold(Ladder(b, k), cards) == Ladder(b + LowSum(cards), k + AceCount(cards))
    decreases cards
  {
    if cards != [] {
      var c := cards[0];
      StepOfLadder(b, k, c);
      FoldOfLadder(b + Points(c), k + (if IsAce(c) then 1 else 0), cards[1..]);
    }
  }

  /**
   * What the fold computes: with low sum L and k aces, the display totals are
   * L, L + 10, ..., L + 10k, so there are exactly k + 1 of them, all different.
   */
  lemma DisplayTotalClosedForm(cards: seq<PlayingCard>)
    ensures DisplayTotal(cards) == Ladder(LowSum(cards), AceCount(cards))
    ensures |DisplayTotal(cards)| == AceCount(cards) + 1
    ensures NoDups(DisplayTotal(cards))
  {
    assert Ladder(0, 0) == [0];
    FoldOfLadder(0, 0, cards);
  }

  lemma LadderHead(b: int, k: nat)
    requires k > 0
    ensures Ladder(b, k) == [b] + Ladder(b + 10, k - 1)
  {
  }

  lemma SingleRung(b: int)
    ensures Ladder(b, 0) == [b]
  {
  }

  /** Keeping the rungs of a ladder that are at most a limit leaves a shorter ladder. */
  lemma {:induction false} KeepAtMostLadder(b: int, k: nat, limit: int)
    ensures b > limit ==> KeepAtMost(Ladder(b, k), limit) == []
    ensures b <= limit ==>
      (KeepAtMost(Ladder(b, k), limit) == Ladder(b, if k < (limit - b) / 10 then k else (limit - b) / 10))
    decreases k
  {
    var l := Ladder(b, k);
    if k == 0 {
      SingleRung(b);
      assert l[1..] == [];
    } else {
      LadderHead(b, k);
      assert l[1..] == Ladder(b + 10, k - 1);
      KeepAtMostLadder(b + 10, k - 1, limit);
      if b <= limit && b + 10 <= limit {
        var m := if k - 1 < (limit - b - 10) / 10 then k - 1 else (limit - b - 10) / 10;
        assert (limit - b - 10) / 10 == (limit - b) / 10 - 1;
        LadderHead(b, m + 1);
      } else if b <= limit {
        SingleRung(b);
      }
    }
  }

  /** The non-bust totals, in closed form. */
  lemma TotalClosedForm(cards: seq<PlayingCard>)
    ensures LowSum(cards) > BJ_HAND ==> Total(cards) == []
    ensures LowSum(cards) <= BJ_HAND ==> Total(cards) == Ladder(LowSum(cards), SoftAces(LowSum(cards), AceCount(cards)))
  {
    DisplayTotalClosedForm(cards);
    KeepAtMostLadder(LowSum(cards), AceCount(cards), BJ_HAND);
  }

  /** A hand is bust exactly when its low sum is over 21. */
  lemma BustIffLowSumOver(cards: seq<PlayingCard>)
    ensures IsBust(cards) <==> LowSum(cards) > BJ_HAND
  {
    TotalClosedForm(cards);
  }

  /** The largest rung of a ladder is its top. */
  lemma LadderTop(b: int, k: nat)
    ensures SeqMax(Ladder(b, k)) == b + 10 * k
  {
    var l := Ladder(b, k);
    var m := SeqMax(l);
    assert l[k] in l;
    var j :| 0 <= j <= k && l[j] == m;
  }

  /**
   * The best total is the low sum plus 10 for as many aces as fit under 21
   * (the usual soft-ace rule), and 0 for a bust hand.
   */
  lemma MaxHandClosedForm(cards: seq<PlayingCard>)
    ensures MaxHand(cards) == Best(LowSum(cards), AceCount(cards))
  {
    TotalClosedForm(cards);
    var low := LowSum(cards);
    if low <= BJ_HAND {
      LadderTop(low, SoftAces(low, AceCount(cards)));
    }
  }

  lemma BestRange(low: int, aces: nat)
    requires low >= 0
    ensures 0 <= Best(low, aces) <= BJ_HAND
    ensures low <= BJ_HAND ==> low <= Best(low, aces)
  {
  }

  /** The best total lies between 0 and 21, is 0 for a bust hand, and is one of the totals otherwise. */
  lemma MaxHandBounds(cards: seq<PlayingCard>)
    ensures 0 <= MaxHand(cards) <= BJ_HAND
    ensures IsBust(cards) ==> MaxHand(cards) == 0
    ensures !IsBust(cards) ==> MaxHand(cards) in Total(cards)
  {
    MaxHandClosedForm(cards);
    BestRange(LowSum(cards), AceCount(cards));
  }

  lemma {:induction false} NoAcesCount(cards: seq<PlayingCard>)
    requires forall i :: 0 <= i < |cards| ==> !IsAce(cards[i])
    ensures AceCount(cards) == 0
  {
    if cards != [] {
      NoAcesCount(cards[1..]);
    }
  }

  lemma SingleTotalWithoutAces(cards: seq<PlayingCard>)
    requires AceCount(cards) == 0
    ensures DisplayTotal(cards) == [LowSum(cards)]
  {
    DisplayTotalClosedForm(cards);
    SingleRung(LowSum(cards));
  }

  /** Without aces there is exactly one total: the sum of the face values. */
  lemma NoAcesSingleTotal(cards: seq<PlayingCard>)
    requires forall i :: 0 <= i < |cards| ==> !IsAce(cards[i])
    ensures DisplayTotal(cards) == [LowSum(cards)]
  {
    NoAcesCount(cards);
    SingleTotalWithoutAces(cards);
  }

  /** Filtering twice by the same limit changes nothing more. */
  lemma {:induction false} KeepAtMostTwice(s: seq<int>, limit: int)
    ensures KeepAtMost(KeepAtMost(s, limit), limit) == KeepAtMost(s, limit)
    ensures forall x :: x in KeepAtMost(s, limit) <==> x in s && x <= limit
  {
    if s != [] {
      KeepAtMostTwice(s[1..], limit);
      if s[0] <= limit {
        assert KeepAtMost(s, limit) == [s[0]] + KeepAtMost(s[1..], limit);
      } else {
        assert KeepAtMost(s, limit) == KeepAtMost(s[1..], limit);
      }
      assert forall x :: x in s <==> x == s[0] || x in s[1..];
    }
  }

  /** Every card is worth at least 1, so a hand with cards has a positive low sum. */
  lemma LowSumPositive(cards: seq<PlayingCard>)
    requires cards != []
    ensures LowSum(cards) >= 1
  {
    assert Points(cards[0]) >= 1;
  }

  /** Some card of the hand is an ace. */
  predicate HasAce(cards: seq<PlayingCard>) {
    exists i :: 0 <= i < |cards| && IsAce(cards[i])
  }

  /** A hand has an ace exactly when its ace count is positive. */
  lemma {:induction false} HasAceIffAceCount(cards: seq<PlayingCard>)
    ensures HasAce(cards) <==> AceCount(cards) > 0
  {
    if cards != [] {
      HasAceIffAceCount(cards[1..]);
      if HasAce(cards[1..]) {
        var i :| 0 <= i < |cards| - 1 && IsAce(cards[1..][i]);
        assert IsAce(cards[i + 1]);
      }
      if HasAce(cards) && !IsAce(cards[0]) {
        var i :| 0 <= i < |cards| && IsAce(cards[i]);
        assert IsAce(cards[1..][i - 1]);
      }
    }
  }

  /** Adding a card adds its points to the low sum and counts it if it is an ace. */
  lemma {:induction false} AppendCounts(cards: seq<PlayingCard>, c: PlayingCard)
    ensures LowSum(cards + [c]) == LowSum(cards) + Points(c)
    ensures AceCount(cards + [c]) == AceCount(cards) + (if IsAce(c) then 1 else 0)
  {
    if cards != [] {
      assert (cards + [c])[1..] == cards[1..] + [c];
      AppendCounts(cards[1..], c);
    } else {
      assert [] + [c] == [c];
    }
  }

  /** A bust hand stays bust whatever card it receives. */
  lemma BustStaysBust(cards: seq<PlayingCard>, c: PlayingCard)
    requires IsBust(cards)
    ensures IsBust(cards + [c])
  {
    BustIffLowSumOver(cards);
    AppendCounts(cards, c);
    BustIffLowSumOver(cards + [c]);
  }

  lemma TwoCardCounts(a: PlayingCard, b: PlayingCard)
    ensures LowSum([a, b]) == Points(a) + Points(b)
    ensures AceCount([a, b]) == (if IsAce(a) then 1 else 0) + (if IsAce(b) then 1 else 0)
  {
    var one: seq<PlayingCard> := [b];
    assert one[1..] == [];
    assert LowSum(one) == Points(b) && AceCount(one) == (if IsAce(b) then 1 else 0);
    assert [a, b][1..] == one;
  }

  /** Two dealt cards (no alternate ace) reach 21 exactly when one is an ace and the other is worth 10. */
  lemma TwoCardTwentyOne(a: PlayingCard, b: PlayingCard)
    requires a.symbol != AltAce && b.symbol != AltAce
    ensures MaxHand([a, b]) == BJ_HAND <==>
      (IsAce(a) && Points(b) == 10) || (IsAce(b) && Points(a) == 10)
  {
    TwoCardCounts(a, b);
    MaxHandClosedForm([a, b]);
    assert 1 <= Points(a) <= 10 && 1 <= Points(b) <= 10;
    assert IsAce(a) ==> Points(a) == 1;
    assert IsAce(b) ==> Points(b) == 1;
  }

  lemma ThreeSevensCounts()
    ensures LowSum([Valid(Seven, Diamonds), Valid(Seven, Clubs), Valid(Seven, Hearts)]) == 21
    ensures AceCount([Valid(Seven, Diamonds), Valid(Seven, Clubs), Valid(Seven, Hearts)]) == 0
  {
  }

  /** Three sevens reach 21 as well: reaching 21 does not depend on the number of cards. */
  lemma ThreeSevensTwentyOne()
    ensures MaxHand([Valid(Seven, Diamonds), Valid(Seven, Clubs), Valid(Seven, Hearts)]) == BJ_HAND
  {
    ThreeSevensCounts();
    MaxHandClosedForm([Valid(Seven, Diamonds), Valid(Seven, Clubs), Valid(Seven, Hearts)]);
  }

  // ---------------------------------------------------------------------------
  // The best total, as the hand's loop computes it

  /** The running maximum of a non-empty sequence: the first element, raised by every larger one. */
  method Largest(s: seq<int>) returns (m: int)
    requires s != []
    ensures m == SeqMax(s)
  {
    m := s[0];
    for i := 0 to |s|
      invariant m in s
      invariant forall j :: 0 <= j < i ==> s[j] <= m
    {
      if !(s[i] < m) {
        m := s[i];
      }
    }
    var k :| 0 <= k < |s| && s[k] == SeqMax(s);
  }

  /** The best total of a hand, by a walk over its non-bust totals; 0 when the hand is bust. */
  method ComputeMaxHand(cards: seq<PlayingCard>) returns (m: int)
    ensures m == MaxHand(cards)
    ensures m == Best(LowSum(cards), AceCount(cards))
  {
    var t := Total(cards);
    if t == [] {
      m := 0;
    } else {
      m := Largest(t);
    }
    MaxHandClosedForm(cards);
  }

  // ---------------------------------------------------------------------------
  // Worked hands

  /** No cards: the only total is 0, and the hand is not bust. */
  lemma EmptyHandTotals()
    ensures DisplayTotal([]) == [0] && Total([]) == [0] && !IsBust([]) && MaxHand([]) == 0
  {
  }

  lemma TwoAcesLadder()
    ensures Ladder(2, 2) == [2, 12, 22]
    ensures KeepAtMost([2, 12, 22], BJ_HAND) == [2, 12]
  {
  }

  /** Two aces: display totals 2, 12 and 22; totals 2 and 12. */
  lemma TwoAcesTotals()
    ensures DisplayTotal([Valid(Ace, Diamonds), Valid(Ace, Spades)]) == [2, 12, 22]
    ensures Total([Valid(Ace, Diamonds), Valid(Ace, Spades)]) == [2, 12]
    ensures !IsBust([Valid(Ace, Diamonds), Valid(Ace, Spades)])
  {
    var h: seq<PlayingCard> := [Valid(Ace, Diamonds), Valid(Ace, Spades)];
    DisplayTotalClosedForm(h);
    assert LowSum(h) == 2 && AceCount(h) == 2;
    TwoAcesLadder();
  }

  lemma AceKingCounts()
    ensures LowSum([Valid(Ace, Diamonds), Valid(King, Diamonds)]) == 11
    ensures AceCount([Valid(Ace, Diamonds), Valid(King, Diamonds)]) == 1
  {
  }

  lemma AceKingLadder()
    ensures Ladder(11, 1) == [11, 21]
  {
  }

  /** Ace and king: totals 11 and 21, best 21. */
  lemma AceKingTotals()
    ensures DisplayTotal([Valid(Ace, Diamonds), Valid(King, Diamonds)]) == [11, 21]
    ensures MaxHand([Valid(Ace, Diamonds), Valid(King, Diamonds)]) == 21
  {
    var h: seq<PlayingCard> := [Valid(Ace, Diamonds), Valid(King, Diamonds)];
    AceKingCounts();
    DisplayTotalClosedForm(h);
    MaxHandClosedForm(h);
    AceKingLadder();
  }

  /** King, queen and jack: bust, best 0. */
  lemma CourtCardsBust()
    ensures IsBust([Valid(King, Diamonds), Valid(Queen, Diamonds), Valid(Jack, Diamonds)])
    ensures MaxHand([Valid(King, Diamonds), Valid(Queen, Diamonds), Valid(Jack, Diamonds)]) == 0
  {
    var bust: seq<PlayingCard> := [Valid(King, Diamonds), Valid(Queen, Diamonds), Valid(Jack, Diamonds)];
    assert LowSum(bust) == 30;
    BustIffLowSumOver(bust);
    MaxHandClosedForm(bust);
  }

  /** A lone two: best 2. */
  lemma LoneTwo()
    ensures MaxHand([Valid(Two, Diamonds)]) == 2
  {
    var two: seq<PlayingCard> := [Valid(Two, Diamonds)];
    assert LowSum(two) == 2 && AceCount(two) == 0;
    MaxHandClosedForm(two);
  }
}
