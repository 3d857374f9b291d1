// The memory-matching game (MemoryGame): sixteen cards, two per emoji,
// shuffled by Fisher-Yates, clicked face up two at a time and resolved as a
// pair. The random index of the shuffle is a parameter; the 1000 ms delay
// before a mismatched pair turns back is part of the atomic resolution step.
//
// The component reads a card by its POSITION in the array (`cards[cardId]`)
// when it gates a click and compares a pair, but flips and marks cards by
// their `id`. After the shuffle the two differ. `Click` and `Resolve` model
// that as written; `ClickById` and `ResolveById` are the by-id reading the
// game evidently intends, proved to keep `matches` equal to half the number
// of matched cards.

module Memory {
  import opened Wrappers
  import opened Seqs

  const Emojis: seq<string> := ["🌸", "🌺", "🌻", "🌷", "🌹", "🍀", "🌿", "🦋"]

  /** Number of pairs. */
  const Pairs := 8

  datatype Card = Card(id: int, value: string, isFlipped: bool, isMatched: bool)

  // ---------------------------------------------------------------------
  // The deck

  /** `[...emojis, ...emojis]` numbered by position, all face down. */
  function Deck(): (d: seq<Card>)
    ensures |d| == 2 * Pairs
    ensures forall k :: 0 <= k < |d| ==> d[k] == Card(k, (Emojis + Emojis)[k], false, false)
  {
    seq(2 * Pairs, k requires 0 <= k < 2 * Pairs => Card(k, (Emojis + Emojis)[k], false, false))
  }

  function Values(cs: seq<Card>): (r: seq<string>)
    ensures |r| == |cs| && forall k :: 0 <= k < |cs| ==> r[k] == cs[k].value
  {
    seq(|cs|, k requires 0 <= k < |cs| => cs[k].value)
  }

  lemma EmojisDistinct()
    ensures NoDuplicates(Emojis)
  {
  }

  /** Every emoji occurs twice in `[...emojis, ...emojis]`. */
  lemma DoubledEmojis(e: string)
    requires e in Emojis
    ensures multiset(Emojis + Emojis)[e] == 2
  {
    EmojisDistinct();
    OccursOnce(Emojis, e);
  }

  /** The deck has 16 cards, numbered 0 to 15, all face down and unmatched,
      and each of the 8 emojis occurs on exactly two of them. */
  lemma DeckShape()
    ensures |Deck()| == 16
    ensures forall k :: 0 <= k < 16 ==> Deck()[k].id == k
    ensures forall c :: c in Deck() ==> !c.isFlipped && !c.isMatched
    ensures forall e :: e in Emojis ==> multiset(Values(Deck()))[e] == 2
    ensures forall c :: c in Deck() ==> c.value in Emojis
  {
    var d := Deck();
    assert Values(d) == Emojis + Emojis;
    forall e | e in Emojis ensures multiset(Values(d))[e] == 2 {
      DoubledEmojis(e);
    }
  }

  // ---------------------------------------------------------------------
  // Fisher-Yates

  /** Every random index lies in `[0, i]`, as `Math.floor(Math.random() * (i + 1))` does. */
  predicate ChoicesOk(choices: seq<int>)
  {
    forall i :: 0 <= i < |choices| ==> 0 <= choices[i] <= i
  }

  function Swap<T>(s: seq<T>, i: nat, j: nat): (r: seq<T>)
    requires i < |s| && j < |s|
    ensures |r| == |s| && r[i] == s[j] && r[j] == s[i]
    ensures forall k :: 0 <= k < |s| && k != i && k != j ==> r[k] == s[k]
  {
    s[i := s[j]][j := s[i]]
  }

  /** The shuffle loop as a function: swap position `i` with `choices[i]`
      for `i` from the given bound down to 1. */
  function FisherYates<T>(s: seq<T>, choices: seq<int>, i: int): (r: seq<T>)
    requires i < |s| && |choices| == |s| && ChoicesOk(choices)
    ensures |r| == |s|
    decreases i
  {
    if i <= 0 then s else FisherYates(Swap(s, i, choices[i]), choices, i - 1)
  }

  predicate DistinctIds(cs: seq<Card>)
  {
    forall i, j :: 0 <= i < j < |cs| ==> cs[i].id != cs[j].id
  }

  lemma SwapPerm<T>(s: seq<T>, i: nat, j: nat)
    requires i < |s| && j < |s|
    ensures multiset(Swap(s, i, j)) == multiset(s)
  {
    if i != j {
      var t := s[i := s[j]];
      assert multiset(t) == multiset(s) - multiset{s[i]} + multiset{s[j]};
    }
  }

  /** Whatever random indices in range it draws, the shuffle keeps the card
      ids distinct. */
  lemma {:induction false} FisherYatesDistinctIds(s: seq<Card>, choices: seq<int>, i: int)
    requires i < |s| && |choices| == |s| && ChoicesOk(choices)
    requires DistinctIds(s)
    ensures DistinctIds(FisherYates(s, choices, i))
    decreases i
  {
    if i > 0 {
      var t := Swap(s, i, choices[i]);
      forall a, b | 0 <= a < b < |t| ensures t[a].id != t[b].id {
        var a' := if a == i then choices[i] else if a == choices[i] then i else a;
        var b' := if b == i then choices[i] else if b == choices[i] then i else b;
        assert t[a] == s[a'] && t[b] == s[b'] && a' != b';
      }
      FisherYatesDistinctIds(t, choices, i - 1);
    }
  }

  /** The shuffle loop of `initializeGame`, in place. */
  method Shuffle(a: array<Card>, choices: seq<int>)
    requires |choices| == a.Length && ChoicesOk(choices)
    modifies a
    ensures a[..] == FisherYates(old(a[..]), choices, a.Length - 1)
  {
    var i := a.Length - 1;
    while i > 0
      invariant -1 <= i < a.Length
      invariant a.Length > 0 ==> i >= 0
      invariant FisherYates(a[..], choices, i) == FisherYates(old(a[..]), choices, a.Length - 1)
    {
      var j := choices[i];
      ghost var before := a[..];
      a[i], a[j] := a[j], a[i];
      assert a[..] == Swap(before, i, j);
      i := i - 1;
    }
  }

  /** The cards `initializeGame` deals for the given random indices. */
  function Dealt(choices: seq<int>): seq<Card>
    requires |choices| == 2 * Pairs && ChoicesOk(choices)
  {
    FisherYates(Deck(), choices, 2 * Pairs - 1)
  }

  /** Ids lie in `[0, 16)`, so an id can be used as a position. */
  predicate IdsInRange(cs: seq<Card>)
  {
    forall k :: 0 <= k < |cs| ==> 0 <= cs[k].id < |cs|
  }

  /** A dealt hand: 16 distinct ids in range, all face down and unmatched,
      every emoji on exactly two cards, and a permutation of the deck. */
  lemma DealtShape(choices: seq<int>)
    requires |choices| == 2 * Pairs && ChoicesOk(choices)
    ensures |Dealt(choices)| == 16 && multiset(Dealt(choices)) == multiset(Deck())
    ensures DistinctIds(Dealt(choices)) && IdsInRange(Dealt(choices))
    ensures forall c :: c in Dealt(choices) ==> !c.isFlipped && !c.isMatched && c.value in Emojis
    ensures forall e :: e in Emojis ==> multiset(Values(Dealt(choices)))[e] == 2
  {
    var d := Deck();
    var r := Dealt(choices);
    DeckShape();
    assert DistinctIds(d);
    FisherYatesDistinctIds(d, choices, 2 * Pairs - 1);
    FisherYatesMultiset(d, choices, 2 * Pairs - 1);
    SameElements(r, d);
    assert IdsInRange(r) by {
      forall k | 0 <= k < |r| ensures 0 <= r[k].id < |r| {
        assert r[k] in d;
      }
    }
    ValuesFisherYates(d, choices, 2 * Pairs - 1);
    FisherYatesMultiset(Values(d), choices, 2 * Pairs - 1);
  }

  lemma SameElements<T>(r: seq<T>, d: seq<T>)
    requires multiset(r) == multiset(d)
    ensures forall x :: x in r <==> x in d
  {
    forall x ensures x in r <==> x in d {
      assert x in r <==> x in multiset(r);
      assert x in d <==> x in multiset(d);
    }
  }

  /** The shuffle permutes the values as it permutes the cards. */
  lemma {:induction false} ValuesFisherYates(s: seq<Card>, choices: seq<int>, i: int)
    requires i < |s| && |choices| == |s| && ChoicesOk(choices)
    ensures Values(FisherYates(s, choices, i)) == FisherYates(Values(s), choices, i)
    decreases i
  {
    if i > 0 {
      assert Values(Swap(s, i, choices[i])) == Swap(Values(s), i, choices[i]);
      ValuesFisherYates(Swap(s, i, choices[i]), choices, i - 1);
    }
  }

  /** Whatever random indices in range it draws, the shuffle returns a
      permutation of its input. */
  lemma {:induction false} FisherYatesMultiset<T>(s: seq<T>, choices: seq<int>, i: int)
    requires i < |s| && |choices| == |s| && ChoicesOk(choices)
    ensures multiset(FisherYates(s, choices, i)) == multiset(s)
    decreases i
  {
    if i > 0 {
      SwapPerm(s, i, choices[i]);
      FisherYatesMultiset(Swap(s, i, choices[i]), choices, i - 1);
    }
  }

  // ---------------------------------------------------------------------
  // Clicking and resolving, as written

  datatype Game = Game(cards: seq<Card>, flippedCards: seq<int>, matches: int, moves: int, gameComplete: bool)

  /** The state `initializeGame` sets. */
  function NewGame(choices: seq<int>): Game
    requires |choices| == 2 * Pairs && ChoicesOk(choices)
  {
    Game(Dealt(choices), [], 0, 0, false)
  }

  /** `cards.map(card => card.id === id ? {...card, isFlipped: true} : card)`:
      the cards with that id are face up afterwards, every other card keeps
      its flag, and nothing else about any card changes. */
  function FlipById(cs: seq<Card>, id: int): (r: seq<Card>)
    ensures |r| == |cs|
    ensures forall k :: 0 <= k < |cs| ==>
              r[k].id == cs[k].id && r[k].value == cs[k].value && r[k].isMatched == cs[k].isMatched
              && r[k].isFlipped == (cs[k].isFlipped || cs[k].id == id)
  {
    seq(|cs|, k requires 0 <= k < |cs| => if cs[k].id == id then cs[k].(isFlipped := true) else cs[k])
  }

  /** Marks the cards with either id as matched: those cards are matched
      afterwards, every other card keeps its flag, and the face-up flags are
      untouched. */
  function MatchIds(cs: seq<Card>, first: int, second: int): (r: seq<Card>)
    ensures |r| == |cs|
    ensures forall k :: 0 <= k < |cs| ==>
              r[k].id == cs[k].id && r[k].value == cs[k].value && r[k].isFlipped == cs[k].isFlipped
              && r[k].isMatched == (cs[k].isMatched || cs[k].id == first || cs[k].id == second)
  {
    seq(|cs|, k requires 0 <= k < |cs| =>
      if cs[k].id == first || cs[k].id == second then cs[k].(isMatched := true) else cs[k])
  }

  /** Turns the cards with either id face down: those cards are face down
      afterwards, every other card keeps its flag, and the matched flags are
      untouched. */
  function UnflipIds(cs: seq<Card>, first: int, second: int): (r: seq<Card>)
    ensures |r| == |cs|
    ensures forall k :: 0 <= k < |cs| ==>
              r[k].id == cs[k].id && r[k].value == cs[k].value && r[k].isMatched == cs[k].isMatched
              && r[k].isFlipped == (cs[k].isFlipped && cs[k].id != first && cs[k].id != second)
  {
    seq(|cs|, k requires 0 <= k < |cs| =>
      if cs[k].id == first || cs[k].id == second then cs[k].(isFlipped := false) else cs[k])
  }

  /** Pending ids can be used as positions. */
  predicate PendingInRange(g: Game)
  {
    forall k :: 0 <= k < |g.flippedCards| ==> 0 <= g.flippedCards[k] < |g.cards|
  }

  /** `handleCardClick(cardId)`: ignored while two cards are pending or when
      the card at POSITION `cardId` is face up or matched; otherwise the card
      whose ID is `cardId` turns face up and `cardId` joins the pending list. */
  function Click(g: Game, cardId: int): Game
    requires 0 <= cardId < |g.cards|
  {
    if |g.flippedCards| == 2 then g
    else if g.cards[cardId].isFlipped || g.cards[cardId].isMatched then g
    else g.(cards := FlipById(g.cards, cardId), flippedCards := g.flippedCards + [cardId])
  }

  /** The pair-resolution effect: with two pending ids it counts a move and
      compares the values at POSITIONS `first` and `second`; equal values
      mark both ids matched (completing the game at the eighth match),
      different ones turn both ids face down. Either way the pending list
      is cleared. With fewer pending ids nothing happens. */
  function Resolve(g: Game): Game
    requires PendingInRange(g)
  {
    if |g.flippedCards| != 2 then g
    else
      var first, second := g.flippedCards[0], g.flippedCards[1];
      if g.cards[first].value == g.cards[second].value then
        g.(cards := MatchIds(g.cards, first, second), matches := g.matches + 1, flippedCards := [],
           moves := g.moves + 1, gameComplete := if g.matches + 1 == Pairs then true else g.gameComplete)
      else
        g.(cards := UnflipIds(g.cards, first, second), flippedCards := [], moves := g.moves + 1)
  }

  /** Two card lists that differ at most in the face-up and matched flags. */
  predicate SameFaces(a: seq<Card>, b: seq<Card>)
  {
    |a| == |b| && forall k :: 0 <= k < |a| ==> a[k].id == b[k].id && a[k].value == b[k].value
  }

  /** No matched card is ever turned back. */
  predicate KeepsMatched(a: seq<Card>, b: seq<Card>)
    requires |a| == |b|
  {
    forall k :: 0 <= k < |a| && a[k].isMatched ==> b[k].isMatched
  }

  /** What the game as written keeps: the deck's faces, at most two pending
      ids, and `gameComplete` set exactly once `matches` has reached 8. */
  predicate GameInv(g: Game)
  {
    |g.cards| == 2 * Pairs && DistinctIds(g.cards) && IdsInRange(g.cards)
    && |g.flippedCards| <= 2 && PendingInRange(g)
    && g.matches >= 0 && g.moves >= 0
    && g.gameComplete == (g.matches >= Pairs)
  }

  lemma NewGameInv(choices: seq<int>)
    requires |choices| == 2 * Pairs && ChoicesOk(choices)
    ensures GameInv(NewGame(choices))
    ensures forall c :: c in NewGame(choices).cards ==> !c.isFlipped && !c.isMatched
  {
    DealtShape(choices);
  }

  /** A click keeps the invariant and the matched cards and counts no move.
      It is ignored exactly when two cards are pending or the card at
      POSITION `cardId` is face up or matched; otherwise the cards whose ID
      is `cardId` turn face up, no other card changes, and `cardId` joins
      the pending list. */
  lemma ClickInv(g: Game, cardId: int)
    requires GameInv(g) && 0 <= cardId < |g.cards|
    ensures GameInv(Click(g, cardId))
    ensures SameFaces(g.cards, Click(g, cardId).cards)
    ensures KeepsMatched(g.cards, Click(g, cardId).cards)
    ensures Click(g, cardId).moves == g.moves && Click(g, cardId).matches == g.matches
    ensures |g.flippedCards| == 2 || g.cards[cardId].isFlipped || g.cards[cardId].isMatched
            ==> Click(g, cardId) == g
    ensures !(|g.flippedCards| == 2 || g.cards[cardId].isFlipped || g.cards[cardId].isMatched)
            ==> var h := Click(g, cardId);
                h.flippedCards == g.flippedCards + [cardId]
                && h.gameComplete == g.gameComplete
                && forall k :: 0 <= k < |g.cards| ==>
                     h.cards[k].isFlipped == (g.cards[k].isFlipped || g.cards[k].id == cardId)
                     && h.cards[k].isMatched == g.cards[k].isMatched
  {
  }

  /** A resolution of a pending pair `[f, s]` counts exactly one move and
      clears the pending list. When the values at POSITIONS `f` and `s` are
      equal, `matches` rises by one and the cards with ID `f` or `s` become
      matched with their face-up flags kept; otherwise `matches` stays and
      those cards turn face down with their matched flags kept. With fewer
      than two pending ids nothing happens. */
  lemma ResolveInv(g: Game)
    requires GameInv(g)
    ensures GameInv(Resolve(g))
    ensures SameFaces(g.cards, Resolve(g).cards)
    ensures KeepsMatched(g.cards, Resolve(g).cards)
    ensures |g.flippedCards| == 2 ==>
              Resolve(g).moves == g.moves + 1 && Resolve(g).flippedCards == []
              && Resolve(g).matches == g.matches
                 + (if g.cards[g.flippedCards[0]].value == g.cards[g.flippedCards[1]].value then 1 else 0)
    ensures |g.flippedCards| == 2 ==>
              var f, s, h := g.flippedCards[0], g.flippedCards[1], Resolve(g);
              if g.cards[f].value == g.cards[s].value then
                forall k :: 0 <= k < |g.cards| ==>
                  h.cards[k].isMatched == (g.cards[k].isMatched || g.cards[k].id == f || g.cards[k].id == s)
                  && h.cards[k].isFlipped == g.cards[k].isFlipped
              else
                forall k :: 0 <= k < |g.cards| ==>
                  h.cards[k].isFlipped == (g.cards[k].isFlipped && g.cards[k].id != f && g.cards[k].id != s)
                  && h.cards[k].isMatched == g.cards[k].isMatched
    ensures |g.flippedCards| != 2 ==> Resolve(g) == g
  {
  }

  /** Number of matched cards. */
  function CountMatched(cs: seq<Card>): (n: nat)
    ensures n <= |cs|
  {
    if cs == [] then 0 else (if cs[0].isMatched then 1 else 0) + CountMatched(cs[1..])
  }

  lemma {:induction false} CountReplace(cs: seq<Card>, i: nat, c: Card)
    requires i < |cs|
    ensures CountMatched(cs[i := c]) ==
            CountMatched(cs) - (if cs[i].isMatched then 1 else 0) + (if c.isMatched then 1 else 0)
    decreases |cs|
  {
    if i > 0 {
      assert cs[i := c][1..] == cs[1..][i - 1 := c];
      CountReplace(cs[1..], i - 1, c);
    } else {
      assert cs[i := c][1..] == cs[1..];
    }
  }

  lemma {:induction false} CountSameFlags(a: seq<Card>, b: seq<Card>)
    requires |a| == |b| && forall k :: 0 <= k < |a| ==> a[k].isMatched == b[k].isMatched
    ensures CountMatched(a) == CountMatched(b)
    decreases |a|
  {
    if a != [] {
      CountSameFlags(a[1..], b[1..]);
    }
  }

  /** Marking the ids of two cards at distinct positions `p` and `q`
      matched is updating those two positions. */
  lemma MatchIdsAt(cs: seq<Card>, p: nat, q: nat)
    requires DistinctIds(cs) && p < |cs| && q < |cs|
    ensures MatchIds(cs, cs[p].id, cs[q].id)
            == cs[p := cs[p].(isMatched := true)][q := cs[q].(isMatched := true)]
  {
  }

  /** As written, clicking the same card twice can score a match. When the
      card at position 0 is not the card with id 0, the gate for clicks on
      id 0 looks at that other card, so two clicks on id 0 both pass and
      leave `[0, 0]` pending; the resolution then compares position 0 with
      itself and counts a match for a single card. */
  lemma DoubleClickFalseMatch(g: Game, p: nat)
    requires GameInv(g) && g.flippedCards == []
    requires g.cards[0].id != 0 && !g.cards[0].isFlipped && !g.cards[0].isMatched
    requires p < |g.cards| && g.cards[p].id == 0 && !g.cards[p].isMatched
    requires CountMatched(g.cards) == 2 * g.matches
    ensures Click(Click(g, 0), 0).flippedCards == [0, 0]
    ensures Resolve(Click(Click(g, 0), 0)).matches == g.matches + 1
    ensures CountMatched(Resolve(Click(Click(g, 0), 0)).cards) == 2 * g.matches + 1
  {
    var g1 := Click(g, 0);
    assert g1.cards[0] == g.cards[0];
    var g2 := Click(g1, 0);
    assert g2.flippedCards == [0, 0];
    var cs := g2.cards;
    assert cs[p].id == 0 && !cs[p].isMatched;
    var g3 := Resolve(g2);
    assert g3.cards == MatchIds(cs, 0, 0);
    MatchIdsAt(cs, p, p);
    assert g3.cards == cs[p := cs[p].(isMatched := true)];
    CountSameFlags(cs, g.cards);
    CountReplace(cs, p, cs[p].(isMatched := true));
  }

  /** Such a deal exists: drawing `j = i` for every `i >= 2` and `j = 0`
      for `i = 1` leaves card 1 at position 0 and card 0 at position 1. */
  lemma SwappedDeal()
    ensures var choices := [0, 0] + seq(14, k => k + 2);
            |choices| == 16 && ChoicesOk(choices)
            && Dealt(choices)[0] == Deck()[1] && Dealt(choices)[1] == Deck()[0]
  {
    var choices := [0, 0] + seq(14, k => k + 2);
    assert ChoicesOk(choices) by {
      forall i | 0 <= i < 16 ensures 0 <= choices[i] <= i {
        if i >= 2 { assert choices[i] == i; }
      }
    }
    FisherYatesIdentity(Deck(), choices, 15);
  }

  /** Steps that draw `j = i` swap nothing. */
  lemma {:induction false} FisherYatesIdentity<T>(s: seq<T>, choices: seq<int>, i: int)
    requires 1 <= i < |s| && |choices| == |s| && ChoicesOk(choices) && |s| >= 2
    requires choices[1] == 0 && forall k :: 2 <= k <= i ==> choices[k] == k
    ensures FisherYates(s, choices, i) == Swap(s, 1, 0)
    decreases i
  {
    if i > 1 {
      assert Swap(s, i, choices[i]) == s;
      FisherYatesIdentity(s, choices, i - 1);
    } else {
      assert FisherYates(Swap(s, 1, 0), choices, 0) == Swap(s, 1, 0);
    }
  }

  // ---------------------------------------------------------------------
  // Clicking and resolving by id (the evidently intended reading)

  /** The position of the card with the given id. */
  function PositionOf(cs: seq<Card>, id: int): (r: Option<nat>)
    ensures r.Some? ==> r.value < |cs| && cs[r.value].id == id
    ensures r.None? ==> forall k :: 0 <= k < |cs| ==> cs[k].id != id
  {
    if cs == [] then None
    else if cs[0].id == id then Some(0)
    else match PositionOf(cs[1..], id)
      case None => None
      case Some(k) => Some(k + 1)
  }

  /** The click handler with the gate reading the card whose id is `cardId`. */
  function ClickById(g: Game, cardId: int): Game
  {
    match PositionOf(g.cards, cardId)
    case None => g
    case Some(p) =>
      if |g.flippedCards| == 2 || g.cards[p].isFlipped || g.cards[p].isMatched then g
      else g.(cards := FlipById(g.cards, cardId), flippedCards := g.flippedCards + [cardId])
  }

  /** The resolution comparing the values of the cards with the two ids. */
  function ResolveById(g: Game): Game
  {
    if |g.flippedCards| != 2 then g
    else
      var first, second := g.flippedCards[0], g.flippedCards[1];
      match (PositionOf(g.cards, first), PositionOf(g.cards, second))
      case (Some(p), Some(q)) =>
        if g.cards[p].value == g.cards[q].value then
          g.(cards := MatchIds(g.cards, first, second), matches := g.matches + 1, flippedCards := [],
             moves := g.moves + 1, gameComplete := if g.matches + 1 == Pairs then true else g.gameComplete)
        else
          g.(cards := UnflipIds(g.cards, first, second), flippedCards := [], moves := g.moves + 1)
      case _ => g.(flippedCards := [], moves := g.moves + 1)
  }

  /** The invariant of the by-id game: distinct ids; pending ids distinct,
      at most two, and each the id of a face-up unmatched card; `matches` is
      half the number of matched cards; complete once 8 pairs are found. */
  predicate ByIdInv(g: Game)
  {
    |g.cards| == 2 * Pairs && DistinctIds(g.cards)
    && |g.flippedCards| <= 2 && NoDuplicates(g.flippedCards)
    && (forall f :: f in g.flippedCards ==> PositionOf(g.cards, f).Some?)
    && (forall k :: 0 <= k < |g.cards| && g.cards[k].id in g.flippedCards ==>
          g.cards[k].isFlipped && !g.cards[k].isMatched)
    && CountMatched(g.cards) == 2 * g.matches
    && g.gameComplete == (g.matches >= Pairs)
  }

  lemma NewGameByIdInv(choices: seq<int>)
    requires |choices| == 2 * Pairs && ChoicesOk(choices)
    ensures ByIdInv(NewGame(choices))
  {
    DealtShape(choices);
    var cs := Dealt(choices);
    CountSameFlags(cs, seq(16, k => Card(0, "", false, false)));
    assert CountMatched(seq(16, k => Card(0, "", false, false))) == 0 by {
      ZeroCount(seq(16, k => Card(0, "", false, false)));
    }
  }

  lemma {:induction false} ZeroCount(cs: seq<Card>)
    requires forall k :: 0 <= k < |cs| ==> !cs[k].isMatched
    ensures CountMatched(cs) == 0
    decreases |cs|
  {
    if cs != [] {
      ZeroCount(cs[1..]);
    }
  }

  lemma ClickByIdInv(g: Game, cardId: int)
    requires ByIdInv(g)
    ensures ByIdInv(ClickById(g, cardId))
  {
    match PositionOf(g.cards, cardId)
    case None =>
    case Some(p) =>
      if !(|g.flippedCards| == 2 || g.cards[p].isFlipped || g.cards[p].isMatched) {
        var h := ClickById(g, cardId);
        assert cardId !in g.flippedCards;
        assert SameFaces(g.cards, h.cards);
        CountSameFlags(g.cards, h.cards);
        forall f | f in h.flippedCards ensures PositionOf(h.cards, f).Some? {
          if f == cardId {
            assert h.cards[p].id == cardId;
          } else {
            var q := PositionOf(g.cards, f).value;
            assert h.cards[q].id == f;
          }
        }
      }
  }

  lemma ResolveByIdInv(g: Game)
    requires ByIdInv(g)
    ensures ByIdInv(ResolveById(g))
  {
    if |g.flippedCards| == 2 {
      var first, second := g.flippedCards[0], g.flippedCards[1];
      var p, q := PositionOf(g.cards, first).value, PositionOf(g.cards, second).value;
      assert p != q;
      var h := ResolveById(g);
      if g.cards[p].value == g.cards[q].value {
        MatchIdsAt(g.cards, p, q);
        CountReplace(g.cards, p, g.cards[p].(isMatched := true));
        CountReplace(g.cards[p := g.cards[p].(isMatched := true)], q, g.cards[q].(isMatched := true));
        assert CountMatched(h.cards) <= 16;
      } else {
        CountSameFlags(g.cards, h.cards);
      }
    }
  }

  /** In the by-id game, `matches` never exceeds 8 and the game is complete
      exactly when every card is matched. */
  lemma CompleteIffAllMatched(g: Game)
    requires ByIdInv(g)
    ensures g.matches <= Pairs
    ensures g.gameComplete <==> (forall k :: 0 <= k < |g.cards| ==> g.cards[k].isMatched)
  {
    AllMatchedIffCount(g.cards);
  }

  lemma {:induction false} AllMatchedIffCount(cs: seq<Card>)
    ensures CountMatched(cs) == |cs| <==> (forall k :: 0 <= k < |cs| ==> cs[k].isMatched)
    decreases |cs|
  {
    if cs != [] {
      AllMatchedIffCount(cs[1..]);
      assert forall k :: 1 <= k < |cs| ==> cs[1..][k - 1] == cs[k];
    }
  }

  // ---------------------------------------------------------------------
  // The component, as written

  class MemoryGame {
    var cards: seq<Card>
    var flippedCards: seq<int>
    var matches: int
    var moves: int
    var gameComplete: bool

    function Model(): Game
      reads this
    {
      Game(cards, flippedCards, matches, moves, gameComplete)
    }

    predicate Valid()
      reads this
    {
      GameInv(Model())
    }

    /** Mounting runs `initializeGame`. */
    constructor (choices: seq<int>)
      requires |choices| == 2 * Pairs && ChoicesOk(choices)
      ensures Valid() && Model() == NewGame(choices)
    {
      var gameCards := new Card[2 * Pairs](k requires 0 <= k < 2 * Pairs => Deck()[k]);
      assert gameCards[..] == Deck();
      Shuffle(gameCards, choices);
      cards := gameCards[..];
      flippedCards := [];
      matches := 0;
      moves := 0;
      gameComplete := false;
      NewGameInv(choices);
    }

    /** `initializeGame`: a fresh shuffled deck and all counters at zero. */
    method InitializeGame(choices: seq<int>)
      requires |choices| == 2 * Pairs && ChoicesOk(choices)
      modifies this
      ensures Valid() && Model() == NewGame(choices)
    {
      var gameCards := new Card[2 * Pairs](k requires 0 <= k < 2 * Pairs => Deck()[k]);
      assert gameCards[..] == Deck();
      Shuffle(gameCards, choices);
      cards := gameCards[..];
      flippedCards := [];
      matches := 0;
      moves := 0;
      gameComplete := false;
      NewGameInv(choices);
    }

    /** `handleCardClick(cardId)`, called with the id of a displayed card. */
    method HandleCardClick(cardId: int)
      requires Valid() && exists k :: 0 <= k < |cards| && cards[k].id == cardId
      modifies this
      ensures Valid() && Model() == Click(old(Model()), cardId)
    {
      ClickInv(Model(), cardId);
      if |flippedCards| == 2 {
        return;
      }
      if cards[cardId].isFlipped || cards[cardId].isMatched {
        return;
      }
      cards := FlipById(cards, cardId);
      flippedCards := flippedCards + [cardId];
    }

    /** The pair-resolution effect, with the mismatch delay taken as elapsed. */
    method ResolvePair()
      requires Valid()
      modifies this
      ensures Valid() && Model() == Resolve(old(Model()))
    {
      ResolveInv(Model());
      if |flippedCards| == 2 {
        var first, second := flippedCards[0], flippedCards[1];
        moves := moves + 1;
        if cards[first].value == cards[second].value {
          cards := MatchIds(cards, first, second);
          if matches + 1 == Pairs {
            gameComplete := true;
          }
          matches := matches + 1;
          flippedCards := [];
        } else {
          cards := UnflipIds(cards, first, second);
          flippedCards := [];
        }
      }
    }
  }
}
