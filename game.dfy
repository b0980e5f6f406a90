/** The memory game's state machine: the gameState record and the handlers
    that mutate it. The delayed revert after a mismatch is the explicit
    operation RevertMismatch; the caller decides when the timer fires. */
module MemoryGame {
  import opened MemoryDeck

  /** A value copy of every field of the game state, for "nothing changed" contracts. */
  datatype GameState = GameState(
    difficulty: string,
    cards: seq<Item>,
    flipped: seq<int>,
    matched: set<int>,
    moves: nat,
    matches: nat,
    active: bool)

  /** A set of card positions of a board with n cards. */
  ghost predicate Positions(s: set<int>, n: nat) {
    forall i :: i in s ==> 0 <= i < n
  }

  /** A board with n cards has at most n matched positions. */
  lemma {:induction false} PositionsBound(s: set<int>, n: nat)
    requires Positions(s, n)
    ensures |s| <= n
  {
    if n == 0 {
      assert s == {} by {
        forall i | i in s ensures false {}
      }
    } else {
      var t := s - {n - 1};
      assert Positions(t, n - 1);
      PositionsBound(t, n - 1);
      assert s <= t + {n - 1};
    }
  }

  /** A set of positions is as large as the board exactly when it covers every position:
      all n cards are matched exactly when n positions are. */
  lemma {:induction false} FullBoard(s: set<int>, n: nat)
    requires Positions(s, n)
    ensures |s| == n <==> forall i :: 0 <= i < n ==> i in s
  {
    if n > 0 {
      var t := s - {n - 1};
      assert Positions(t, n - 1);
      FullBoard(t, n - 1);
      if n - 1 in s {
        assert s == t + {n - 1};
        assert (forall i :: 0 <= i < n ==> i in s) <==> (forall i :: 0 <= i < n - 1 ==> i in t);
      } else {
        assert t == s;
        PositionsBound(s, n - 1);
      }
    } else {
      assert s == {} by {
        forall i | i in s ensures false {}
      }
    }
  }

  class Game {
    var difficulty: string
    var cards: seq<Item>
    var flipped: seq<int>
    var matched: set<int>
    var moves: nat
    var matches: nat
    var active: bool

    ghost function State(): GameState
      reads this
    {
      GameState(difficulty, cards, flipped, matched, moves, matches, active)
    }

    /** The structural invariant: at most two flipped positions, distinct, on the
        board and not matched; matched positions on the board; two positions per
        match; a match is counted only with a move. */
    ghost predicate Sound()
      reads this
    {
      |flipped| <= 2 &&
      (forall k :: 0 <= k < |flipped| ==> 0 <= flipped[k] < |cards| && flipped[k] !in matched) &&
      (|flipped| == 2 ==> flipped[0] != flipped[1]) &&
      Positions(matched, |cards|) &&
      matches * 2 == |matched| <= |cards| &&
      matches <= moves
    }

    /** Between handlers, two flipped cards are always a mismatch awaiting its revert. */
    ghost predicate Valid()
      reads this
    {
      Sound() &&
      (|flipped| == 2 ==> cards[flipped[0]].id != cards[flipped[1]].id)
    }

    /** The guards of handleCardClick let a click on this position through. */
    ghost predicate ClickAccepted(index: int)
      reads this
      ensures ClickAccepted(index) && Valid() ==> |flipped| <= 1 && flipped != [index]
    {
      active && |flipped| != 2 && index !in flipped && index !in matched
    }

    /** The gameState literal: an empty easy board, not active. */
    constructor ()
      ensures Valid()
      ensures State() == GameState("easy", [], [], {}, 0, 0, false)
    {
      difficulty := "easy";
      cards := [];
      flipped := [];
      matched := {};
      moves := 0;
      matches := 0;
      active := false;
    }

    /** initBoard: a new deck for the current difficulty, everything else reset, not active. */
    method InitBoard(draws: seq<nat>)
      requires |draws| == DeckSize(difficulty) && DrawsFit(draws)
      modifies this
      ensures Valid()
      ensures State() == GameState(old(difficulty), Deck(old(difficulty), draws), [], {}, 0, 0, false)
    {
      var deck := BuildCardSet(difficulty, draws);
      cards := deck;
      flipped := [];
      matched := {};
      moves := 0;
      matches := 0;
      active := false;
    }

    /** The difficulty selector's change handler: store the new value, then initBoard. */
    method ChangeDifficulty(value: string, draws: seq<nat>)
      requires |draws| == DeckSize(value) && DrawsFit(draws)
      modifies this
      ensures Valid()
      ensures State() == GameState(value, Deck(value, draws), [], {}, 0, 0, false)
    {
      difficulty := value;
      InitBoard(draws);
    }

    /** The start button's handler: only activates play. */
    method Start()
      requires Valid()
      modifies this
      ensures Valid()
      ensures State() == old(State()).(active := true)
    {
      active := true;
    }

    /** The restart button's handler: initBoard, then activate play. */
    method Restart(draws: seq<nat>)
      requires |draws| == DeckSize(difficulty) && DrawsFit(draws)
      modifies this
      ensures Valid()
      ensures State() == GameState(old(difficulty), Deck(old(difficulty), draws), [], {}, 0, 0, true)
    {
      InitBoard(draws);
      active := true;
    }

    /** The state part of showWinMessage. */
    method ShowWinMessage()
      modifies this
      ensures State() == old(State()).(active := false)
    {
      active := false;
    }

    /** handleCardClick: a rejected click changes nothing; an accepted one flips the
        card, and a second flipped card is resolved at once by checkForMatch. */
    method HandleCardClick(index: int)
      requires Valid() && 0 <= index < |cards|
      modifies this
      ensures Valid()
      ensures !old(ClickAccepted(index)) ==> State() == old(State())
      ensures old(ClickAccepted(index)) && |old(flipped)| == 0 ==>
        State() == old(State()).(flipped := [index])
      ensures old(ClickAccepted(index)) && |old(flipped)| == 1 ==>
        var first := old(flipped)[0];
        difficulty == old(difficulty) && cards == old(cards) && moves == old(moves) + 1 &&
        if cards[first].id == cards[index].id then
          matched == old(matched) + {first, index} && matches == old(matches) + 1 &&
          flipped == [] && (active <==> matches * 2 != |cards|)
        else
          flipped == [first, index] && matched == old(matched) &&
          matches == old(matches) && active == old(active)
    {
      if !active { return; }
      if |flipped| == 2 { return; }
      if index in flipped { return; }
      if index in matched { return; }

      flipped := flipped + [index];

      if |flipped| == 2 {
        CheckForMatch();
      }
    }

    /** checkForMatch: one more move; equal ids join matched, count a match,
        clear flipped and end the game when every pair is found; different ids
        stay flipped until RevertMismatch. */
    method CheckForMatch()
      requires Sound() && |flipped| == 2
      modifies this
      ensures Valid()
      ensures difficulty == old(difficulty) && cards == old(cards) && moves == old(moves) + 1
      ensures var i1, i2 := old(flipped)[0], old(flipped)[1];
        if cards[i1].id == cards[i2].id then
          matched == old(matched) + {i1, i2} && matches == old(matches) + 1 && flipped == [] &&
          active == (old(active) && matches * 2 != |cards|)
        else
          flipped == old(flipped) && matched == old(matched) &&
          matches == old(matches) && active == old(active)
      ensures matches * 2 == |cards| <==> forall i :: 0 <= i < |cards| ==> i in matched
    {
      moves := moves + 1;

      var i1, i2 := flipped[0], flipped[1];
      var c1, c2 := cards[i1], cards[i2];

      if c1.id == c2.id {
        matched := matched + {i1};
        matched := matched + {i2};
        matches := matches + 1;
        flipped := [];
        PositionsBound(matched, |cards|);

        // matches === cards.length / 2 holds exactly when matches * 2 == |cards|:
        // for an odd length the quotient ends in .5 and equals no integer
        if matches * 2 == |cards| {
          ShowWinMessage();
        }
      }
      FullBoard(matched, |cards|);
    }

    /** The mismatch timer's callback: empties flipped and nothing else. It does
        not check that the board it was scheduled for is still the current one. */
    method RevertMismatch()
      requires Valid()
      modifies this
      ensures Valid()
      ensures State() == old(State()).(flipped := [])
    {
      flipped := [];
    }
  }

  /** A match on the first two positions of a fresh board. */
  method ScenarioMatch(g: Game)
    requires g.Valid() && g.active && g.flipped == [] && g.matched == {} && g.moves == 0
    requires |g.cards| == 12 && g.cards[0].id == g.cards[1].id
    modifies g
    ensures g.moves == 1 && g.matches == 1 && g.matched == {0, 1} && g.flipped == [] && g.active
  {
    g.HandleCardClick(0);
    g.HandleCardClick(1);
  }

  /** A mismatch: further clicks are rejected until the revert, which keeps the counters. */
  method ScenarioMismatch(g: Game)
    requires g.Valid() && g.active && g.flipped == [] && g.matched == {} && g.moves == 0
    requires |g.cards| == 12 && g.cards[0].id != g.cards[2].id
    modifies g
    ensures g.moves == 1 && g.matches == 0 && g.matched == {} && g.flipped == [] && g.active
  {
    g.HandleCardClick(0);
    g.HandleCardClick(2);
    assert g.flipped == [0, 2];
    g.HandleCardClick(5);
    assert g.flipped == [0, 2] && g.moves == 1;
    g.RevertMismatch();
  }
}
