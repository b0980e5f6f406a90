/** The memory game's card catalog and deck builder: the first `pairs` catalog
    items are pushed twice each, then the deck is shuffled in place by
    Fisher-Yates. The random draws are an input: draws[i] is the index j that
    the shuffle picks while its loop stands at position i. */
module MemoryDeck {

  /** One catalog entry, and one card (a card is a copy of its entry). */
  datatype Item = Item(id: int, icon: string)

  /** The six unique catalog items, ids 1 to 6. */
  const MemoryItems: seq<Item> := [
    Item(1, "\U{1F3AE}"),
    Item(2, "\U{1F3A7}"),
    Item(3, "\U{1F4DA}"),
    Item(4, "\U{1F4BB}"),
    Item(5, "\U{1F3A8}"),
    Item(6, "\U{26A1}")
  ]

  /** Catalog entry m carries id m + 1, so the catalog's ids are distinct. */
  lemma CatalogIds()
    ensures |MemoryItems| == 6
    ensures forall m :: 0 <= m < |MemoryItems| ==> MemoryItems[m].id == m + 1
  {
  }

  /** Number of cards the difficulty asks for: 12 for "easy", 24 for anything else. */
  function TotalCards(difficulty: string): (n: nat)
    ensures n == 12 <==> difficulty == "easy"
    ensures n == 12 || n == 24
  {
    if difficulty == "easy" then 12 else 24
  }

  /** Number of pairs the difficulty asks for. */
  function Pairs(difficulty: string): (n: nat)
    ensures 2 * n == TotalCards(difficulty)
  {
    TotalCards(difficulty) / 2
  }

  /** Array.prototype.slice(0, k): the first k elements, or all of them when there are fewer. */
  function Slice<T>(s: seq<T>, k: nat): (r: seq<T>)
    ensures |r| == if k < |s| then k else |s|
    ensures r == s[..|r|]
  {
    if k < |s| then s[..k] else s
  }

  /** The catalog items a deck of this difficulty is built from. */
  function Selected(difficulty: string): (r: seq<Item>)
    ensures |r| == if Pairs(difficulty) < |MemoryItems| then Pairs(difficulty) else |MemoryItems|
    ensures r == MemoryItems
  {
    Slice(MemoryItems, Pairs(difficulty))
  }

  /** The size of the deck actually built: twice the number of items the slice yields. */
  function DeckSize(difficulty: string): nat {
    2 * |Selected(difficulty)|
  }

  /** Each item pushed twice, in order. */
  function Doubled(items: seq<Item>): (r: seq<Item>)
    ensures |r| == 2 * |items|
    ensures forall p :: 0 <= p < |r| ==> r[p] == items[p / 2]
  {
    if items == [] then []
    else Doubled(items[..|items| - 1]) + [items[|items| - 1], items[|items| - 1]]
  }

  /** The draws fit the shuffle: the draw at position i lies in [0, i]. */
  predicate DrawsFit(draws: seq<nat>) {
    forall i :: 0 <= i < |draws| ==> draws[i] <= i
  }

  /** Exchange of positions i and j, written as the two assignments the JavaScript
      destructuring performs (so i == j leaves the sequence as it was). */
  function Swap<T>(s: seq<T>, i: nat, j: nat): seq<T>
    requires i < |s| && j < |s|
  {
    s[i := s[j]][j := s[i]]
  }

  /** Swap exchanges the two cards, leaves every other position alone, and is a permutation. */
  lemma SwapExchanges<T>(s: seq<T>, i: nat, j: nat)
    requires i < |s| && j < |s|
    ensures |Swap(s, i, j)| == |s| && Swap(s, i, j)[i] == s[j] && Swap(s, i, j)[j] == s[i]
    ensures forall k :: 0 <= k < |s| && k != i && k != j ==> Swap(s, i, j)[k] == s[k]
    ensures multiset(Swap(s, i, j)) == multiset(s)
  {
  }

  /** The Fisher-Yates loop run on s from position i down to position 1. */
  function ShuffleDown(s: seq<Item>, draws: seq<nat>, i: int): (r: seq<Item>)
    requires |draws| == |s| && DrawsFit(draws) && i < |s|
    ensures |r| == |s|
    decreases i
  {
    if i <= 0 then s else ShuffleDown(Swap(s, i, draws[i]), draws, i - 1)
  }

  /** The deck buildCardSet returns for this difficulty and these draws. */
  function Deck(difficulty: string, draws: seq<nat>): (r: seq<Item>)
    requires |draws| == DeckSize(difficulty) && DrawsFit(draws)
    ensures |r| == DeckSize(difficulty) == 12
    ensures multiset(r) == multiset(Doubled(Selected(difficulty)))
  {
    ShufflePermutes(Doubled(Selected(difficulty)), draws, DeckSize(difficulty) - 1, 0);
    ShuffleDown(Doubled(Selected(difficulty)), draws, DeckSize(difficulty) - 1)
  }

  /** How many cards carry this id. */
  function CountId(cards: seq<Item>, id: int): nat {
    if cards == [] then 0
    else (if cards[0].id == id then 1 else 0) + CountId(cards[1..], id)
  }

  lemma {:induction false} CountIdConcat(a: seq<Item>, b: seq<Item>, id: int)
    ensures CountId(a + b, id) == CountId(a, id) + CountId(b, id)
  {
    if a != [] {
      assert (a + b)[1..] == a[1..] + b;
      CountIdConcat(a[1..], b, id);
    } else {
      assert a + b == b;
    }
  }

  /** Overwriting one card changes the count by the old card leaving and the new one arriving. */
  lemma CountIdUpdate(s: seq<Item>, k: nat, v: Item, id: int)
    requires k < |s|
    ensures CountId(s[k := v], id)
         == CountId(s, id) - (if s[k].id == id then 1 else 0) + (if v.id == id then 1 else 0)
  {
    assert s == s[..k] + [s[k]] + s[k + 1..];
    assert s[k := v] == s[..k] + [v] + s[k + 1..];
    CountIdConcat(s[..k] + [s[k]], s[k + 1..], id);
    CountIdConcat(s[..k], [s[k]], id);
    CountIdConcat(s[..k] + [v], s[k + 1..], id);
    CountIdConcat(s[..k], [v], id);
  }

  lemma CountIdSwap(s: seq<Item>, i: nat, j: nat, id: int)
    requires i < |s| && j < |s|
    ensures CountId(Swap(s, i, j), id) == CountId(s, id)
  {
    CountIdUpdate(s, i, s[j], id);
    CountIdUpdate(s[i := s[j]], j, s[i], id);
  }

  /** The shuffle is a permutation, and in particular keeps the number of cards of every id. */
  lemma {:induction false} ShufflePermutes(s: seq<Item>, draws: seq<nat>, i: int, id: int)
    requires |draws| == |s| && DrawsFit(draws) && i < |s|
    ensures multiset(ShuffleDown(s, draws, i)) == multiset(s)
    ensures CountId(ShuffleDown(s, draws, i), id) == CountId(s, id)
    decreases i
  {
    if i > 0 {
      var t := Swap(s, i, draws[i]);
      SwapExchanges(s, i, draws[i]);
      CountIdSwap(s, i, draws[i], id);
      ShufflePermutes(t, draws, i - 1, id);
    }
  }

  /** Pushing every item twice doubles the count of every id. */
  lemma {:induction false} DoubledCountId(items: seq<Item>, id: int)
    ensures CountId(Doubled(items), id) == 2 * CountId(items, id)
  {
    if items != [] {
      var n := |items| - 1;
      var x := items[n];
      DoubledCountId(items[..n], id);
      CountIdConcat(Doubled(items[..n]), [x, x], id);
      assert items == items[..n] + [x];
      CountIdConcat(items[..n], [x], id);
      assert [x, x][1..] == [x];
    }
  }

  /** The first k catalog items hold each of the ids 1..k once and nothing else. */
  lemma {:induction false} CatalogPrefixCountId(k: nat, id: int)
    requires k <= |MemoryItems|
    ensures CountId(MemoryItems[..k], id) == if 1 <= id <= k then 1 else 0
  {
    CatalogIds();
    if k > 0 {
      CatalogPrefixCountId(k - 1, id);
      assert MemoryItems[..k] == MemoryItems[..k - 1] + [MemoryItems[k - 1]];
      CountIdConcat(MemoryItems[..k - 1], [MemoryItems[k - 1]], id);
    }
  }

  /** Every deck holds each id of the selected items exactly twice, and no other id. */
  lemma DeckCountId(difficulty: string, draws: seq<nat>, id: int)
    requires |draws| == DeckSize(difficulty) && DrawsFit(draws)
    ensures CountId(Deck(difficulty, draws), id)
         == if 1 <= id <= |Selected(difficulty)| then 2 else 0
  {
    var sel := Selected(difficulty);
    ShufflePermutes(Doubled(sel), draws, DeckSize(difficulty) - 1, id);
    DoubledCountId(sel, id);
    assert sel == MemoryItems[..|sel|];
    CatalogPrefixCountId(|sel|, id);
  }

  /** The in-place Fisher-Yates loop: i runs from the last index down to 1 and
      exchanges a[i] with a[draws[i]]. */
  method Shuffle(a: array<Item>, draws: seq<nat>)
    requires |draws| == a.Length && DrawsFit(draws)
    modifies a
    ensures a[..] == ShuffleDown(old(a[..]), draws, a.Length - 1)
  {
    var i := a.Length - 1;
    while i > 0
      invariant -1 <= i < a.Length
      invariant a.Length > 0 ==> 0 <= i
      invariant ShuffleDown(a[..], draws, i) == ShuffleDown(old(a[..]), draws, a.Length - 1)
      decreases i
    {
      ghost var before := a[..];
      var j := draws[i];
      var t := a[i];
      a[i] := a[j];
      a[j] := t;
      assert a[..] == Swap(before, i, j);
      i := i - 1;
    }
  }

  /** buildCardSet: push each selected item twice, then shuffle. The deck is a
      permutation of the doubled selection, holds each selected id twice, and
      has 12 cards for every difficulty, "hard" included. */
  method BuildCardSet(difficulty: string, draws: seq<nat>) returns (cards: seq<Item>)
    requires |draws| == DeckSize(difficulty) && DrawsFit(draws)
    ensures cards == Deck(difficulty, draws)
    ensures multiset(cards) == multiset(Doubled(Selected(difficulty)))
    ensures |cards| == 12
    ensures difficulty != "easy" ==> |cards| == TotalCards(difficulty) / 2
    ensures forall id :: CountId(cards, id) == if 1 <= id <= |Selected(difficulty)| then 2 else 0
  {
    var selected := Slice(MemoryItems, Pairs(difficulty));
    var pushed: seq<Item> := [];
    var k := 0;
    while k < |selected|
      invariant 0 <= k <= |selected|
      invariant pushed == Doubled(selected[..k])
    {
      assert selected[..k + 1][..k] == selected[..k];
      pushed := pushed + [selected[k]];
      pushed := pushed + [selected[k]];
      k := k + 1;
    }
    assert selected[..k] == selected;
    var a := new Item[|pushed|](p requires 0 <= p < |pushed| => pushed[p]);
    assert a[..] == pushed;
    Shuffle(a, draws);
    cards := a[..];
    ShufflePermutes(pushed, draws, |pushed| - 1, 0);
    forall id ensures CountId(cards, id) == if 1 <= id <= |Selected(difficulty)| then 2 else 0 {
      DeckCountId(difficulty, draws, id);
    }
  }
}
