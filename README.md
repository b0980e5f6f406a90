# Memory game and contact-form helpers, modelled in Dafny

This project models `assets/js/custom.js`, a small portfolio page script. Its core is the
**memory game**. A deck builder takes the first `pairs` items of a six-item catalog, pushes
each one twice and shuffles the deck in place with Fisher–Yates. A `gameState` record holds
the cards, the flipped and matched positions, the move and match counters and the `active`
flag. It is mutated by board initialisation, the difficulty-change handler, the start and
restart handlers, a card click, the match check, the mismatch-revert timer callback and
`showWinMessage`. Two pure helpers from the contact form are modelled too. One classifies the
average rating into a colour. The other draws the random code of the helper tag
`FE24-JS-CF-XXXXX`.

- `deck.dfy` (module `MemoryDeck`): the catalog, `Doubled` (each item pushed twice),
  `ShuffleDown` (the Fisher–Yates loop as a function), the in-place `Shuffle` on an
  `array`, and `BuildCardSet`.
- `game.dfy` (module `MemoryGame`): class `Game`, with the fields of `gameState` and one
  method per handler. `Sound()` and `Valid()` are its invariant. `State()` is a value copy
  of all fields, used in "nothing changed" contracts.
- `contact_form.dfy` (module `ContactForm`): `GetAverageColor`, `GenerateRandomCode` and
  the helper tag.

Randomness is an input. `draws[i]` is the index `j` that the shuffle picks while its loop
stands at position `i`, so `0 <= draws[i] <= i`. For the code generator, `draws[k]` is the
alphabet index of the k-th character, so `draws[k] < 36`. The mismatch timer is the
explicit method `Game.RevertMismatch`. The caller decides when it fires, and it may fire
after a new board was built, exactly as the script allows.

Four behaviours of the script are easy to misread, and the model keeps them as written:

- "hard" asks for 24 cards (12 pairs), but `slice(0, 12)` of a six-item catalog returns
  six items. So every deck has 12 cards, "hard" included (`BuildCardSet` ensures
  `|cards| == 12`). The hard board is still rendered in 6 columns, but that is not modelled.
- There is no guard against a stale revert.
- The start handler sets `active` unconditionally. Its "only once" behaviour comes from
  disabling the button, which is DOM state.
- The middle colour tier is `avg < 7`, not `avg <= 7`.

## Model

| member | source | states |
|---|---|---|
| MemoryDeck.CatalogIds | assets/js/custom.js:141-148 | the catalog has six items and item m has id m + 1, so the ids are distinct |
| MemoryDeck.TotalCards | assets/js/custom.js:206 | the requested card count is 12 exactly for "easy", and 24 for every other difficulty value |
| MemoryDeck.Pairs | assets/js/custom.js:207 | the requested pair count is exactly half the requested card count (6 or 12) |
| MemoryDeck.Selected | assets/js/custom.js:208 | the slice has min(pairs, 6) items, and for every difficulty it is the whole six-item catalog |
| MemoryDeck.SwapExchanges | assets/js/custom.js:219 | the destructuring swap puts old a[j] at i and old a[i] at j, leaves every other position alone, and keeps the multiset |
| MemoryDeck.Deck | assets/js/custom.js:205-223 | the deck buildCardSet returns has 12 cards and is a permutation of the doubled selection |
| MemoryGame.Game.ClickAccepted | assets/js/custom.js:247-250 | a click passes the four guards only when the game is active, fewer than two cards are flipped, and the position is not flipped or matched; so under the invariant an accepted click sees at most one other flipped card |
| ContactForm.AverageRating | assets/js/custom.js:65 | the average times 3 is the sum of the three ratings |
| MemoryDeck.Slice | assets/js/custom.js:208 | `slice(0, k)` returns the first min(k, length) elements of its input |
| MemoryDeck.Doubled | assets/js/custom.js:210-214 | doubling has twice the length, and position p holds item p / 2: each item is pushed twice, in catalog order |
| MemoryDeck.ShuffleDown | assets/js/custom.js:216-220 | one Fisher–Yates pass from position i down to 1 keeps the deck's length |
| MemoryDeck.ShufflePermutes | assets/js/custom.js:216-220 | the shuffle is a permutation (same multiset) and keeps the number of cards of every id |
| MemoryDeck.DoubledCountId | assets/js/custom.js:210-214 | pushing each item twice exactly doubles the count of every id |
| MemoryDeck.CatalogPrefixCountId | assets/js/custom.js:141-148 | the first k catalog items contain each id 1..k once and no other id |
| MemoryDeck.DeckCountId | assets/js/custom.js:205-220 | every shuffled deck holds each selected id exactly twice and no other id |
| MemoryDeck.Shuffle | assets/js/custom.js:216-220 | the in-place swap loop leaves the array equal to `ShuffleDown` of its old contents |
| MemoryDeck.BuildCardSet | assets/js/custom.js:205-223 | the deck is the shuffled doubled prefix of the catalog and a permutation of it; it holds each selected id twice; it has 12 cards for every difficulty, which for "hard" is half of the 24 requested |
| MemoryGame.PositionsBound | assets/js/custom.js:269-271 | a set of positions on an n-card board has at most n elements, so `matches*2 <= cards.length` |
| MemoryGame.FullBoard | assets/js/custom.js:275 | n matched positions on an n-card board is the same as every position being matched (both directions) |
| MemoryGame.Game.constructor | assets/js/custom.js:150-158 | the initial record: difficulty "easy", no cards, nothing flipped or matched, zero counters, inactive; the invariant holds |
| MemoryGame.Game.InitBoard | assets/js/custom.js:186-192 | the cards become the deck built for the current difficulty; flipped and matched are emptied; moves and matches are 0; active is false |
| MemoryGame.Game.ChangeDifficulty | assets/js/custom.js:167-170 | the selector stores the new difficulty and rebuilds the board for it, inactive |
| MemoryGame.Game.Start | assets/js/custom.js:172-175 | start only sets active to true; every other field is unchanged |
| MemoryGame.Game.Restart | assets/js/custom.js:177-181 | restart is initBoard followed by active = true |
| MemoryGame.Game.ShowWinMessage | assets/js/custom.js:296-297 | showing the win message sets active to false and changes nothing else |
| MemoryGame.Game.HandleCardClick | assets/js/custom.js:246-258 | a click changes nothing if the game is inactive, two cards are flipped, or the position is flipped or matched; a first flip only appends the position; a second flip adds exactly one move and then matches (both positions matched, one more match, flipped empty, inactive exactly on the win) or stays flipped (nothing else changes); the invariant is kept |
| MemoryGame.Game.CheckForMatch | assets/js/custom.js:260-287 | one more move; equal ids put both positions in matched, add one match and empty flipped, and the game becomes inactive when matches*2 equals the card count; different ids change nothing else; the win is exactly every position being matched |
| MemoryGame.Game.RevertMismatch | assets/js/custom.js:280-285 | the timer callback empties flipped and leaves moves, matches, matched, cards and active unchanged; the invariant is kept |
| MemoryGame.ScenarioMatch | assets/js/custom.js:246-276 | on a fresh active board, flipping two cards with the same id gives moves 1, matches 1 and matched {0, 1} |
| MemoryGame.ScenarioMismatch | assets/js/custom.js:246-285 | flipping two cards with different ids gives moves 1; a third click is rejected while both are flipped; the revert empties flipped with moves still 1 and matches 0 |
| ContactForm.GetAverageColor | assets/js/custom.js:86-90 | the result is "red" iff avg < 4, "orange" iff 4 <= avg < 7, and "green" iff avg >= 7 |
| ContactForm.RatingColorBySum | assets/js/custom.js:65-66 | for whole-number ratings the colour of their average is red iff the sum is below 12, orange iff the sum is 12..20, and green iff the sum is at least 21 |
| ContactForm.RatingScenarios | assets/js/custom.js:65-66 | ratings (10,10,10) average 10 and are green; ratings (2,2,2) average 2 and are red |
| ContactForm.CharsAreCodeChars | assets/js/custom.js:52 | the alphabet has 36 characters and holds exactly A–Z and 0–9 |
| ContactForm.GenerateRandomCode | assets/js/custom.js:51-58 | the code has exactly `length` characters; character k is the alphabet character that draw k picks, so every character is in A–Z0–9 |
| ContactForm.MakeHelperTag | assets/js/custom.js:32 | the helper tag has length 16, starts with `FE24-JS-CF-`, and its last five characters are A–Z0–9 picked by the draws |

## Left out

- DOM rendering and lookup are not modelled: `renderBoard`, `updateStats`, the DOM part of `showWinMessage`, `clearWinMessage`, `displayFormResults`, `setupRangeDisplay`, `updateAllRangeLabels` and `showSuccessPopup`. They hold no game logic. This includes the start button's `disabled` flag and the removal of the `flipped` CSS class in the revert callback.
- Timers are not modelled. The 1000 ms revert delay is the explicit operation `RevertMismatch`, and the popup's 3000 ms/500 ms fade is left out.
- `Math.random` is replaced by caller-supplied draw sequences. Uniformity of the shuffle or of the code is not stated.
- Float formatting and parsing are left out: `avg.toFixed(1)`, and the `Number(...)` and `.trim()` field parsing. The average is a mathematical real. For whole-number ratings the floating-point division cannot move a value across the thresholds 4 and 7, because sums of 11 and 20 give about 3.67 and 6.67. The slider range 0–10 is HTML that is not part of this model, and the classifier's contract does not depend on it.
- `console.log` and the `DOMContentLoaded` and `addEventListener` wiring are left out. `setupMemoryGame` is `Game.constructor` followed by `Game.InitBoard`.
- The clicked cell is only used for DOM work, so `HandleCardClick` takes just the position. The position is required to be on the board, because each cell captures its own index when the board is rendered.
