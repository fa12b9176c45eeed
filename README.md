# A poker table: server seating, deck, and the client's table view

This project models the rules of a small poker table application, and
proves properties of that model in Dafny. The application has a Go server
and a React client.

- **Server** (`apps/server/main.go`, `TableServer`): the table is a map from
  player id to player {id, seat, chips}. `AddPlayerToTable` checks, in
  order:
  - the buy-in is in 100..10000;
  - a player already seated is returned as is;
  - a requested seat is in 1..10 and free;
  - otherwise the lowest free seat is taken;
  - failing that, the table is full.

  The join-table handler first refuses an empty player id and a
  non-positive buy-in.
- **Deck** (`apps/server/cards.go`, `Cards`):
  - the 52-card deck, suit-major;
  - the Fisher-Yates shuffle, with each random index given as an input;
  - `Deal` takes from the end of the deck, and `DealHand` repeats it;
  - the two string renderings of a card;
  - the "Incomplete Hand" branch of hand evaluation.
- **Client session** (`apps/client/src/App.tsx`, `App`):
  - the `player_joined` list update;
  - the blank-id check before joining;
  - one socket at a time;
  - the `connected` and `joining` flags;
  - the seat lookup.
- **Raise controls** (`PlayerActions.tsx`, `PlayerActions`): which buttons
  are offered, `canRaise`, the two-step Raise button, the presets, Cancel
  and Confirm. This is a state machine (`Next`) with a class
  (`RaiseControls`) whose methods follow it.
- **Chips** (`ChipStack.tsx`, `Chip.tsx`: `ChipStack`, `Chip`):
  - the greedy breakdown of a value into denominations;
  - at most five chips drawn per denomination, numbered in stacking order;
  - the count badge;
  - colour bands;
  - animation class and delay.
- **Cards on screen** (`CommunityCards.tsx`, `Card.tsx`: `CommunityCards`,
  `CardFace`):
  - the board is padded to five slots with a (-1, -1) sentinel and cut at
    five;
  - the client's symbol tables, which agree with the server's `String`;
  - red or black;
  - face down;
  - the deal animation.
- **Interop**: the body the client posts to join, read by the server's
  handler.

The state the source updates in place is modelled as classes:
- the server table (`TableServer.Table`, a `map` field);
- the deck (`Cards.Deck`, a `seq` field);
- the client session (`App.Session`);
- the raise state (`PlayerActions.RaiseControls`).

Each such method is tied to a pure function of the old state, and that
function carries the lemmas. Loops in the source are `while`/`for` loops
here, with their invariants:
- the seat scan;
- building the deck;
- the shuffle;
- dealing a hand;
- the chip breakdown;
- the board padding.

Two behaviours of the code are kept as they are:
- The client's join body carries only `player_id`. The server reads the
  missing `buy_in` as 0, so it refuses every join from the client
  (`Interop.ClientRequestLacksBuyIn`, `Interop.JoinAgainstServer`).
- When a join fails, the client clears `connected` but leaves the socket
  open (`App.Session.FinishJoin`).

## Model

| member | source | states |
|---|---|---|
| TableServer.FirstFreeSeatIsLowest | apps/server/main.go:156-176 | the seat found is free, at or after the start, and every seat skipped is held; none is found exactly when every seat up to 10 is held |
| TableServer.AdmitRefusalChangesNothing | apps/server/main.go:121-145 | every refusal leaves the table unchanged; a buy-in outside 100..10000 is refused; a new player's requested seat outside 1..10 or already held is refused with that error |
| TableServer.AdmitSeatedPlayer | apps/server/main.go:127-130 | with a valid buy-in, an already-seated player gets their own entry back and the table is unchanged, whatever seat or buy-in was asked |
| TableServer.AdmitNewPlayer | apps/server/main.go:147-153 | a new player with a buy-in in 100..10000 who asks for a free seat in 1..10 is admitted to exactly that seat; a new player who is admitted gets exactly one new entry under their id, with the chosen seat and chips equal to the buy-in; no other entry changes |
| TableServer.AdmitLowestFreeSeat | apps/server/main.go:156-176 | with no preference, a new player gets the smallest seat in 1..10 that nobody holds, or "table is full" exactly when all ten are held |
| TableServer.AdmitKeepsWellSeated | apps/server/main.go:135-176 | every outcome keeps the table invariant: each entry is keyed by its own id, seats lie in 1..10 and no two players share one |
| TableServer.SeatRange | apps/server/main.go:157 | the seats lo..hi, as a set |
| TableServer.SeatRangeSize | apps/server/main.go:132 | lo..hi has hi - lo + 1 seats |
| TableServer.DistinctSeatsBound | apps/server/main.go:141-145 | players on pairwise distinct seats are no more numerous than the seats |
| TableServer.WellSeatedAtMostTen | apps/server/main.go:132-176 | a table that keeps its invariant never holds more than ten players |
| TableServer.Table.constructor | apps/server/main.go:68-79 | the hub's table starts empty and valid |
| TableServer.Table.SeatTaken | apps/server/main.go:158-164 | the inner scan answers whether some player holds the seat |
| TableServer.Admit | apps/server/main.go:116-177 | a refusal keeps the table; a success leaves the answered player under its id; at most that one key is added and every other entry is kept |
| TableServer.Table.AddPlayerToTable | apps/server/main.go:116-177 | the answer and the new table are exactly the pure model's, in the source's order of checks, and the invariant is kept |
| TableServer.CheckJoinRequest | apps/server/main.go:290-296 | "player_id is required" exactly for an empty id; otherwise "buy_in is required" exactly for a buy-in <= 0; no error otherwise |
| TableServer.HandleJoinTable | apps/server/main.go:284-302 | a request failing the handler's checks is refused before the table is touched; otherwise the table's answer and new state are the pure model's |
| Cards.CardString | apps/server/cards.go:46-50 | a valid card's string is its own rank name followed by its own suit glyph: three characters for Ten, two otherwise |
| Cards.CardStringInjective | apps/server/cards.go:46-50 | distinct valid cards get distinct display strings |
| Cards.PokerNotationShape | apps/server/cards.go:53-59 | the library notation of a valid card is two characters (rank letter, suit letter); Ten is "T" there but "10" in the display string |
| Cards.PokerNotationInjective | apps/server/cards.go:53-59 | distinct valid cards get distinct library notations |
| Cards.DeckCardBijective | apps/server/cards.go:69-79 | positions 0..51 of a fresh deck correspond one to one to the valid cards, suit-major then ascending rank |
| Cards.Deck.NewDeckCards | apps/server/cards.go:69-79 | the nested loops build 52 pairwise distinct cards, position k holding suit k/13 and rank k%13+2, and every valid card is among them |
| Cards.Deck.constructor | apps/server/cards.go:69-79 | a new deck holds the 52 cards in that order |
| Cards.Deck.Shuffle | apps/server/cards.go:82-88 | for any index j in 0..i at each step, the swap loop yields the swaps applied from the end, which keep the length and the multiset of cards |
| Cards.ShuffledIsPermutation | apps/server/cards.go:84-87 | the swaps up to step i keep the length and the multiset of cards |
| Cards.Deck.Remaining | apps/server/cards.go:114-116 | the number of cards held, zero exactly for an empty deck |
| Cards.Deck.Deal | apps/server/cards.go:91-99 | an empty deck gives nothing and stays empty; otherwise the last card is returned and the deck becomes its first n-1 cards |
| Cards.Deck.DealHand | apps/server/cards.go:102-111 | the hand has min(numCards, remaining) cards, the deck's top cards in reverse order; the deck keeps its first part; hand plus deck is the old deck as a multiset |
| Cards.TopReversedAt | apps/server/cards.go:104-108 | card i of a dealt hand is the deck's card at position n-1-i |
| Cards.TopReversedLength | apps/server/cards.go:104-108 | dealing k cards gives k cards |
| Cards.DealtCardsConserved | apps/server/cards.go:102-111 | the cards dealt plus the cards left are the old deck as a multiset |
| Cards.EvaluateHand | apps/server/cards.go:126-133 | fewer than five cards give the same cards, rank 0 and "Incomplete Hand" |
| App.FindById | apps/client/src/App.tsx:53 | finds an entry with that id exactly when the list has one |
| App.PlayerJoined | apps/client/src/App.tsx:52-61 | a known id leaves the list unchanged; a new id appends exactly {id, seat} at the end, keeping the earlier entries and dropping the chips |
| App.ApplyMessage | apps/client/src/App.tsx:46-66 | other events and payloads that do not parse leave the list unchanged; a player_joined event applies the update to its data |
| App.ApplyMessageIdempotent | apps/client/src/App.tsx:52-61 | applying the same message twice equals applying it once |
| App.ApplyMessageKeepsUnique | apps/client/src/App.tsx:52-61 | a message keeps player ids unique |
| App.ReplayKeepsUnique | apps/client/src/App.tsx:46-66 | any sequence of messages from a list with unique ids keeps them unique |
| App.Trim | apps/client/src/App.tsx:82 | trimming never lengthens the id |
| App.TrimIsSlice | apps/client/src/App.tsx:82 | the trimmed id is a slice of the id with only white space outside it, and a non-empty result neither starts nor ends with white space |
| App.TrimEmptyIffBlank | apps/client/src/App.tsx:82-85 | the id is rejected exactly when every character is JavaScript white space |
| App.SeatOccupant | apps/client/src/App.tsx:119-120 | the seat shows the first player in list order on that seat, or nobody when none sits there |
| App.IsCurrentPlayer | apps/client/src/App.tsx:121 | the seat is highlighted exactly when it has an occupant and that occupant has the local player id; an empty seat never is |
| App.JoinButtonGate | apps/client/src/App.tsx:148-168 | the Join Table button is enabled exactly while disconnected, not joining, and with an id holding some non-white-space character |
| App.Session.constructor | apps/client/src/App.tsx:17-21 | the session starts with an empty id and list, both flags off and no socket |
| App.Session.EditPlayerId | apps/client/src/App.tsx:148-165 | the id changes only while disconnected and not joining, the only time its input is shown and enabled |
| App.Session.ConnectWebSocket | apps/client/src/App.tsx:34-79 | the previous socket, if any, is closed before the new one is stored, so no socket is left open besides the current one |
| App.Session.BeginJoin | apps/client/src/App.tsx:81-101 | called from the button, so only while disconnected and not joining; a request goes out exactly when the button is enabled; a blank id opens no socket, sends nothing and changes no flag; otherwise joining is set, a new socket replaces the old one and a body with the player id only is sent |
| App.Session.FinishJoin | apps/client/src/App.tsx:103-116 | a failure clears connected but keeps the socket; joining is cleared on every outcome |
| App.Session.OnOpen | apps/client/src/App.tsx:41-44 | connected becomes true |
| App.Session.OnCloseOrError | apps/client/src/App.tsx:68-76 | connected becomes false |
| App.Session.OnMessage | apps/client/src/App.tsx:46-66 | the list becomes the update applied to it, and ids stay unique |
| App.Session.Unmount | apps/client/src/App.tsx:26-32 | the current socket, if any, is closed |
| PlayerActions.MaxRaise | apps/client/src/components/PlayerActions.tsx:50 | the maximum raise is the player's chips |
| PlayerActions.CanRaise | apps/client/src/components/PlayerActions.tsx:50-51 | canRaise holds exactly when minimumRaise <= amount <= playerChips |
| PlayerActions.PresetAmount | apps/client/src/components/PlayerActions.tsx:129-137 | the 2x and 3x amount is the floor of currentBet * k: at most it, and above it minus one |
| PlayerActions.Enabled | apps/client/src/components/PlayerActions.tsx:33-162 | nothing is enabled off turn; the presets, slider, Cancel and Confirm only with the raise input open; Fold always on turn |
| PlayerActions.Next | apps/client/src/components/PlayerActions.tsx:37-162 | a control that is absent or disabled does nothing; an enabled Fold, Check or Call fires its own callback and leaves the raise state alone; the slider sets the amount to its value and fires nothing; only Fold, Check, Call, Raise and Confirm fire; a fired raise carries the amount as it stood and closes the input; only the presets and the slider change the amount |
| PlayerActions.CanRaiseExamples | apps/client/src/components/PlayerActions.tsx:50-51 | with minimum 20 and 1000 chips, 10 fails, 20 and 1000 pass, 1001 fails |
| PlayerActions.ButtonsOffered | apps/client/src/components/PlayerActions.tsx:65-146 | on turn: Fold always; Check and Call only when allowed; Raise enabled exactly when minimumRaise <= chips; 2x and 3x only with the input open and their amount within the chips; Confirm only with the input open and canRaise; Min, All-In, the slider and Cancel exactly while the input is open |
| PlayerActions.ConfirmFiresOnlyLegalRaise | apps/client/src/components/PlayerActions.tsx:156-162 | Confirm fires exactly when on turn, open and canRaise holds, with the current amount, and closes the input |
| PlayerActions.RaiseIsTwoStep | apps/client/src/components/PlayerActions.tsx:37-44 | Raise with the input closed only opens it; with it open it fires the current amount and closes it |
| PlayerActions.RaiseBypassesCanRaise | apps/client/src/components/PlayerActions.tsx:37-44 | the second Raise press fires 5000 with 1000 chips, which canRaise rejects and Confirm would not fire |
| PlayerActions.PresetsSetAmount | apps/client/src/components/PlayerActions.tsx:121-146 | Min sets the minimum raise, All-In the chips, 2x and 3x floor(currentBet * k); none fires |
| PlayerActions.CancelKeepsAmount | apps/client/src/components/PlayerActions.tsx:150-155 | Cancel fires nothing, keeps the amount and closes the input |
| PlayerActions.OffTurnRunsNothing | apps/client/src/components/PlayerActions.tsx:33-35 | off turn, no sequence of interactions fires a callback or changes the state |
| PlayerActions.ConfirmedRaisesAreLegal | apps/client/src/components/PlayerActions.tsx:156-162 | without the Raise button, every onRaise fired in any sequence of interactions satisfies canRaise |
| PlayerActions.RaiseControls.constructor | apps/client/src/components/PlayerActions.tsx:30-31 | the amount starts at the minimum raise, the input closed |
| PlayerActions.RaiseControls.HandleRaiseClick | apps/client/src/components/PlayerActions.tsx:37-44 | opens the input, or fires the amount and closes it; the amount is kept |
| PlayerActions.RaiseControls.SetRaiseAmount | apps/client/src/components/PlayerActions.tsx:46-48 | sets the amount and nothing else |
| PlayerActions.RaiseControls.Interact | apps/client/src/components/PlayerActions.tsx:33-162 | the new state and the callback fired are exactly the state machine's step |
| ChipStack.DenominationAt | apps/client/src/components/ChipStack.tsx:13 | denominations are positive and strictly decreasing, each below 1000 having the one before it as its larger neighbour |
| ChipStack.GetChipBreakdown | apps/client/src/components/ChipStack.tsx:12-26 | for a value >= 0 the entries sum to the value; a value <= 0 gives none; entries are denominations, count >= 1, strictly descending, each worth less than one chip of the next larger denomination; for a value >= 0 the breakdown is greedy: for every denomination, the entries below it are together worth less than one chip of it |
| ChipStack.GlobalIndex | apps/client/src/components/ChipStack.tsx:34-36 | a drawn chip's index lies within its denomination's block: after the chips drawn for earlier denominations, before those of later ones |
| ChipStack.DrawnIndicesFrom | apps/client/src/components/ChipStack.tsx:32-36 | from any denomination on, the chips drawn get the consecutive indices after those of the earlier denominations |
| ChipStack.DrawnIndicesAreConsecutive | apps/client/src/components/ChipStack.tsx:32-36 | the drawn chips get indices 0 .. total drawn - 1, in order, with no gap or repeat |
| ChipStack.ShownSumNonNegative | apps/client/src/components/ChipStack.tsx:33 | the number of chips drawn is never negative |
| ChipStack.Badge | apps/client/src/components/ChipStack.tsx:61-64 | no badge exactly when every count is at most five; a badge shows the sum of all counts |
| ChipStack.BadgeIffChipsHidden | apps/client/src/components/ChipStack.tsx:61-64 | the badge, showing the sum of all counts, appears exactly when more chips exist than are drawn |
| ChipStack.DenominationsHaveDistinctColors | apps/client/src/components/Chip.tsx:19-28 | the eight denominations get eight different colours |
| ChipStack.DrawnChipAnimation | apps/client/src/components/ChipStack.tsx:48-52 | only the chip at index 0 has no delay; while animating every chip uses the stacking class |
| ChipStack.CompletionChip | apps/client/src/components/ChipStack.tsx:53 | the chip handed onAnimationComplete, the first of the last denomination, has the index of the chips drawn before that denomination, and starts before the later chips of it |
| Chip.GetChipColor | apps/client/src/components/Chip.tsx:19-28 | white exactly below 5; each band's colour exactly for values from its threshold up to the next larger one |
| Chip.ColorOfLargestThreshold | apps/client/src/components/Chip.tsx:19-28 | the colour is that of the largest threshold at or below the value |
| Chip.AnimationClass | apps/client/src/components/Chip.tsx:31-42 | empty when not moving; moving, "animate-chip-stack" exactly for the stack direction, "animate-chip-slide" otherwise |
| Common.AnimationDelay | apps/client/src/components/Chip.tsx:46 | a delay style, of the given ms, exactly when the delay is positive (the same rule as Card.tsx:24) |
| CommunityCards.View | apps/client/src/components/CommunityCards.tsx:27-44 | a slot is empty exactly when suit or rank is -1; any other card reaches the face unchanged |
| CommunityCards.PadToFive | apps/client/src/components/CommunityCards.tsx:15-18 | the copy has max(n, 5) entries, the given cards first in order, sentinels after them |
| CommunityCards.Board | apps/client/src/components/CommunityCards.tsx:15-44 | exactly five slots; the first min(n, 5) show the given cards in order; the slots after the last card are empty; later cards are not shown |
| CommunityCards.FacesAreRealCards | apps/client/src/components/CommunityCards.tsx:17-35 | the sentinel is drawn as an empty slot, and only cards with a real suit and rank reach a face |
| CardFace.SuitSymbol | apps/client/src/components/Card.tsx:12-15 | a symbol exists exactly for suits 0..3 |
| CardFace.RankSymbol | apps/client/src/components/Card.tsx:13-16 | a symbol exists exactly for ranks 0..14 |
| CardFace.RankSymbols | apps/client/src/components/Card.tsx:13-16 | ranks 2..10 show their decimal numeral, 11..14 show J, Q, K, A, and 0 and 1 show nothing |
| CardFace.IsRed | apps/client/src/components/Card.tsx:19 | red exactly for suits 0 and 1, that is, exactly when the glyph is a heart or a diamond |
| CardFace.AgreesWithServerString | apps/client/src/components/Card.tsx:12-16 | for every valid card, rank symbol then suit symbol is the server's display string |
| CardFace.DealClass | apps/client/src/components/Card.tsx:23 | the deal animation class is applied exactly while dealing |
| CardFace.Render | apps/client/src/components/Card.tsx:19-60 | face down shows a back with neither rank nor suit; face up shows the table symbols in red or black; the deal class and delay follow their props |
| Interop.ParseJoinBody | apps/server/main.go:60-65 | a body read into the request keeps id and seat, and a missing buy_in reads as 0 |
| Interop.ClientRequestLacksBuyIn | apps/client/src/App.tsx:99-101 | the body the client sends for any non-blank id is refused with "buy_in is required" |
| Interop.JoinAgainstServer | apps/client/src/App.tsx:81-117 | one press of Join Table against the server: refused for the missing buy-in, table unchanged, connected and joining cleared right after the answer, the new socket left open (an open event arriving after the answer sets connected again, as OnOpen states) |

## Left out

- Concurrency and sockets on the server are not modelled. This covers Hub.run, the register/unregister/broadcast channels, readPump/writePump, goroutines, and the table mutex, which is treated as absent.
- HTTP routing, CORS, static serving and JSON (de)serialisation are not modelled. The server's body parser is modelled only as `Interop.ParseJoinBody`, which gives a missing field its Go zero value. BroadcastPlayerJoined and its message are left out.
- The poker library (`poker.NewCard`, `Evaluate`, `RankString`) is not modelled. Neither are FindBestHand and the five-or-more-card path of EvaluateHand: that path takes the library's rank and name as inputs.
- `rand.Seed` and `rand.Intn` are not modelled: each step's random index is an input `picks[i]`, which must lie in 0..i.
- Cards.Deck.DealHand takes a `nat`. Go's `make` panics on a negative count, and that panic is not modelled.
- Cards.CardString and Cards.PokerNotation require a suit and rank inside the tables. Go panics on any other index, and that panic is not modelled.
- Aliasing is not modelled. The server returns the address of the stored player, so later changes through it would show in the table; here players are values.
- App.ApplyMessage: a player_joined payload without a data object is not modelled. In the source the updater reads its fields while React renders, outside the try/catch, so the error would tear the view down; here every decoded message carries its data.
- Browser I/O is not modelled: WebSocket, fetch, JSON.parse, alert and console. Messages arrive already decoded. Socket events are separate method calls. A request is split into `BeginJoin` and `FinishJoin(ok)`, with `ok` standing for the server's answer.
- App.Session.FinishJoin: a successful join leaves `connected` as it was, as the code does; it does not set it.
- JSX markup, CSS classes and strings, and pixel offsets are not modelled. Chip colours are an enumeration; z-index and offsets follow from `globalIndex`, which is modelled.
- AudioManager, useAudio and Hand.tsx are not modelled. They hold browser audio and a plain map to card faces.
- The chip label `value / 1000` + "K" is not modelled; it is floating-point display.
- `Table.nextSeat` is not modelled: it is set but never read.
- PlayerActions.RaiseControls.constructor: the amount is set from the minimum raise only at mount. Later prop changes do not reset it, and the model likewise keeps it.
- PlayerActions: the slider value (`parseInt` of the input) is modelled as any integer. A NaN from a malformed value is not modelled.
- The client draws seats 1..6, but the server seats players in 1..10. Seats 7..10 are never shown; the seat lookup itself is modelled for any seat number.
- Numbers in JavaScript are doubles. The chip breakdown and the card components are modelled on integers, and non-integer values are not covered. currentBet is a real number and the presets take its floor.
