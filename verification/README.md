# Mighty: a verified model of the game server

This project models three parts of a server for the card game Mighty and proves what they promise.

* **The game** (`internal/game`). `Game` is a state machine: waiting, bidding, exchanging, calling, playing,
  finished, bidding again. A step is a move that validation accepts, or a join. The state is a value
  (`State.GameState`), validation and effect are functions (`Rules`, `Engine`), and the class
  `GameObject.Game` updates the source's fields in place and is proved equal to those functions, method by
  method. A run is any sequence of joins and accepted moves from a new game (`Runs.Legal`); the theorems are
  about every state of every run, over any number of redeals and rounds, with any shuffle.
* **The update protocol** (`internal/service`, `internal/store/redis`). Any number of clients acquire a lock,
  load, check, apply, save by compare-and-swap, record in the ledger and release, one atomic step at a time
  and in any order. The lock may expire, and a client may fail or stop, between any two steps. The stored
  game is proved to be the sequential fold of the committed operations, so every invariant of the game holds
  of every state anybody reads.
* **The rate limiters** (`internal/ratelimit`). The shared token bucket on its clock of whole milliseconds, its
  expiry, and the in-process bucket on its clock of nanoseconds, over any sequence of timestamps, in any order.

How the files fit together: `Cards`, `Piles`, `Decks` and `State` hold the data; `Rules`, `Engine` and
`Scoring` say what the code does; `Invariants` states what holds of every reachable game, one slice at a time;
`Auction`, `Conservation`, `Play`, `Tricks`, `Ownership`, `Books` (module `BookKeeping`) and `Steps` prove that
each operation keeps it; `Runs`, `Progress`, `Finishing`, `Winner`, `Points`, `Rounds` and `Outcomes` hold the
theorems about runs. `Story` tells a game from the list of its operations alone, `Telling` proves that every table of
every run is the one told, and `Laws`, `Accepts`, `Vows` and `Scores` draw from it, or prove beside it, what the rules
promise in the words of the rules, without the functions of the engine. `LastTrick` and `Shortfall` say when the promises that fail do fail, and reach runs in which
they do, from deals stacked in `Staging`. `Game` (module `GameObject`), `Store` (module `GameStore`) and `Service`
(module `GameService`) are the stateful code, with the checks on a move in `Checks`; `Protocol` interleaves the
clients, `Interleaving` proves its invariant, and `Serial`, `Answers` and `Requests` hold its theorems. `Bucket` (module
`TokenBucket`) is the token bucket, `Clocks` compares the two limiters and `RateLimit` is their stateful code.

The invariant needs the pile of cards the declarer threw away, which the stored state does not keep; a
`Table` is a game with that pile.

Where the code and its documents differ the model follows the code: with Spades as trump the Mighty is the
ace of diamonds (`internal/game/rules.go:369-377`; `docs/API_DOCUMENTATION.md:148` says clubs); a bid must
raise the points, so a no-trump bid does not beat a suit bid of the same level
(`internal/game/rules.go:135-139`; `docs/rules.md:48`); a pass is final, so the auction ends when all seats
but one have passed, not after consecutive passes (`internal/game/rules.go:581-610`; `docs/rules.md:49`);
scoring follows `internal/game/rules.go:841-951`, not the formulas of `docs/API_DOCUMENTATION.md`.

Some promises are false as stated, and the model says when they hold:

* Three discards need not be different cards (`internal/game/rules.go:158-185`). The declarer is left with ten
  cards exactly when they are (`Rounds.ExchangeExact`, with `Rounds.RepeatedDiscard` as the failing input).
  * A special card can then reach trick 10. All rounds with d different discards keep the Mighty, and the Joker,
    out of trick 10 exactly when d is three (`Shortfall.SpecialsExactly`, with the runs of
    `Shortfall.MightyReached` and `Shortfall.JokerReached`). After an exchange that leaves the declarer the
    Joker, some continuation of the round plays it in trick 10 exactly when the discards are not all different
    (`LastTrick.JokerLastExactly`); after one that leaves neither special, none is played there
    (`LastTrick.NeitherNever`). What a declarer may play there is exact in `LastTrick.SurplusForcesSpecial`.
  * Points can then stay in hand. All rounds with d different discards count twenty points exactly when d is
    three (`Shortfall.TwentyExactly`, with the runs of `Shortfall.ShortRound`).
* The highest card of the suit led does not always beat off-suit cards: ten plus a low rank can be less than
  the rank of an off-suit ace or king (`internal/game/rules.go:27-38`). `Winner.LeadTier` gives the exact
  condition and the winner otherwise, `Winner.FiveHolds` a simple sufficient condition, `Winner.LowLeadLoses` a
  complete trick, and `Shortfall.LowLeadReached` a run that plays it.
* A configuration change that alters the number of seats breaks the seating: an accepted move keeps the
  invariant exactly when it is not one (`Steps.MoveExact`).
* A key of the rate limiter that expires may change a later answer if a call takes long to reach the store:
  expiry is harmless, under every rule and every sequence of calls at most so many milliseconds late, exactly up
  to 1001 milliseconds (`TokenBucket.LatenessExact`, with `TokenBucket.LateCallDiffers` as the failing input;
  `TokenBucket.ForgettingExact` is exact for a single call).
* The two limiters do not decide alike. The shared limiter cuts its times to milliseconds
  (`internal/ratelimit/limiter.go:112`), the in-process bucket measures nanoseconds
  (`internal/ratelimit/bucket.go:28-31`), and so they agree on every continuation of a call exactly when neither
  can ever allow one (`Clocks.ClocksAgreeExactly`, with `Clocks.FractionDiffers` as a failing input). If creation
  and every call fall on whole milliseconds, they agree exactly when the bucket is created no later than the
  first call (`Clocks.WholeAgreeExactly`).

`dafny verify dfyconfig.toml` checks the whole project.

## Model

| member | source | states |
|---|---|---|
| Runs.ReachableInv | internal/game/rules.go:41-763 | Every state of every run satisfies the whole invariant: cards conserved, auction in order, log in rotation, hands the right size, friend revealed rightly, points and scores accounted for. |
| Runs.RunDetermined | internal/game/rules.go:511-763 | A run's tables are determined by its operations: every table is the fold of the operations over the opening. |
| Telling.StoryHolds | internal/game/rules.go:511-763 | Every table of every run is what its operations add up to, told without the engine: who sits where under which name, the phase, dealer, opener and turn, the bids, the contract and its suit, each hand as drawn less discards and cards shown, the call, the cards of each trick with the suit owed and the joker call, and the votes. |
| Laws.LeadStored | internal/game/rules.go:690-709 | A card accepted on an empty trick makes its suit the suit owed, or the suit called with it if it is the Joker, and the Joker is called exactly when the move says so with the joker caller. |
| Laws.LeadStands | internal/game/rules.go:690-709 | Within a round the suit owed and the joker call of a trick never change, and no card leaves it. |
| Laws.PlaysSinceCall | internal/game/rules.go:659-709 | The plays in the trick log are the cards played since the last call, in order, each by its player. |
| Laws.AuctionEnds | internal/game/rules.go:555-610 | The auction ends at a bid of ten, or when all but one have passed under a standing bid, with the contract, suit and turn of the high bidder; if everybody passes the hand is thrown in and seat 0 opens the next. |
| Laws.CallStands | internal/game/rules.go:646-657 | The card called, or no friend, is stored as the move says and stands to the end of the round; the declarer leads. |
| Laws.VotesExactly | internal/game/rules.go:536-549 | The votes on a finished table are those of the seats that have sent one since the finish or the last configuration. |
| Laws.RestartExactly | internal/game/rules.go:536-549 | A finished round is followed by a new deal if and only if the move is a vote and every other seat has voted since; before that a vote changes nothing but votes and version. |
| Laws.NextDealer | internal/game/rules.go:1003-1030 | The next round has the next dealer, who opens, ten new cards a seat, empty piles, and the old history and totals. |
| Laws.JoinExactly | internal/service/game_service.go:107-148 | A seated player comes back with the new name, connected, and nothing else changes; a stranger takes the next seat, and the last one is followed by the deal. |
| Accepts.CardsAccepted | internal/game/rules.go:241-364 | In every reachable playing state a card is accepted if and only if it is in the hand of the player on turn and late-game forcing, the joker call, the first-trick bans, the calls that go with it and following suit allow it, in terms of the cards held. |
| Accepts.OnlyWhilePlaying | internal/game/rules.go:241-247 | No card is accepted in another phase. |
| Accepts.BidsAccepted | internal/game/rules.go:99-141 | A bid is accepted if and only if its player is on turn, it lies between the least bid of the seats and ten, names a suit or none, and is above every bid of the auction. |
| Accepts.PassesAccepted | internal/game/rules.go:144-155 | A pass is accepted if and only if the auction is open and its player is on turn. |
| Accepts.DiscardsAccepted | internal/game/rules.go:158-185 | Discards are accepted if and only if the declarer names three cards held, even the same one again. |
| Accepts.CallsAccepted | internal/game/rules.go:201-239 | A call is accepted if and only if the declarer names nobody, a card by suit and rank, or the Joker, which four players may have excluded. |
| Accepts.FinishedAccepted | internal/game/rules.go:41-73 | Votes and configurations are accepted if and only if the round is finished and the player is seated. |
| Vows.NobodyLies | internal/game/rules.go:241-364 | From the log alone: a seat whose card rules out another card, by not answering a joker call, not following suit, leading trump first or answering the first trick with the Mighty, holds no such card afterwards and shows none in a later trick. |
| Vows.CalledJokerPlayed | internal/game/rules.go:287-293 | A seat that answers a joker call with neither special holds no Joker and plays none in a later trick. |
| Vows.TricksOpened | internal/game/rules.go:295-349 | The first lead is no special, the Mighty answers the first trick only to follow suit, and the Joker is called only by its caller, led to a trick between the first and the last. |
| Finishing.EveryRunCanFinish | internal/game/rules.go:511-763 | Every run, from any phase, can be continued by accepted joins and moves to a finished round. |
| Finishing.AnotherRound | internal/game/rules.go:536-549 | From every run, finished or not, another round can be voted, dealt and played to its end, with its scores filed. |
| Steps.MoveExact | internal/game/rules.go:511-763 | An accepted move, in any phase, leads from a good table to a good table if and only if it does not change the number of seats. |
| Steps.JoinKeepsInv | internal/service/game_service.go:107-148 | Joining and rejoining, in any phase, lead from a good table to a good table. |
| Steps.ResizeExact | internal/game/rules.go:515-533 | Changing the configuration keeps the invariant if and only if it keeps the number of seats. |
| Steps.AcceptedMove | internal/game/rules.go:41-73 | An accepted move fits the phase and comes from the seat whose turn it is. |
| Steps.InvIndexable | internal/game/rules.go:99-118 | The seat a phase looks up always exists, so no move indexes an empty seat. |
| Progress.NoStuckPlayer | internal/game/rules.go:241-364 | In every reachable playing state the seat on turn holds a card that is accepted, in spite of late-game forcing, joker calling, first-trick bans and following suit. |
| Progress.ChooseCard | internal/game/rules.go:241-364 | Constructs an acceptable card from any non-empty hand of the deck, given the state of the trick. |
| Progress.SomeMoveAlways | internal/game/rules.go:41-73 | Once the table is full some player has an accepted move in every phase. |
| Progress.MoveShortens | internal/game/rules.go:554-757 | Each move of a deal either throws the hand in for a new deal or strictly decreases the measure of what is left. |
| Progress.DealEnds | internal/game/rules.go:554-757 | Within one deal at most 67 moves are possible, whatever joins happen in between. |
| Progress.ContractIsHighestBid | internal/game/rules.go:555-610 | After the auction the contract is the last and strict maximum of all bids, legal, and the declarer's. |
| Progress.AuctionStructure | internal/game/rules.go:555-610 | While bidding, the seat on turn has not passed; under a standing bid it is not the high bidder, who has not passed either, at most n - 2 seats have passed, and all seats strictly between high bidder and turn have. |
| Auction.AdvanceStops | internal/game/rules.go:990-1000 | For any n and any set of passed seats that is not everybody, the search for the next bidder ends at the first seat after the turn that has not passed. |
| Auction.BidRotates | internal/game/rules.go:555-579 | For any n of at least 2 a bid keeps the auction's rotation invariant. |
| Auction.PassRotates | internal/game/rules.go:581-610 | For any n of at least 2 a pass keeps it, or ends the auction. |
| Auction.LastSeatMayBid | internal/game/rules.go:572-579 | n - 1 seats have passed with the auction open only when nobody has bid. |
| Rounds.CardsConserved | internal/game/card.go:105-155 | From the first deal on, hands, kitty, trick log and discards are exactly the deck, every card once, in 53- and 43-card games. |
| Rounds.TricksRotate | internal/game/rules.go:659-756 | Every trick goes round from its leader; the declarer leads the first, the winner of each trick the next; complete tricks have one card per seat; the turn is the leader plus the cards played, modulo n. |
| Rounds.HandCount | internal/game/rules.go:612-642 | A seat yet to play in trick k holds 11 - k cards; the declarer has one more per repeated discard. |
| Rounds.ExchangeExact | internal/game/rules.go:158-185 | The exchange removes exactly the named cards and leaves ten if and only if the three are different. |
| Rounds.RepeatedDiscard | internal/game/rules.go:172-182 | In every exchange one held card named three times is accepted and leaves the declarer twelve cards. |
| Rounds.SpecialsPlaced | internal/game/rules.go:274-304 | The Joker is never played in trick 1, and no Joker or Mighty in trick 10 except by a declarer with surplus cards. |
| LastTrick.SurplusForcesSpecial | internal/game/rules.go:274-361 | In trick 10 the declarer, with no, one or two surplus cards, may play a special if and only if one is in hand, and an ordinary card if and only if neither the late-game rules nor following suit force a special. |
| LastTrick.JokerLastExactly | internal/game/rules.go:158-364 | After an exchange that leaves the declarer the Joker, some continuation of the round plays the Joker in trick 10 if and only if the three discards are not all different. |
| LastTrick.RoundLeaves | internal/game/rules.go:646-756 | Within a round the declarer, the discards, trump and seats stay, and the declarer's hand only shrinks. |
| LastTrick.NeitherNever | internal/game/rules.go:274-304 | After an exchange that leaves the declarer neither special, no continuation of the round plays one in trick 10. |
| LastTrick.OwnersKept | internal/game/rules.go:664-756 | Within a round every card stays with the seat that holds or has played it. |
| Shortfall.JokerReached | internal/game/rules.go:158-364 | For every configuration, and one or two different discards, a legal run in which the Joker is played in trick 10. |
| Shortfall.MightyReached | internal/game/rules.go:158-364 | The same for the Mighty. |
| Shortfall.SpecialsExactly | internal/game/rules.go:158-364 | All rounds with d different discards keep the Mighty, and the Joker, out of trick 10 if and only if d is three. |
| Shortfall.AllPointsLeft | internal/game/rules.go:618-642 | A declarer with surplus cards who is left with nothing but scoring cards ends every finish of the round below twenty points. |
| Shortfall.TwentyExactly | internal/game/rules.go:854-867 | All finished rounds with d different discards count twenty points if and only if d is three. |
| Shortfall.LowLeadReached | internal/game/rules.go:766-829 | For every configuration a legal run with a complete trick in which the only card of the suit owed loses to an off-suit ace. |
| Rounds.NobodyRevokes | internal/game/rules.go:351-361 | From the log alone: a seat that answers with neither the suit owed nor a special shows no card of that suit in any later trick. |
| Rounds.TrickWinner | internal/game/rules.go:766-829 | On every completed trick of every run the Mighty wins, else a live Joker, else the highest trump, else the highest card of the suit owed exactly when one is not overtaken, and otherwise the highest off-suit card, the earliest of equals. |
| Winner.BestIsGreatest | internal/game/rules.go:766-787 | The running maximum finds the first card of greatest power. |
| Winner.UpperTiers | internal/game/rules.go:790-829 | The winner is the Mighty, else the live Joker, else the highest trump present. |
| Winner.LeadTier | internal/game/rules.go:790-829 | With neither special nor trump the card of the suit owed wins if and only if some card of it is not overtaken by an off-suit card, and otherwise the highest off-suit card wins, the earliest of equals. |
| Winner.FiveHolds | internal/game/rules.go:27-38 | A five or better of the suit owed is never overtaken. |
| Winner.LowLeadLoses | internal/game/rules.go:27-38 | In both games a complete trick led with a three, its only card of that suit, goes to the off-suit ace. |
| Ownership.LocateOwner | internal/game/rules.go:395-423 | Scanning hands and then tricks finds the one seat that holds or played the card, or nobody. |
| Outcomes.FriendOwnsCard | internal/game/rules.go:395-423 | In every run the friend is the one seat that holds or has played the called card. |
| Outcomes.FriendStable | internal/game/rules.go:395-423 | From the call to the finish every scan gives the same seat. |
| Outcomes.FriendRevealed | internal/game/rules.go:719-726 | The partner seat is set if and only if a completed trick was won by the friend and held a point card or the friend's Joker, and then it is the friend. |
| Outcomes.TwentyScoringCards | internal/game/rules.go:618-642 | At every moment piles, hands, kitty and open trick hold twenty scoring cards, and each pile is what its seat discarded and captured, in order. |
| Outcomes.AllTwentyAtFinish | internal/game/rules.go:854-867 | At the finish the piles hold at most twenty, all twenty with three different discards, and all twenty if and only if no hand keeps a point card. |
| Points.PointsMakeTwenty | internal/game/rules.go:715-730 | The counting argument for any table whose cards are conserved. |
| Scoring.ZeroSum | internal/game/rules.go:841-951 | The scores of a full table cancel out for every declarer, friend, contract and failure split, odd stakes included. |
| Scoring.Balance | internal/game/rules.go:900-948 | The payouts to the three roles cancel out. |
| Scoring.MoreCardsPay | internal/game/rules.go:869-948 | The declarer's score strictly increases with captured cards; the partner's never falls, an opponent's never rises. |
| Scoring.ScoreSoundness | internal/game/rules.go:869-948 | Signs tell success, and no score exceeds 640 with five seats or 480 with four. |
| Outcomes.FinalScores | internal/game/rules.go:735-752 | At every reachable finish the recorded scores are those payouts, seat by seat, with these signs and bounds. |
| Scores.RecordedScores | internal/game/rules.go:841-951 | At every reachable finish each seat's recorded score is worked out from contract, piles and played cards: the margin times two for every one of run, back run, no trump and no friend, shared evenly, or as four players agreed for a failure. |
| Scores.SomePartner | internal/game/rules.go:843-849 | At every finish either nobody besides the declarer has the called card, or one seat has and is the partner. |
| Scores.RoundFiled | internal/game/rules.go:735-752 | The scores of a round that ends are filed behind those of the earlier rounds and added to the totals. |
| Outcomes.BooksBalance | internal/game/rules.go:738-752 | In every run each round's scores and the totals cancel out and totals are the sums of the history. |
| Outcomes.HistoryOnlyGrows | internal/game/rules.go:1003-1030 | Later operations never alter an entry of the score history. |
| Decks.NewDeckFor | internal/game/card.go:105-125 | Builds the deck suit by suit. |
| Decks.DeckContents | internal/game/card.go:105-125 | The deck holds exactly the Joker and the cards its size does not remove, each once. |
| Decks.PackAndRanks | internal/game/card.go:105-125 | Four players play without fours, twos and red threes; ranks are worth fourteen down to two and the first five score. |
| Decks.DeckSize | internal/game/card.go:105-125 | 53 or 43 cards, twenty of them scoring cards. |
| Decks.Deal | internal/game/card.go:136-155 | Ten cards a seat in order, the rest to the kitty, nothing lost; nothing dealt from a deck of the wrong size. |
| GameObject.Game.NewWithConfig | internal/game/game.go:150-174 | Creates the opening state. |
| GameObject.Game.IsFull | internal/game/game.go:177-185 | Counting filled seats is right. |
| GameObject.Game.GetPlayer | internal/game/rules.go:76-84 | Finds the first seat with the ID, or nobody. |
| GameObject.Game.Start | internal/game/game.go:188-204 | The new state after dealing to the filled seats. |
| GameObject.Game.AdvanceToNextBidder | internal/game/rules.go:990-1000 | The loop terminates at the seat the specification names. |
| GameObject.Game.Bid | internal/game/rules.go:555-579 | The whole new state after a bid. |
| GameObject.Game.Pass | internal/game/rules.go:581-610 | The whole new state after a pass, an awarded contract or a redeal. |
| GameObject.Game.Discard | internal/game/rules.go:612-644 | The whole new state after the exchange. |
| GameObject.SplitHand | internal/game/rules.go:618-640 | Separates a hand from the cards taken out of it and collects their scoring cards. |
| Checks.CountSuit | internal/game/rules.go:499-507 | Counts a suit in a hand. |
| Checks.HoldsMighty | internal/game/rules.go:479-486 | The loop finds the Mighty if and only if it is in hand. |
| Checks.HoldsOrdinary | internal/game/rules.go:489-496 | The loop finds a card that is neither trump nor special if and only if there is one. |
| Checks.CheckCard | internal/game/rules.go:241-364 | The checks on a card, in the source's order and with loops over the hand, give the verdict of the rules. |
| GameObject.Game.Validate | internal/game/rules.go:41-73 | The checks on the object's own fields accept and reject exactly what the rules do. |
| GameObject.InvIsSound | internal/game/rules.go:511-763 | Every reachable game meets what the object's methods rely on. |
| GameObject.ResolveTrick | internal/game/rules.go:766-787 | One pass finds the winner's seat and the scoring cards of a full trick. |
| GameObject.Game.FindFriend | internal/game/rules.go:395-423 | The scan over seats and then tricks. |
| GameObject.Game.TakeTrick | internal/game/rules.go:711-733 | The winner, the captured points, the reveal and the next turn. |
| GameObject.Game.CalculateFinalScore | internal/game/rules.go:841-951 | The seat scores by loops over the seats are the payouts of the roles. |
| GameObject.Game.CloseRound | internal/game/rules.go:735-752 | Writes the round's scores on a new sheet, adds them to the totals, and files that same sheet; no earlier sheet changes. |
| GameObject.AddTotals | internal/game/rules.go:747-751 | Adding the round to the totals in any order of players gives their sum. |
| GameObject.Game.DoPlay | internal/game/rules.go:664-756 | The whole new state after a card, a finished trick or a finished round. |
| GameObject.Game.ResetForNextRound | internal/game/rules.go:1003-1030 | The whole new state of the next round, scored on a new sheet, with the history's sheets unchanged. |
| GameObject.Game.ApplyMove | internal/game/rules.go:511-763 | The object after a move is the engine's next state, and earlier sheets of the history are kept and unchanged. |
| GameObject.Game.FreeSeat | internal/service/game_service.go:125-138 | Finds the first free seat, or none when the table is full. |
| GameObject.Game.Join | internal/service/game_service.go:107-148 | The object after a join is the engine's next state; refused exactly when a stranger finds no seat. |
| GameStore.RedisStore.SaveGame | internal/store/redis/redis.go:46-101 | Compare and swap: writes state and version if and only if the expected version is stored. |
| GameStore.RedisStore.AcquireLock | internal/store/redis/redis.go:152-194 | Gets the lock if and only if an attempt finds it free before one fails, the caller gives up or the attempts run out; each other outcome exactly in its case. |
| GameStore.RedisStore.ReleaseLock | internal/store/redis/redis.go:197-219 | Deletes the lock only for its owner's token. |
| GameService.Service.CreateGame | internal/service/game_service.go:70-84 | Records the game in the database first, and then stores it only where there is none; if the database fails nothing is stored. |
| GameService.Service.JoinGame | internal/service/game_service.go:89-169 | Store, ledger and answer of a join served alone: busy, unknown and full games, and what a newcomer and a returning player leave behind. |
| GameService.Service.ProcessMove | internal/service/game_service.go:174-243 | Store, ledger and answer of a move served alone: a taken lock, no game, another version than the client's and a rejected move change nothing; otherwise the next state, its version and the row with the client's version are written. |
| GameService.DecideMove | internal/service/game_service.go:190-202 | Checking the client's version, validating and applying through the object gives the decision of the protocol. |
| GameService.DecideJoin | internal/service/game_service.go:107-148 | Seating through the object gives the decision of the protocol. |
| Interleaving.StepKeeps | internal/service/game_service.go:89-243 | Every atomic step of every client, and every expiry, failure and crash, keeps the protocol's invariant. |
| Interleaving.Reachable | internal/service/game_service.go:89-243 | The invariant holds after every run of the protocol. |
| Interleaving.Decided | internal/service/game_service.go:186-202 | What a client computes is an operation of the sequential engine on what it read, one version higher, with its ledger row. |
| Serial.Serializable | internal/store/redis/redis.go:46-101 | Under every interleaving the stored game is the last table of the run that the committed operations make in version order, the version counts them, and the game satisfies its invariant and what the object's methods rely on. |
| Serial.CommitReadsPredecessor | internal/store/redis/redis.go:46-101 | In every run of the protocol a save succeeds only over the very state it read, and stores the engine's next state. |
| Serial.EveryReadIsReachable | internal/store/redis/redis.go:105-144 | Whatever a client has loaded is the table of the run that its version names, a reachable game that the object's methods can work on, and deciding on it never indexes out of range. |
| Serial.VersionStep | internal/game/rules.go:759-759 | Each step leaves the stored game alone, creates it, or commits one operation and raises the version by one. |
| Serial.LogOnlyGrows | internal/store/redis/redis.go:46-101 | Committed operations are never lost or reordered. |
| Serial.OneCommitPerVersion | internal/service/game_service.go:186-215 | Of two commits in a run the later one read a strictly later version. |
| Serial.LedgerDiscipline | internal/service/game_service.go:148-159 | Every ledger row has version = client version + 1, names the player of that committed operation, and shares its version with no other row, whatever rows are missing. |
| Serial.OnlyOwnerReleases | internal/store/redis/redis.go:197-219 | While a client owns the lock no other client's step takes it away; expiry alone does. |
| Serial.MutualExclusion | internal/service/game_service.go:54-67 | Until a lock expires at most one client is between acquire and release. |
| Serial.NoStaleSave | internal/service/game_service.go:204-215 | Until a lock expires no save is refused as stale. |
| Answers.RepliesCommitted | internal/service/game_service.go:204-226 | A client answered with a game has committed: the game is the table of the run that its version names, and the ledger has its row unless a seated player came back. |
| Requests.RequestKept | internal/service/game_service.go:174-243 | A client serves the request it began with until it is done. |
| Requests.MoveOnItsVersion | internal/service/game_service.go:186-207 | In every run of the protocol what a client commits is the operation its request asks for, and a committed move carries the version of the very table it is applied to. |
| Requests.VersionsDiffer | internal/service/game_service.go:186-189 | Of two committed moves the later was sent for a later version. |
| Requests.RefusedExactly | internal/service/game_service.go:186-194 | A client that has loaded the game is refused as stale if and only if its version is another, with the reason of the rules if and only if they reject the move, and as full if and only if a stranger finds no seat; nothing is stored or recorded. |
| Requests.RowsAreRequests | internal/service/game_service.go:209-226 | Every ledger row was written for a committed request and has its player, that player's seat, the version made and, of a move, the version its client sent. |
| Requests.RepliesToRequest | internal/service/game_service.go:174-243 | A client answered with a game gets the table that its own request led to. |
| Requests.WhyAnswered | internal/service/game_service.go:89-243 | Each answer is given exactly in its case: no game stored, a store or ledger error, a version that is not the client's or no longer the stored one, an invalid move, a full table, or success. |
| Requests.CreatedOnce | internal/service/game_service.go:70-84 | Creation stores the new game with version 1 if there is none, and changes nothing otherwise. |
| Requests.FourAttempts | internal/store/redis/redis.go:152-194 | A client tries for the lock at most four times, enters when it is free, and leaves after the fourth failure. |
| Serial.StepsServe | internal/service/game_service.go:174-243 | The steps of one uninterrupted request leave the store and the ledger as the service method does, and give the same answer. |
| TokenBucket.BucketInv | internal/ratelimit/limiter.go:43-77 | From a bucket or from none, and for timestamps in any order, tokens stay between 0 and the capacity and the stored time is the latest seen. |
| TokenBucket.TokensConserved | internal/ratelimit/limiter.go:57-77 | Tokens at the start plus tokens earned are tokens left, spent or overflowed. |
| TokenBucket.RateBound | internal/ratelimit/limiter.go:43-82 | Between any two calls no more is allowed than the capacity plus the refill per second times the stored seconds between; with `Clocks.Nanos` and `Clocks.Fresh` this is the bound of the in-process bucket. |
| TokenBucket.RetryExact | internal/ratelimit/limiter.go:69-76 | After a refusal the next call is allowed if and only if the hinted time has passed since the stored time and the bucket can hold a token. |
| TokenBucket.ForgettingExact | internal/ratelimit/limiter.go:48-56 | A forgotten bucket answers as the kept one would if and only if that one had filled up. |
| TokenBucket.ExpiryTransparent | internal/ratelimit/limiter.go:78-79 | With calls served in order and at most 1001 milliseconds after their stamp, expiring idle keys changes no answer and no stored bucket. |
| TokenBucket.LateCallDiffers | internal/ratelimit/limiter.go:78-79 | A call 1002 milliseconds late can be answered differently. |
| TokenBucket.LatenessExact | internal/ratelimit/limiter.go:78-79 | Expiry is harmless for calls at most so late, under every rule, if and only if the bound is at most 1001 milliseconds. |
| Clocks.ClocksAgreeExactly | internal/ratelimit/bucket.go:28-45 | On nanosecond times, cut to milliseconds for the shared limiter, the two agree on every continuation of any first call, by a clock that never runs backwards, if and only if neither can ever allow a call. |
| Clocks.FractionDiffers | internal/ratelimit/limiter.go:106-113 | Created at 0 and called at 0.9 and at 1000 milliseconds, the bucket refuses the call that the shared limiter allows. |
| Clocks.WholeAgreeExactly | internal/ratelimit/bucket.go:18-45 | When creation and every call fall on whole milliseconds, they agree on every continuation if and only if the bucket is created no later than the first call, or neither can ever allow one. |
| RateLimit.Key.Run | internal/ratelimit/limiter.go:43-82 | The script's answer, stored hash and time to live. |
| RateLimit.Allow | internal/ratelimit/limiter.go:106-134 | A call is refused if and only if the rule makes sense, the store answers, and the bucket holds less than a token. |
| RateLimit.Bucket.Allow | internal/ratelimit/bucket.go:28-45 | On nanosecond times the in-process bucket refills, clamps and spends as the token bucket does. |

## Left out

- GameObject.Game: the players are values in the seat list, not shared pointers, so aliasing of a player or a hand is not captured; the sheets of scores are shared objects.
- Runs.ReachableInv: a run ends before a configuration change that alters the number of seats, because the invariant then fails (`Steps.MoveExact`).
- GameObject.Game.Start: the shuffled deck is an argument; the runs let it be any permutation of the deck.
- GameStore.RedisStore.AcquireLock: what other clients do to the lock between attempts is an argument; the length of the pauses is not modelled, and a failed attempt leaves some lock behind.
- GameService.Service.ProcessMove: the method models a request served alone; interleavings are in `Protocol`.
- Serial.MutualExclusion: cannot hold after an expiry; `Serial.Serializable` does.
- Shortfall.SpecialsExactly: for the Mighty it quantifies over deals; whether a given hand can keep it depends on the other hands, since following suit may force it out.
- Shortfall.TwentyExactly: quantifies over deals; which scoring card a given hand can be made to keep depends on every other hand.
- TokenBucket.Call: the cost of a call is 1, as every caller passes, and tokens are real numbers, so the rounding of floating point is not modelled.
- Clocks.Agrees: both limiters are called at the same times; the monotonic reading Go keeps beside the wall clock is not modelled.
- Protocol.Step: the 24-hour expiry of a game and the re-creation of its ID; a game is created once.
- Payloads of the wrong type and JSON encoding: moves are a datatype with typed payloads.
- Lock tokens are fresh values; timestamps of games, logging, HTTP, WebSocket, authentication, the lobby and publishing are not modelled.
- Writes to the move ledger are appended or fail; the rest of the database is not modelled.
- Helpers of the rules that no move uses, such as Beats and HasNonTrump, and the limit on open connections.
