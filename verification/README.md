# Ledger, coins, turns, search, treasure and saving: a Dafny model

The server keeps, for many parties at once, a ledger of stashes, item rows, coin holdings,
characters, memberships and shop stock, and changes it one action at a time; pure rules beside it
split coins, run the initiative cycle, rank search hits and roll treasure; the web client saves its
state through a debounced saver. This project models that logic and proves what it keeps.

## How it is laid out

- `Tables` holds the tables as maps from their keys, the invariant `Valid`, and what is counted.
  `Valid` says: an open party has exactly one active DM, who is its owner, and a Banker that is
  nobody or an active player other than the owner; an archived party has no active member; no active
  DM has a soft-deleted player row; characters and the rows naming them correspond one to one; every
  character has its Inventory and every party its Recovered Loot; every stash has one non-negative
  holding; item rows are non-empty, have no negative charges and refer to what exists; stock is
  unlimited or not negative.
- `ItemRows`, `CoinRows`, `Members` and `Trade` say what each action writes, as functions on rows or
  tables, and prove laws about each. `Ledger` collects them into one state machine: `Legal` is what
  the guard map, the reducer and the request schema let through, `Apply` what the action does. An
  action that asks the database for the first matching row carries the row it got, so every answer
  the database may give is a run of its own.
- `MembersSafe`, `LedgerSafe`, `Effects`, `Totals` and `Runs` prove that every legal action keeps
  `Valid`, what it does to who is active, to units and to coins, and hence what holds after every run
  from the seeded catalogue on. `Profit` weighs a party's coins and goods together at what one shop
  pays; `Singles` is about equipped and attuned rows of one unit. `ItemEffects`, `CoinEffects` and
  `MemberEffects` say row by row and column by column what the actions leave in the tables, without
  naming the functions that compute it.
- `Persistor` is the server's persistor as a class whose fields are the tables: one method an action,
  writing rows in the server's order, against the database's keys, foreign keys, checks and
  triggers, with missing rows and explicit throws as failures. Its methods are proved against
  `Ledger`; `Perform` shows exactly which legal actions pass and that those land where the ledger
  says. `LeavePartyForUser` is the leave route, with the transaction that puts everything back.
- `Nesting` is about the one way a legal action is refused: rows two deep in containers.
- `Batch` is the loop of the action route over any guards, reducer and persistor.
- `Currency`, `Pricing`, `Initiative`, `Search`, `Hoard` and `Saver` model the files of those names, and
  `Windows` says how long a text the search's window matcher decides
  (`Saver` is the closure of `save.ts` and its timers). `MapSums`, `Sequences`, `FloorDivision` and
  `Wrappers` hold what they share.

Ids are integers and are only compared (the tracker's are strings, as nothing turns on it). Coin
counts and quantities are unbounded integers. Price modifiers, sell rates, catalogue costs and random
draws are exact reals. Clocks, ids, random draws and the answers of unordered queries are parameters.

## Where the code and its own words differ

The model follows the code in each case.

- Splitting evenly is documented as `N × share + remainder = pool`. That holds in copper
  (`Currency.SplitExact`). Coin by coin it holds exactly when every denomination but copper divides
  evenly (`CoinRows.ExchangeNone`); one gold piece between two becomes two electrum
  (`CoinRows.GoldBetweenTwo`). What is exchanged is worth nothing (`CoinRows.ExchangeWorthless`).
- A recipient named twice in a split is credited twice; the ledger keeps its worth all the same.
- The sliding-window matcher is described as deciding whether the characters occur in order within
  the window. It keeps the first start it sees, and so finds a window in every text up to a length
  exactly if that length is at most the window, or one more for a needle of one character three
  times or more; one or two times the same character it always finds (`Windows.MatchExactUpTo`, with
  a text one or two characters longer that is missed for every other needle).
- A hit at the start of a word is said to be stronger than one inside a word. For probes longer than
  four characters it scores less in every field, and for those alone (`Search.MidWordOutranks`):
  "longsword" comes before "sword" for "sword" (`Search.LongswordBeforeSword`).
- A short probe is said to match at word starts. Only its first occurrence is looked at, so a
  mid-word occurrence hides a later word (`Search.WordHitMissed`, with the exact condition in
  `Search.WordHit`). A short probe that does not occur is said not to match; from three characters
  on the window matcher is asked all the same (`Search.ShortProbeAbsentScores`, with the exact
  condition in `Search.ShortProbeAbsent`).
- Containers are meant to be one level deep, and the reducer is said to see to it. It keeps rows from
  being packed into a nested container but not a bag with contents from being packed: exactly that
  makes a row two deep (`Nesting.FlatKept`), and a later split or flagging of such a row is refused
  by the database (`Nesting.TakingRefused`).
- An equipped or attuned row is meant to be a single unit. Acquiring, transferring and buying stack
  onto any matching row: a legal request can leave a flagged row of several units exactly if it acquires,
  moves whole or buys what some flagged row matches (`Singles.SinglesBreakable`, with a second sword
  on the equipped one in `Singles.SecondSword`), and does so exactly when the database picks a flagged
  row (`Singles.SinglesKept`).
- The branch of the DM hand-over that revives a soft-deleted player row of the outgoing DM, and the
  `create` over an existing player row when a character is added, are never reached
  (`MembersSafe.TransferDmGoverned`, `Persistor.CharacterHasRoom`).

## Model

| member | source | states |
|---|---|---|
| Runs.PartiesGoverned | apps/server/src/sync/persistor.ts:1628-1925 | after every run a party is archived exactly when nobody is active in it, and otherwise has one active DM, its owner, and a Banker who is an active player and not the owner |
| Runs.KeysNeverCollide | apps/server/src/sync/persistor.ts:1726-1764 | after every run no active DM, and no member at all, has a soft-deleted player row beside the active one, so no create meets an existing key |
| Runs.CharactersHaveSeats | apps/server/src/sync/persistor.ts:395-496 | after every run every character has a player row naming it, active if the party is open, and an Inventory that is a carried stash of its own with a holding; in open parties a row names a character exactly if it is that character's, and is then active |
| Nesting.FlatKept | apps/server/prisma/migrations/20260703131254_rh25_invariants/migration.sql:104-141 | where nothing is two deep the database accepts every legal item action, and one puts something two deep exactly when it packs a row that has others inside |
| Nesting.RunsStayFlat | apps/server/prisma/migrations/20260703131254_rh25_invariants/migration.sql:104-141 | over runs that pack no such row nothing gets two deep and no legal item action is refused |
| Nesting.TakingRefused | packages/rules/src/reducer/index.ts:1504-1525 | a bag with two arrows is legally packed into a chest, after which taking an arrow off is legal and refused |
| Runs.RowsSound | apps/server/prisma/schema.prisma:289-401 | after every run rows are non-empty and refer to existing stashes and definitions, flags sit in Inventories only, every stash has one non-negative holding, stock is unlimited or not negative |
| Runs.UnitsConserved | apps/server/src/sync/persistor.ts:268-677 | over every run the units a party owns of a definition change by exactly what its acquisitions, consumptions, purchases and sales add up to |
| Runs.CoinsConserved | apps/server/src/sync/persistor.ts:505-703 | over every run each denomination a party holds changes by exactly what deposits, even splits and trades add up to |
| Runs.WorthConserved | apps/server/src/sync/persistor.ts:1939-1989 | over every run a party's worth in copper changes by its deposits, prices and credits alone; even splits change nothing |
| Runs.MovingRunKeepsAll | apps/server/src/sync/persistor.ts:505-703 | a run of transfers, splits, flags, deletions, departures and even splits keeps every party's units and worth |
| Runs.KeepingRunKeepsCoins | apps/server/src/sync/persistor.ts:505-703 | without even splits such a run keeps the coins of every denomination |
| Runs.UnitsCirculate | apps/server/src/sync/persistor.ts:923-1103 | with one finite stock row for a definition, every run of trades at that shop and of moving actions keeps the sum of the party's units and the row's |
| LedgerSafe.ActionSafe | apps/server/src/sync/persistor.ts:50-165 | every action the checks let through keeps the whole invariant |
| Totals.ActionAccounted | apps/server/src/sync/persistor.ts:50-165 | every action changes each party's units and coins by what it says and by nothing else |
| Totals.ChangeWorth | apps/server/src/sync/persistor.ts:923-1103 | the coins an action adds to a party are worth its price, its deposit, or nothing |
| Effects.PartyActionSeats | apps/server/src/sync/persistor.ts:1628-1925 | after each membership action a row is active exactly if the action says so, for every user, party and role |
| MemberEffects.PartyActionOffices | apps/server/src/sync/persistor.ts:1628-1925 | after each membership action every party's owner, Banker and archived flag are as the action says: an appointment names the Banker, revoking, leaving, being kicked and becoming DM end it, a hand-over alone changes the owner, the last to leave archives; nothing else about a party changes |
| MemberEffects.PartyActionRows | apps/server/src/sync/persistor.ts:1628-1925 | a row that becomes active starts anew at the action's time, one that is no longer active is marked with that time and loses its character unless the party is archived, every other row stays |
| MemberEffects.DepartCharacters | apps/server/src/sync/persistor.ts:1628-1718 | whoever leaves or is kicked takes their own character along and nobody else's |
| MemberEffects.DepartStashes | apps/server/src/sync/persistor.ts:1628-1718 | and that character's stashes and no other |
| MemberEffects.FoundedStashes | apps/server/src/sync/persistor.ts:180-266 | a new party comes with an empty pool and an empty Recovered Loot, and its founder's character with an empty Inventory |
| MemberEffects.CharacterCreated | apps/server/src/sync/persistor.ts:395-496 | a new character comes with an empty Inventory and is named by its owner's player row, which keeps its date if it was there; no other row or stash changes |
| MemberEffects.StashCreated | apps/server/src/sync/persistor.ts:353-373 | a new stash is a loose one of the character's, and empty |
| MemberEffects.CharacterDropped | apps/server/src/sync/persistor.ts:1527-1602 | dropping a character takes its stashes along and its name off its row, and nothing else |
| Effects.RejoinFresh | apps/server/src/sync/persistor.ts:1726-1764 | whoever left may join again under the same key and is then a member without a character |
| Effects.HandedBack | apps/server/src/sync/persistor.ts:1818-1925 | handing the DM role over and back restores owner and DM; the Banker is lost only if it was the one promoted |
| Effects.CharacterLeavesAll | apps/server/src/sync/persistor.ts:1527-1602 | when a character is dropped its stashes' units and coins are in the party's Recovered Loot, and no other stash gains or loses |
| Effects.StashLeavesAll | apps/server/src/sync/persistor.ts:505-557 | when a stash is deleted its units and coins are in the Recovered Loot of its character's party, and no other stash gains or loses |
| Effects.OtherRowsStay | apps/server/src/sync/persistor.ts:268-677 | an item action touches no row but the one named, the one found and the new one |
| ItemEffects.Acquired | apps/server/src/sync/persistor.ts:268-308 | acquired units go on a row with the same stash, definition and notes exactly if there is one, and else on a new row without flags, charges and container |
| ItemEffects.MovedWhole | apps/server/src/sync/persistor.ts:575-613 | a whole row is added to one at the destination with its definition and notes exactly if there is one, and else goes there with both flags cleared, in its container unless told otherwise |
| ItemEffects.MovedPart | apps/server/src/sync/persistor.ts:614-643 | fewer units go to a new row at the destination without flags, in no container unless told |
| ItemEffects.SplitApart | apps/server/src/sync/persistor.ts:645-677 | split-off units stay in the stash and container, without flags |
| ItemEffects.FlagSet | apps/server/src/sync/persistor.ts:1113-1204 | equipping sets `equipped` and attuning `attuned`; a single unit keeps its other flag, and a stack loses a unit to a new row in its place that carries that one flag |
| ItemEffects.FlagCleared | apps/server/src/sync/persistor.ts:1215-1289 | unequipping clears `equipped` and unattuning `attuned`; the row keeps the other flag, and is merged exactly if it then has neither flags nor charges and another such row stands in its place |
| ItemEffects.Consumed | apps/server/src/sync/persistor.ts:310-321 | a row is lowered by what is consumed and goes exactly if that is all of it |
| ItemEffects.Bought | apps/server/src/sync/persistor.ts:981-1011 | bought units go on a row of the buyer's stash and the definition without notes and container exactly if there is one, and else on a new one; no other row changes |
| ItemEffects.Sold | apps/server/src/sync/persistor.ts:1071-1080 | sold units come off the row, which goes exactly with its last unit; no other row changes |
| Singles.SinglesKept | apps/server/src/sync/persistor.ts:275-290 | where flagged rows are single, an action leaves them so exactly unless the row picked to stack onto is flagged |
| Singles.SinglesBreakable | apps/server/src/sync/persistor.ts:275-290 | where flagged rows are single, a legal request breaks that for some answer of the unordered query exactly if some flagged row has the stacking key of what is acquired, moved whole or bought |
| Singles.SecondSword | apps/server/src/sync/persistor.ts:275-290 | acquiring a second sword legally makes the equipped one a row of two |
| Effects.KindsCarried | apps/server/src/sync/persistor.ts:575-677 | moving, splitting, flagging and merging keep definition, notes, charges and details, and a new row has those of the row it came from |
| MembersSafe.TransferDmGoverned | apps/server/src/sync/persistor.ts:1818-1925 | after a DM hand-over every party is governed, and the outgoing DM's player row was absent or active, so the reviving branch is not taken |
| MembersSafe.AddCharacterSafe | apps/server/src/sync/persistor.ts:395-496 | adding a character keeps the invariant and never finds a soft-deleted row under its key |
| MembersSafe.DeleteCharacterSafe | apps/server/src/sync/persistor.ts:1527-1602 | dropping a character keeps the invariant and leaves no row, stash or character referring to it |
| MembersSafe.DepartGone | apps/server/src/sync/persistor.ts:1684-1718 | whoever leaves or is kicked is no longer a member, everyone else's membership is unchanged, the owner stays |
| MembersSafe.ArchiveSafe | apps/server/src/parties/leave.ts:57-71 | the last member is the owner, there is no Banker then, and archiving keeps the invariant |
| MembersSafe.FoundSafe | apps/server/src/sync/persistor.ts:180-266 | founding a party, with or without a character, keeps the invariant |
| ItemRows.RestackUndoesSplit | apps/server/src/sync/persistor.ts:1113-1289 | a unit split off the only mundane stack of its key, flagged and unflagged in any order, restores the item table exactly |
| ItemRows.OnlyMundaneMerged | apps/server/src/sync/persistor.ts:1240-1289 | clearing a flag makes no row vanish but a mundane one, merged into another mundane row, and changes no further row |
| ItemRows.TransferSum | apps/server/src/sync/persistor.ts:575-643 | under any way of counting stashes a transfer takes the units it moves from the source and puts them at the destination |
| ItemRows.SweepUnits | apps/server/src/sync/persistor.ts:505-534 | after a sweep every set of stashes holds what it held, the swept units being in the target |
| ItemRows.SplitSum | apps/server/src/sync/persistor.ts:645-677 | splitting a row changes no total |
| ItemRows.SetFlagSum | apps/server/src/sync/persistor.ts:1113-1204 | equipping and attuning, with or without a split, change no total |
| ItemRows.ClearFlagSum | apps/server/src/sync/persistor.ts:1215-1289 | unequipping and unattuning, with or without a merge, change no total |
| ItemRows.ConsumeSum | apps/server/src/sync/persistor.ts:310-321 | consuming takes away what is asked for, but never more than the row has |
| CoinRows.CurrencyTransferSum | apps/server/src/sync/persistor.ts:679-703 | a transfer moves exactly its delta of every denomination, also to the same stash |
| CoinRows.SweepCoins | apps/server/src/sync/persistor.ts:535-556 | after a sweep every set of stashes holds what it held, the swept coins being in the target |
| CoinRows.SplitSum | apps/server/src/sync/persistor.ts:1939-1989 | per denomination an even split exchanges the pool for the shares and the remainder, recipients repeating or being the pool |
| CoinRows.SplitEach | apps/server/src/sync/persistor.ts:1939-1989 | stash by stash and coin by coin: the pool has the remainder, and a stash gains as many shares as it is named |
| CoinEffects.CoinActionEach | apps/server/src/sync/persistor.ts:559-703 | every coin action adds to each stash just what it says, an even split a share to the Inventory of a character for each time it is named |
| CoinRows.ExchangeWorthless | apps/server/src/sync/persistor.ts:1939-1989 | that exchange is worth nothing in copper |
| CoinRows.ExchangeNone | apps/server/src/sync/persistor.ts:1954-1955 | nothing is exchanged exactly when platinum, gold, electrum and silver all divide evenly |
| CoinRows.GoldBetweenTwo | apps/server/src/sync/persistor.ts:1954-1955 | one gold piece between two is a share of one electrum each, so coins are exchanged |
| CoinRows.SplitSolvent | apps/server/src/sync/persistor.ts:1939-1989 | no holding goes negative in an even split |
| Trade.PurchaseSafe | apps/server/src/sync/persistor.ts:923-1022 | a purchase keeps the invariant; finite stock stays finite and not negative, unlimited stays unlimited, other shops' rows stay |
| Trade.SaleSafe | apps/server/src/sync/persistor.ts:1030-1103 | so does a sale, which adds at most the one row, of the shop's own, whose id came with it |
| Trade.PurchaseWorth | apps/server/src/sync/persistor.ts:949-979 | the buyer's stash is worth less by exactly the price |
| Trade.SaleWorth | apps/server/src/sync/persistor.ts:1047-1069 | the seller's stash is worth more by exactly the credit |
| Trade.UnitCostLaw | apps/server/src/sync/persistor.ts:949-962 | a unit costs its override, or else the nearest copper to amount times coin value times the shop's modifier, times the party's unless homebrew |
| Trade.UnitCreditLaw | apps/server/src/sync/persistor.ts:1047-1056 | a shop pays the nearest copper to its rate of that price |
| Trade.HomebrewIgnoresParty | packages/rules/src/pricing.ts:76-97 | the party's modifier changes no homebrew price |
| Trade.PurchaseTakesStock | apps/server/src/sync/persistor.ts:1013-1022 | a purchase takes its units off the row bought from unless that is unlimited, and changes no other |
| Trade.SalePutsStock | apps/server/src/sync/persistor.ts:1082-1102 | a sale puts its units on a row of the shop for the definition exactly if there is one, and else adds a row of just those without an override; no other row changes |
| Trade.NoProfitLoop | apps/server/src/sync/persistor.ts:923-1103 | buying without an override and selling back to the same shop gains nothing exactly when the unit price times (rate minus one) is under half a copper; never for a rate of at most one |
| Profit.WealthAccounted | apps/server/src/sync/persistor.ts:923-1103 | over every run of trades at a shop and of moving actions, the party's coins plus all its units at the shop's own credit change by exactly what its purchases are credited above or below their price; prices stay |
| Profit.NoRunProfits | apps/server/src/sync/persistor.ts:923-1103 | with a rate of at most one and no overrides in the shop, that sum never rises over such a run |
| Trade.SaleRestocks | apps/server/src/sync/persistor.ts:1082-1102 | units sold end up on the shop's only stock row for them |
| Persistor.Store.Perform | apps/server/src/sync/persistor.ts:50-165 | an action legal for some answer of the unordered queries passes exactly unless it inserts a row beside one in a nested container; if it passes the tables become what the ledger says for the answers got, otherwise nothing has changed, and they stay sound |
| Persistor.Store.Acquire | apps/server/src/sync/persistor.ts:268-308 | stacks onto a row with the same stash, definition and notes if there is one, else inserts; a throw changes nothing |
| Persistor.Store.Consume | apps/server/src/sync/persistor.ts:310-321 | lowers the row, deletes it at zero, throws if it is missing |
| Persistor.Store.Transfer | apps/server/src/sync/persistor.ts:575-643 | a full move merges or re-points, a partial one splits; flags are cleared; nothing is moved to a missing stash or onto a taken id; a move between stashes of a party fails exactly if it does not merge and names a nested container |
| Persistor.Store.Split | apps/server/src/sync/persistor.ts:645-677 | moves part of a row, never all of it, to a new row in place under a free id; fails for a legal split exactly if the row's container is nested |
| Persistor.Store.SetFlag | apps/server/src/sync/persistor.ts:1113-1204 | flags the row or a unit split off it; a stack without a new id throws, and so does a stack in a nested container |
| Persistor.Store.ClearFlag | apps/server/src/sync/persistor.ts:1215-1231 | clears the flag and restacks |
| Persistor.Store.RestackOrPatch | apps/server/src/sync/persistor.ts:1240-1289 | merges a now mundane row into a matching one, else writes it back |
| Persistor.Store.CreateStash | apps/server/src/sync/persistor.ts:353-373 | a stash and its empty holding; passes exactly if the id is free and the character exists |
| Persistor.Store.DeleteStash | apps/server/src/sync/persistor.ts:505-557 | items and coins go to a Recovered Loot of the owner's party before the stash and what would cascade with it go; only loose stashes of characters are deleted |
| Persistor.Store.CascadeCharacter | apps/server/src/sync/persistor.ts:1527-1602 | the cascade, against the database's own deletion cascades and references, is the ledger's deletion |
| Persistor.Store.AddCharacter | apps/server/src/sync/persistor.ts:395-496 | inserts character, Inventory, holding and membership, or links the active row; passes exactly if the keys are free, the party exists and an existing row is active without a character |
| Persistor.CharacterHasRoom | apps/server/src/sync/persistor.ts:457-495 | in a sound state no key a legal new character takes is taken, in particular by a soft-deleted row |
| Persistor.Store.JoinParty | apps/server/src/sync/persistor.ts:1726-1764 | revives the soft-deleted row or creates one |
| Persistor.Store.LeaveParty | apps/server/src/sync/persistor.ts:1628-1670 | the departure for any member but the DM; a party left empty is refused |
| Persistor.Store.KickPlayer | apps/server/src/sync/persistor.ts:1684-1718 | the same for another member; kicking oneself is refused with nothing written |
| Persistor.Store.AppointBanker | apps/server/src/sync/persistor.ts:1773-1782 | sets the Banker; the owner is refused by the database |
| Persistor.Store.RevokeBanker | apps/server/src/sync/persistor.ts:1791-1796 | clears the Banker |
| Persistor.Store.DmTransfer | apps/server/src/sync/persistor.ts:1818-1925 | the rows and the party after a hand-over; fails only for a missing row or party |
| Persistor.Store.Bootstrap | apps/server/src/sync/persistor.ts:180-266 | the rows of a new party; passes exactly if none of their keys is taken |
| Persistor.PartyHasRoom | apps/server/src/sync/persistor.ts:180-266 | in a sound state no key a new party takes is taken |
| Persistor.Store.CurrencyChange | apps/server/src/sync/persistor.ts:559-573 | adds the delta exactly when no denomination would go negative |
| Persistor.Store.CurrencyTransfer | apps/server/src/sync/persistor.ts:679-703 | debits, then credits; passes exactly if both holdings exist and neither write leaves one negative |
| Persistor.Store.SplitEvenly | apps/server/src/sync/persistor.ts:1939-1989 | sets the pool to the remainder and credits each named recipient in turn |
| Persistor.Store.Purchase | apps/server/src/sync/persistor.ts:923-1022 | charges, stacks and takes from stock; passes only if the stash can pay and a finite row has enough |
| Persistor.Store.Sale | apps/server/src/sync/persistor.ts:1030-1103 | credits, consumes and restocks; refuses more than the row has |
| Persistor.Store.LeavePartyForUser | apps/server/src/parties/leave.ts:46-98 | succeeds exactly for the last member, whose party is archived, and for members other than the DM; otherwise nothing has changed |
| Batch.Route.Post | apps/server/src/sync/routes.ts:327-467 | all or nothing: on success tables, log, response and broadcasts are those of all the actions in order; otherwise the first failing action is named and nothing has changed |
| Batch.Route.ApplyOne | apps/server/src/sync/routes.ts:343-435 | guards, reduces, persists and logs one action; a taken key becomes a rejection |
| Batch.Route.GoesThrough | apps/server/src/sync/routes.ts:343-443 | if each action in turn meets no guard's objection, is reduced and is written, the batch goes through and ends in the world after the last |
| Batch.Route.WentThrough | apps/server/src/sync/routes.ts:343-443 | and only then: a batch that went through has such a chain of worlds |
| Batch.Route.FailsThrough | apps/server/src/sync/routes.ts:343-393 | if the actions before one are carried out and that one meets a guard's, the reducer's or the database's objection, in that order, the batch fails there with that code or error |
| Batch.Route.WhyFailed | apps/server/src/sync/routes.ts:343-393 | and only then: a failed batch has such an action |
| Batch.Route.EntriesEach | apps/server/src/sync/routes.ts:405-424 | the log gets an entry a slice of each action, in order, built for the state before that action |
| Batch.Route.BroadcastsEach | apps/server/src/sync/routes.ts:433-439 | each action carried out is broadcast with just its entries, and not at all if it has none |
| Batch.Route.BatchSplits | apps/server/src/sync/routes.ts:327-445 | a batch is its parts one after the other when state and actor are carried over, in worlds and in entries |
| Batch.Route.FailureStays | apps/server/src/sync/routes.ts:343-393 | once an action fails no later one matters |
| Batch.Route.ActorsParty | apps/server/src/sync/routes.ts:361-372 | the actor ends in the party the reducer named at the last founding action of a bootstrap, or where they started if there is none, and is otherwise who they were |
| Currency.FromCopper | packages/rules/src/currency.ts:80-97 | refuses exactly the negative amounts, else yields the change |
| Currency.ChangeExact | packages/rules/src/currency.ts:80-97 | the change is worth the amount and is canonical |
| Currency.ChangeUnique | packages/rules/src/currency.ts:61-97 | a purse survives the way to copper and back exactly when it is canonical |
| Currency.ChangeOptimal | packages/rules/src/currency.ts:71-97 | every other purse of the same worth has more coins |
| Currency.SplitEvenly | packages/rules/src/currency.ts:188-226 | refuses exactly n below one, else yields the division |
| Currency.SplitDealt | packages/rules/src/currency.ts:188-226 | a division is the result exactly if, from platinum down, everybody gets as many coins as go round and what is left is broken into the next denomination |
| Currency.SplitExact | packages/rules/src/currency.ts:175-226 | n shares and the remainder are worth the pool; the remainder is the copper value modulo n, in copper only; the share is worth the floored n-th part |
| Currency.SplitAtLeastFloor | packages/rules/src/currency.ts:196-226 | nobody gets fewer coins of a denomination than the floored n-th of the pool's |
| Currency.ConvertAccepted | packages/rules/src/currency.ts:118-139 | a conversion is accepted exactly if it is of a positive number of coins into another denomination and comes out even |
| Currency.ConvertYields | packages/rules/src/currency.ts:118-139 | it replaces them by as many of the other as they are worth and moves no further coin |
| Currency.ConvertUndone | packages/rules/src/currency.ts:118-139 | a conversion is worth nothing and converting back cancels it coin by coin |
| Pricing.RoundsToNearest | packages/rules/src/pricing.ts:76-97 | prices are rounded to the nearest copper, halves up |
| Pricing.NoResaleProfit | packages/rules/src/pricing.ts:76-97 | a shop pays at most its own price exactly when its rate does not lift it by half a copper |
| Sequences.StableOrderUnique | packages/rules/src/initiative.ts:39-54 | being ordered, with ties in entry order, determines the sorted list |
| Initiative.DistinctInitiativeGroups | packages/rules/src/initiative.ts:60-71 | the loop computes the groups |
| Initiative.CycleShape | packages/rules/src/initiative.ts:39-71 | groups fall strictly in initiative, unrolled last, and each is all the rows of its initiative in entry order |
| Initiative.CycleFalls | packages/rules/src/initiative.ts:39-71 | of two groups the earlier has the higher initiative, and those who have not rolled come last |
| Initiative.CycleTies | packages/rules/src/initiative.ts:39-71 | a group is everyone of one initiative in the order entered |
| Initiative.AdvanceFromMember | packages/rules/src/initiative.ts:73-107 | from any member of a group the turn goes to the next group's lead, from the last group to the first in a new round |
| Initiative.AdvanceFromNobody | packages/rules/src/initiative.ts:84-107 | a pointer that is unset or on nobody goes to the first lead in the same round |
| Initiative.LeadIsFirst | packages/rules/src/initiative.ts:84-93 | a lead is the first-entered row of its initiative |
| Initiative.FairTurns | packages/rules/src/initiative.ts:84-107 | from a fresh start the j-th turn is group (j-1) mod k in round (j-1) div k |
| Initiative.RemovalSkips | packages/rules/src/initiative.ts:121-152 | removing the active row that is its whole group makes all later turns those of the full order with that group's deleted, rounds included |
| Initiative.RemovalElsewhere | packages/rules/src/initiative.ts:121-152 | removing a row that is its whole group while another is active leaves pointer and round, and makes all later turns those of the full order with that group's deleted |
| Initiative.RemovedActive | packages/rules/src/initiative.ts:121-152 | removing the active lead of any of several groups moves the turn where it would have gone next |
| Initiative.RemovalInOnlyTie | packages/rules/src/initiative.ts:121-152 | removing the active lead of the only tie starts the rest of it over in a new round |
| Initiative.RemovalOfLast | packages/rules/src/initiative.ts:121-152 | removing the last row unsets the pointer and keeps the round |
| Initiative.PointerStaysOnLead | packages/rules/src/initiative.ts:84-152 | a pointer that is unset or on a lead stays so through turns and removals |
| Search.IsSubsequence | packages/rules/src/search.ts:150-179 | the loop computes the windowed scan |
| Search.MatchSound | packages/rules/src/search.ts:141-179 | a match has increasing positions spelling the needle within the window |
| Search.MatchExactOnShort | packages/rules/src/search.ts:141-179 | on text no longer than the window the matcher decides ordinary subsequence |
| Windows.ExactOnShort | packages/rules/src/search.ts:141-179 | on text no longer than the window it finds a window exactly if there is one |
| Windows.MatchExactUpTo | packages/rules/src/search.ts:141-179 | the exact length up to which it finds a window in every text that has one, for every needle |
| Search.MatchMissesWindow | packages/rules/src/search.ts:141-179 | a longer text whose window is missed |
| Search.OccurringScore | packages/rules/src/search.ts:110-136 | a probe that occurs earns the word tier exactly if its first occurrence starts a word, and otherwise the mid-word tier if longer than four characters and nothing if not |
| Search.LongProbeScores | packages/rules/src/search.ts:110-136 | a longer probe that occurs anywhere scores |
| Search.AbsentScore | packages/rules/src/search.ts:110-136 | a probe that does not occur earns the lowest tier exactly if it has three characters and the window matcher accepts it |
| Search.MidWordOutranks | packages/rules/src/search.ts:55-63 | a hit inside a word outranks one at the start of a word in the same field exactly if the probe is longer than four characters |
| Search.LongswordBeforeSword | packages/rules/src/search.ts:55-63 | "longsword" scores 100 for "sword" and "sword" 80 |
| Search.WordHit | packages/rules/src/search.ts:110-136 | a short probe at some word start earns the word tier exactly when no mid-word occurrence comes first |
| Search.WordHitMissed | packages/rules/src/search.ts:110-136 | a text holding the probe as a word that scores nothing |
| Search.ShortProbeAbsent | packages/rules/src/search.ts:110-136 | a short probe that does not occur scores nothing exactly if it is shorter than three or the window matcher finds none |
| Search.ShortProbeAbsentScores | packages/rules/src/search.ts:110-136 | a text without the short probe that scores |
| Search.BestTagIsMaximum | packages/rules/src/search.ts:185-214 | the tag score is at least every tag's, and some tag's unless it is zero |
| Search.ScoreProbeAgainstItem | packages/rules/src/search.ts:185-214 | name, description and the best tag are added up |
| Search.FieldsWeighed | packages/rules/src/search.ts:55-63 | a probe that hits the name outweighs one that does not, and one that hits the description outweighs one that hits tags only |
| Search.FieldsAdd | packages/rules/src/search.ts:185-214 | what a probe earns in the several fields adds up |
| Search.TotalUnlessMissed | packages/rules/src/search.ts:244-256 | an item is disqualified exactly if some probe scores nothing, else its total is the sum |
| Search.Search | packages/rules/src/search.ts:226-266 | the loop and the sort compute the ranked hits |
| Search.SearchLaw | packages/rules/src/search.ts:226-266 | a list is the result exactly if it is ordered by score, then name length, with ties in catalogue order |
| Search.FoundRanked | packages/rules/src/search.ts:258-263 | hits come by falling score, then by rising length of the name, each with its total |
| Search.WordsConcat | packages/rules/src/search.ts:238-242 | white space separates words |
| Search.OneWord | packages/rules/src/search.ts:238-242 | text without white space is one word |
| Search.StopwordsDropped | packages/rules/src/search.ts:234-244 | the words searched for are those of the query that are no stopwords; a query of nothing else returns the catalogue as it is |
| Search.CaseIgnored | packages/rules/src/search.ts:226-256 | letter case is ignored in the query and the catalogue |
| Search.FoundCounts | packages/rules/src/search.ts:226-266 | an item is returned as often as the catalogue has it if every content probe scores on it, else not at all |
| Search.ProbeOrderIrrelevant | packages/rules/src/search.ts:226-266 | permuting the probes gives the identical list |
| Search.MoreWordsFewerHits | packages/rules/src/search.ts:226-266 | a further word never brings in an item |
| Hoard.RandIntUniform | packages/rules/src/hoard.ts:38-42 | a draw yields exactly the integer whose equal slice of the unit interval it lies in |
| Hoard.RollBuckets | packages/rules/src/hoard.ts:49-68 | the nested loops compute the tally, also for no draws and no weight |
| Hoard.OneBucketPerDraw | packages/rules/src/hoard.ts:57-66 | a draw stops the walk at exactly the bucket whose slice it lies in |
| Hoard.EveryDrawCounted | packages/rules/src/hoard.ts:49-68 | counts sum to the number of draws, and each is the number of draws landing on it |
| Hoard.ZeroWeightNeverDrawn | packages/rules/src/hoard.ts:49-68 | a bucket of weight zero stays at zero |
| Hoard.MagicLaw | packages/rules/src/hoard.ts:124-165 | magic items number what was rolled and rarities a band does not list never occur, legendary below the top band among them |
| Hoard.GemLaw | packages/rules/src/hoard.ts:172-218 | gems number what was rolled and tiers of weight zero never occur |
| Hoard.MagicShares | packages/rules/src/hoard.ts:124-165 | a draw yields at most a given rarity exactly if it lies in the band's cumulative share |
| Hoard.GemShares | packages/rules/src/hoard.ts:172-218 | likewise for gem tiers |
| Hoard.HigherBandsRollMore | packages/rules/src/hoard.ts:124-218 | with the same draw a higher band rolls at least as many items and gems |
| Hoard.HigherBandsRollRarer | packages/rules/src/hoard.ts:124-218 | and each at least as rare or precious |
| Hoard.Roll | packages/rules/src/hoard.ts:231-241 | the first draw sets a number in the given range, and that many further draws are tallied |
| Hoard.RollMagic | packages/rules/src/hoard.ts:231-235 | the number rolled is the one whose slice the first draw lies in, each rarity's count is how many of the next draws land on it, and unattainable rarities stay at zero |
| Hoard.RollGems | packages/rules/src/hoard.ts:237-241 | likewise for gems and tiers of weight zero |
| Saver.PartyIdLaw | apps/web/src/db/save.ts:64-72 | the id found is the text at appState.party.id, and is found exactly if that is a non-empty text |
| Saver.DebouncedSaver.SaveLater | apps/web/src/db/save.ts:88-102 | replaces what is pending and restarts the timer, unless there is no party |
| Saver.DebouncedSaver.OnTimeout | apps/web/src/db/save.ts:98-101 | writes what is pending |
| Saver.DebouncedSaver.FlushNow | apps/web/src/db/save.ts:103-109 | stops the timer and writes what is pending |
| Saver.AlwaysSound | apps/web/src/db/save.ts:55-111 | under every interleaving at most one timer is live, one exactly while something is pending; each blob goes under its own party's id; writes are a subsequence of the saves |
| Saver.SaveRestarts | apps/web/src/db/save.ts:88-102 | a save makes its snapshot the pending one and starts the wait again with a new timer, the only live one; nothing is written yet |
| Saver.NoPartyIgnored | apps/web/src/db/save.ts:88-90 | a snapshot of no party changes nothing |
| Saver.PendingWritten | apps/web/src/db/save.ts:74-109 | the end of the wait and a flush write just what is pending, once, under its party's id |
| Saver.FlushSavesAll | apps/web/src/db/save.ts:103-109 | after a flush nothing is pending and the last write is the last save |

## Left out

- Renames, character edits, wishlists, encumbrance rules, session notes, open and closed shops, catalogue seeding and the columns they write: single-row writes that would add only easy members.
- `OnSetup` actions (shops, stock rows, price modifiers, homebrew definitions) are part of the ledger and its invariants but have no method in the store, and what they write is not stated beyond the invariant; editing, identifying, using charges of and recharging a row are one action, `EditItem`.
- Guards and the reducer are not modelled as code; what they and the request schema check is the predicate `Legal` (packages/shared/src/guards/map.ts, packages/rules/src/reducer/index.ts), asked of the tables themselves; that the reducer may stack a partial transfer, where the persistor inserts a row, and does not stack within one stash, where the persistor may, is not stated; within a batch the server asks the later actions of the reducer's own state. No claim is made that the persistor computes the reducer's state.
- Actor roles other than where a check turns on them; HTTP, sockets, authentication, rate limits, log text and the wording of errors.
- `formatPrice`, `toGpEquivalent`, adding and subtracting coins, and the coin part of a hoard: formatting or single expressions.
- Containers: that a row's container exists and lies in the same stash is not claimed, as a full move and a deletion do not keep it.
- Rounding of binary floating point in prices, rates and draws; non-ASCII lower-casing and word characters in search.
- Whether an append to the log fails: appending is total here.
- Isolation between concurrent transactions, and foreign keys that the database checks only at commit.
- Batch.Route.BatchSplits: two batches sent apart are not claimed to equal one, since the actor's role is looked up once a batch.
- Persistor.Store.Perform: of the database's constraints it does not model the 32-bit range of integer columns, the existence of users, and the uniqueness of invite codes and of holding ids; an action that violates one is rolled back like any other.
- Persistor.Store.CascadeCharacter: its effect is stated for legal requests in sound states; likewise leaving and kicking, which use it.
