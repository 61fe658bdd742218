# Maestro Bitcoin indexer: a verified model

This project models the parts of the indexer where a mistake would corrupt data
silently, and proves what they are for. The Dafny files follow the programs:

- **Metaprotocols** (`Runes`, `Inscriptions`, `Decimal`, `Brc20`): what one
  transaction does to runes, inscribed sats and BRC-20 balances, and that it
  conserves them.
- **Supply** (`Supply`, `Confirmed`, `Audit`, `Sats`): the books of runes, BRC-20
  amounts, inscriptions and sats, kept by every transaction, by every confirmed
  block, and by every run with its rollbacks.
- **Mempool worker** (`Roll`, `Cache`): estimated blocks folded over a snapshot.
  The books hold over every run, and the storage cache is invisible.
- **Chain database** (`Undo`, `ChainDb`, `Storage`, `Reorg`, `Wal`, `Sync`,
  `Replica`, `Database`): blocks applied and rolled back, and the write-ahead log. Over any
  run of blocks and rollbacks the database is what the surviving blocks give,
  and the log is a final part of a journal that leads to the current chain.
- **Storage actions** (`Actions`, `Merger`, `Points`, `Refresh`): merging,
  differencing and inverting actions on keys, batches of them, point aggregates,
  and the mempool refresh that goes from one estimate to the next.
- **Keys and queries** (`Codec`, `Keys`, `Scan`, `Unify`): the codec, byte order,
  key ranges, batched scans and pages, and the choice of a common block.
- **Ordinals** (`Ordinals`): queues of ordinal ranges and the ranges of coinbases.

`Chain` holds the shared vocabulary, `Sums` finite sums over maps, `Saturation`
totals that stop at zero and `Sorting` stable sorting. Each
imperative part of the source is a class or a method with loops that is proved
equal to a specification function; the lemmas are about that function.

How to read it:

- Amounts, heights and ids are natural numbers; 128-bit and 64-bit limits are
  written out where the source relies on them or breaks on them.
- "Absent = 0": a missing balance, supply or mint count counts as zero. Two
  tables that differ only in this way are called the same; `Reorg` proves that
  no later block can tell them apart.
- Results of foreign parsers are inputs: the runestone, the envelopes with
  their curse classification, and the fields of a BRC-20 message.
- Snapshots and database transactions are immutable maps; an operation that
  fails leaves the database as it was.
- Consensus rules that the indexer relies on are preconditions
  (`Roll.Valid`, `ChainDb.NewBlock`, `Storage.NewItem`, `Confirmed.NewIds`): an
  output is spent once, transaction ids and the inscriptions they reveal are new
  (BIP 30 and BIP 34), and heights grow. Missing inputs are an
  error as in the source; a block whose outputs exceed its inputs or that has no
  coinbase is reported as invalid.
- In the mempool worker an output spent earlier in the refresh leaves the unspent
  ones; the source's overlay would still resolve it, which makes no difference
  where every output is spent once.

Properties that the code does not have everywhere are stated with the exact
condition and a concrete counterexample:

- A rollback does not remove the terms and the reserved name of a rune that was
  etched without a name (`Storage.RollbackRestores`,
  `Storage.UnnamedEtchingStays`).
- Merging storage actions can lose a stored zero (`Actions.MergeLaw`,
  `Actions.FinalLaw`, `Actions.LostZeroMatters`), and it does not know what was
  cut off where a number is lowered by more than is stored (`Actions.AmountLaw`,
  `Actions.CutOffMatters`).
- The comment on `diff` promises that an action followed by the difference
  equals the other action; this holds only as far as `Actions.DiffLaw` says.
- Merged point aggregates write the same points only for lists in order
  (`Points.MergedWriteLaw`, `Points.OutOfOrder`), and a correction by the
  difference leaves the points of the other list only under the condition of
  `Points.DifferenceWriteLaw` (`Points.NotCorrected`). Even the totals differ where
  the merge or the difference sinks below zero (`Points.MergeSinks`,
  `Points.MergeLeavesOver`, `Points.CorrectionSinks`,
  `Points.CorrectionLeavesOver`).
- A mempool refresh keeps no inverse for a key that the one before left as it
  was, and then cannot be rolled back (`Refresh.TurnLaw`,
  `Refresh.InverseForgotten`); neither can points that had a value
  (`Points.PointInverseLaw`).
- The best common block depends on the order of a hash map where instances have
  committed two common blocks of one height in different order
  (`Unify.SameBlock`, `Unify.OrderDecides`).
- In a coinbase the second lookup by pointer can move an inscription
  (`Inscriptions.FifoInside`, `Inscriptions.CoinbaseLookupMoves`).
- A scan is cut short by a failure at size 1 or by a count that is a multiple of
  2^32 (`Scan.Execute`, `Scan.CountIsCut`), and no upper bound includes the
  largest height (`Keys.WithinBounds`).
- Printed amounts with an integer part beyond 64 bits are not parsed back
  (`Decimal.ParseUndoesPrint`).

Where comments and code disagree the code is followed: the comment on
`Decrement` speaks of a big-endian 64-bit number, while the code stores a
variable-length 128-bit one.

## Model

| member | source | states |
|---|---|---|
| Runes.RunesConserved | services/compressor-xbt/src/mempool/processor.rs:552-716 | For every transaction and every list of edicts, each rune held by the outputs plus what is burned equals what the inputs held plus the mint plus the premine. |
| Runes.BurnedOnlyWithoutDestination | services/compressor-xbt/src/mempool/processor.rs:671-708 | There is no left-over output exactly for a cenotaph, or without a pointer when all outputs are OP_RETURN; only then is anything burned. |
| Runes.EdictPlaces | services/compressor-xbt/src/mempool/processor.rs:651-660 | An edict to an output gives that output the amount as far as the balance goes (all of it for amount 0) and changes no other output and no other rune. |
| Runes.DealsInOrder | services/compressor-xbt/src/mempool/processor.rs:646-651 | An edict with an amount to one past the last output deals it to the eligible outputs in order until the balance is used up: the j-th gets what j full shares leave, at most the amount. |
| Runes.EvenSplit | services/compressor-xbt/src/mempool/processor.rs:631-645 | With amount 0 the whole balance is split, OP_RETURN outputs get nothing, and no two shares differ by more than one. |
| Runes.SharesUseBalance | services/compressor-xbt/src/mempool/processor.rs:634-645 | Quotient shares, one more for the first `remainder` outputs, add up to the balance, so no subtraction underflows. |
| Runes.LeftoverPlaced | services/compressor-xbt/src/mempool/processor.rs:671-708 | What the edicts left goes, all of it and nowhere else, to the output the runestone points at, or without a pointer (and for no cenotaph) to the first output that is not OP_RETURN; where there is no such output all of it is burned. |
| Runes.EdictIgnored | services/compressor-xbt/src/mempool/processor.rs:599-620 | An edict for 0:0 where nothing is etched, or for a rune that is not there, does nothing. |
| Runes.EtchesExactlyIf | services/compressor-xbt/src/mempool/processor.rs:867-915 | A transaction etches if and only if it asks for it without a name, or with a name that is accepted, not reserved and not taken; the rune is then recorded under that name or the one reserved for it, and otherwise no name and no terms change. |
| Runes.ReservedNamesDiffer | services/compressor-xbt/src/mempool/processor.rs:897-899 | The names reserved for two transactions of the chain differ. |
| Runes.UnallocatedSums | services/compressor-xbt/src/mempool/processor.rs:718-752 | The runes to be placed start as the sum over all inputs, rune by rune. |
| Runes.Destinations | services/compressor-xbt/src/mempool/processor.rs:622-629 | Exactly the outputs that are not OP_RETURN, in order. |
| Runes.RuneProcessor.CollectUnallocated | services/compressor-xbt/src/mempool/processor.rs:718-752 | The loop over the inputs ends with the specified sum of their runes. |
| Runes.RuneProcessor.Mint | services/compressor-xbt/src/mempool/processor.rs:754-793 | A closed mint (unknown rune, outside its heights, cap reached) changes nothing; an open one counts one mint and yields the amount. |
| Runes.MintWindow | services/compressor-xbt/src/mempool/processor.rs:754-865 | A rune is open for minting exactly at the heights that all bounds of its terms allow, absolute and relative to its etching, while the cap is not reached; one etched without terms never is, and etching changes no other rune. |
| Runes.RuneProcessor.RunEvenSplit | services/compressor-xbt/src/mempool/processor.rs:638-645 | The splitting loop equals the specified split. |
| Runes.RuneProcessor.RunDealOut | services/compressor-xbt/src/mempool/processor.rs:646-651 | The dealing loop equals the specified one. |
| Runes.RuneProcessor.RunEdict | services/compressor-xbt/src/mempool/processor.rs:599-661 | One turn of the edict loop equals the specified edict. |
| Runes.RuneProcessor.RunEdicts | services/compressor-xbt/src/mempool/processor.rs:591-663 | The edict loop applies the edicts in order. |
| Runes.RuneProcessor.PlaceLeftover | services/compressor-xbt/src/mempool/processor.rs:671-708 | The left-over loop equals the specified placement. |
| Runes.RuneProcessor.RunMint | services/compressor-xbt/src/mempool/processor.rs:570-577 | A successful mint is added to what is to be placed. |
| Runes.RuneProcessor.Index | services/compressor-xbt/src/mempool/processor.rs:552-716 | The whole of rune indexing, tables and outputs, equals the specification whose conservation, edicts, left-over output and etching the lemmas above state on the transaction. |
| Decimal.PrintDecimal | services/mapi-xbt/src/util.rs:469-495 | The printing loop gives the digits with a point before the last `dec` of them, padded with zeros. |
| Decimal.ParseDecimal | services/compressor-xbt/src/storage/inscriptions/brc20.rs:250-304 | The checks, the split at the point, the padding loop and the final reading as one number accept, reject or fail as specified. |
| Decimal.ParseUndoesPrint | services/compressor-xbt/src/storage/inscriptions/brc20.rs:250-304 | Parsing what was printed gives the number back if and only if its integer part fits in 64 bits; otherwise it is rejected. |
| Decimal.ParseIsExact | services/polyphony-xbt/src/reducers/brc20_terms_by_ticker.rs:238-292 | An accepted string is digits, with at most `dec` more after one point, and the result is its exact value times 10^dec. |
| Decimal.AcceptedExactlyIf | services/compressor-xbt/src/storage/inscriptions/brc20.rs:250-304 | Exactly these texts are accepted, with exactly this value: digits alone, or digits, one point and 1 to `dec` more digits, where the integer part fits in 64 bits and the value in 128. |
| Decimal.ParseNeverPanics | services/polyphony-xbt/src/reducers/brc20_terms_by_ticker.rs:238-292 | For up to 18 decimals the value always fits in 128 bits, so the unwraps never fail. |
| Decimal.PrintInjective | services/mapi-xbt/src/util.rs:469-495 | Different amounts print differently. |
| Inscriptions.ExactlyOnce | services/compressor-xbt/src/mempool/processor.rs:1008-1320 | For every funded transaction, the inscriptions that floated (with those carried in, for a coinbase) are exactly those that leave in outputs, lost or unbound, plus those carried on as fees: none lost, none doubled. |
| Inscriptions.OrdinaryExactlyOnce | services/compressor-xbt/src/mempool/processor.rs:1202-1320 | The same for a transaction that is not a coinbase. |
| Inscriptions.CoinbaseExactlyOnce | services/compressor-xbt/src/mempool/processor.rs:1192-1280 | The same for a coinbase, which takes what the other transactions carried and passes nothing on. |
| Inscriptions.InputToOutput | services/compressor-xbt/src/mempool/processor.rs:1035-1320 | First in, first out, from inputs to outputs: an inscription on sat o of a spent output ends on the sat of the outputs that lies o behind all the sats of the inputs before it; past the outputs it is handed on behind the reward so far, and a coinbase loses it behind the sats lost so far. |
| Inscriptions.RevealToOutput | services/compressor-xbt/src/mempool/processor.rs:1062-1150 | The same for a new inscription, on the sat its pointer names if that is inside the outputs, and otherwise on the first sat of the input that reveals it; one with an unknown even field, or of an input without sats, is bound to no sat. |
| Inscriptions.AllRead | services/compressor-xbt/src/mempool/processor.rs:1062-1070 | Envelopes in the order of their inputs are all read. |
| Inscriptions.FifoInside | services/compressor-xbt/src/mempool/processor.rs:1202-1262 | The step on the sorted queue. In every transaction, coinbase or not, an inscription below the output value that is not unbound lands on an output. It keeps its sat, counted over the outputs, if and only if a pointer of its own that lies inside the outputs is that sat; whatever is not carried in by a coinbase always does. |
| Inscriptions.FifoBeyond | services/compressor-xbt/src/mempool/processor.rs:1264-1318 | On the sorted queue, one beyond the outputs keeps its distance behind them: an ordinary transaction carries it on, counted from the reward so far, and a coinbase loses it, counted from the sats lost so far. |
| Inscriptions.SatsAccounted | services/compressor-xbt/src/mempool/processor.rs:1264-1320 | What a transaction does not put on its outputs is added to the reward, and what a coinbase does not claim is added to the lost sats. |
| Inscriptions.FeeSlice | services/compressor-xbt/src/mempool/processor.rs:1315-1320 | An existing inscription lost as a fee lands in the slice of the reward that this transaction adds. |
| Inscriptions.SortSpec | services/compressor-xbt/src/mempool/processor.rs:1196-1197 | Sorting by offset orders the flotsam, keeps every one of them, and keeps the order of those on the same sat. |
| Inscriptions.LocateUnique | services/compressor-xbt/src/mempool/processor.rs:1202-1232 | Every sat offset below the output value lies in exactly one output at one place. |
| Inscriptions.PointerLookupAgrees | services/compressor-xbt/src/mempool/processor.rs:1234-1254 | The second lookup by pointer finds the place of the sweep if and only if the flotsam has no pointer inside the outputs or floats at that pointer. |
| Inscriptions.FloatingHonoursPointers | services/compressor-xbt/src/mempool/processor.rs:1112-1141 | What a transaction reveals itself floats at its pointer, so for all but coinbases the second lookup changes nothing. |
| Inscriptions.CoinbaseLookupMoves | services/compressor-xbt/src/mempool/processor.rs:1234-1254 | For a coinbase it can: a reveal pays its inscription as a fee to sat 52 of the reward, and the coinbase run with what it carried puts it on sat 9, the pointer of the reveal. |
| Inscriptions.NumbersConsecutive | services/compressor-xbt/src/mempool/processor.rs:1538-1592 | New inscriptions get consecutive numbers, and cursed and blessed counts grow by as many. |
| Inscriptions.NumbersInOrder | services/compressor-xbt/src/mempool/processor.rs:1538-1592 | The n-th new inscription gets the n-th number. |
| Inscriptions.UnboundInOrder | services/compressor-xbt/src/mempool/processor.rs:1594-1606 | The n-th unbound inscription gets its own place at the unbound outpoint. |
| Inscriptions.SettleCounts | services/compressor-xbt/src/mempool/processor.rs:1538-1606 | Every counter grows by the number of inscriptions of its kind, and exactly the cursed and vindicated ones are remembered. |
| Inscriptions.SettleAllPoints | services/compressor-xbt/src/mempool/processor.rs:1594-1606 | Every inscription leaves in order, at its place or, unbound, at the unbound outpoint. |
| Inscriptions.SweepOutput | services/compressor-xbt/src/mempool/processor.rs:1211-1227 | The inner loop takes exactly the flotsam of one output. |
| Inscriptions.Sweep | services/compressor-xbt/src/mempool/processor.rs:1199-1232 | The sweep over the outputs equals the location by absolute offset. |
| Inscriptions.LookupPointer | services/compressor-xbt/src/mempool/processor.rs:1235-1254 | The search through the recorded ranges finds the output and offset of the pointer. |
| Inscriptions.Indexer.UpdateLocation | services/compressor-xbt/src/mempool/processor.rs:1538-1608 | Counters, numbering and unbound placing of one inscription as specified. |
| Inscriptions.Indexer.UpdateAll | services/compressor-xbt/src/mempool/processor.rs:1256-1278 | The same for all located inscriptions in order. |
| Inscriptions.Indexer.GatherInput | services/compressor-xbt/src/mempool/processor.rs:1035-1150 | The flotsam of one input, entry by entry: every inscription it holds at its offset behind the sats of the inputs before, then every envelope of it at its pointer or at the first sat of the input, with its flags; and the envelope it stops at. |
| Inscriptions.Indexer.Gather | services/compressor-xbt/src/mempool/processor.rs:1008-1151 | All flotsam of the inputs, one input after the other, and the total input value. |
| Inscriptions.Indexer.Retarget | services/compressor-xbt/src/mempool/processor.rs:1234-1262 | The loop that looks pointers up again gives every located inscription its specified target. |
| Inscriptions.Indexer.IndexInscriptions | services/compressor-xbt/src/mempool/processor.rs:971-1321 | The whole movement, counters, carried flotsam and reward, equals the specification whose way from inputs to outputs `Inscriptions.InputToOutput` and `Inscriptions.RevealToOutput` state. |
| Brc20.DeployFits | services/compressor-xbt/src/storage/inscriptions/brc20.rs:72-170 | A deploy that parses has a positive maximum that fits in 128 bits and at most 18 decimals. |
| Brc20.DeploysExactlyIf | services/compressor-xbt/src/mempool/processor.rs:1375-1395 | A deploy message sets exactly the terms it asks for if and only if the ticker is new and tick, decimals, maximum and limit are well-formed; otherwise nothing changes. |
| Brc20.MintsExactlyIf | services/compressor-xbt/src/mempool/processor.rs:1404-1454 | A mint message raises the supply if and only if the ticker is deployed and not minted out, the amount is positive and within the limit, a self-mint has the deploy inscription as a parent and there is a receiver, who gets exactly what is added; otherwise nothing changes. |
| Brc20.LocksExactlyIf | services/compressor-xbt/src/mempool/processor.rs:1462-1506 | A transfer inscription locks its amount if and only if the ticker is deployed, the amount is positive and the balance of the receiver covers it; the balance falls by it, and otherwise nothing changes. |
| Brc20.MintClips | services/compressor-xbt/src/mempool/processor.rs:1404-1454 | A mint takes the supply to at most the maximum and credits exactly the receiver with exactly what it adds. |
| Brc20.HandleConserves | services/compressor-xbt/src/mempool/processor.rs:1365-1508 | Every message changes supply by what it changes balances plus newly locked amounts, ticker by ticker. |
| Brc20.CreditedOnce | services/compressor-xbt/src/mempool/processor.rs:1283-1313 | Ticker by ticker, the balances grow by exactly what the inputs had locked. |
| Brc20.CreditedTo | services/compressor-xbt/src/mempool/processor.rs:1326-1362 | For each ticker and script: the balance after redeeming is the old one plus the amounts of exactly those spent transfers that land on an output with that script, or land on none and were held by an input of that script. |
| Brc20.LedgerHandles | services/compressor-xbt/src/mempool/processor.rs:1364-1508 | After redeeming, exactly the messages of the envelopes bound to a sat are handled, in the order of the envelopes, each for the script its inscription lands with; every inscription of the transaction may be the parent of a self-mint. |
| Brc20.LandedAre | services/compressor-xbt/src/mempool/processor.rs:1256-1262 | An output is recorded with exactly the inscriptions that land on it, each on the sat it lands on. |
| Brc20.LedgerConserved | services/compressor-xbt/src/mempool/processor.rs:1326-1508 | For each ticker and transaction: new supply + old balances + locked in inputs = old supply + new balances + locked in outputs. |
| Brc20.LedgerProcessor.CollectUnused | services/compressor-xbt/src/mempool/processor.rs:1035-1059 | The unused transfers of the inputs, with their senders. |
| Brc20.LedgerProcessor.RedeemMoves | services/compressor-xbt/src/mempool/processor.rs:1326-1362 | The loop over outgoing inscriptions credits exactly the specified moves, in order, and logs them. |
| Brc20.LedgerProcessor.MintTo | services/compressor-xbt/src/mempool/processor.rs:1404-1454 | The mint branch ends in the specified books and keeps every supply within its maximum. |
| Brc20.LedgerProcessor.LockFor | services/compressor-xbt/src/mempool/processor.rs:1462-1506 | The transfer branch ends in the books that `Brc20.LocksExactlyIf` is about. |
| Brc20.LedgerProcessor.HandleOne | services/compressor-xbt/src/mempool/processor.rs:1365-1508 | One message ends in the specified books: a deploy of a new ticker, a mint, a transfer, or no change. |
| Brc20.LedgerProcessor.HandleMessages | services/compressor-xbt/src/mempool/processor.rs:1364-1508 | The message loop ends in the books of handling all messages in order. |
| Brc20.LedgerProcessor.Index | services/compressor-xbt/src/mempool/processor.rs:1283-1508 | All BRC-20 effects of a transaction equal the specification: redeemed transfers as `Brc20.CreditedTo` states, then the messages as `Brc20.LedgerHandles` states. |
| Supply.RuneEntryStep | services/compressor-xbt/src/mempool/processor.rs:552-716 | Whatever a transaction spends, the account of every rune stays: held + burned = premine + mints x amount, mints <= cap, and nothing before the etching. |
| Supply.BalancedStep | services/compressor-xbt/src/mempool/processor.rs:971-1508 | Every transaction, ordinary or coinbase, with whatever is carried to the coinbase, keeps the BRC-20 books and every inscription held or carried at most once, on a sat of its output. |
| Supply.SupplyStep | services/compressor-xbt/src/mempool/processor.rs:1326-1508 | Minted supply stays the sum of balances and of amounts locked in unspent transfer inscriptions. |
| Supply.IdsStep | services/compressor-xbt/src/mempool/processor.rs:971-1321 | Held and carried together, an inscription grows by one at most, and only in the transaction that reveals it. |
| Roll.RuneStep | services/compressor-xbt/src/mempool/roll.rs:698-716 | One transaction of the worker keeps the account of every rune. |
| Roll.LedgerStep | services/compressor-xbt/src/mempool/roll.rs:720-809 | One transaction of the worker keeps the BRC-20 books and leaves every inscription held at most once, on a sat of its output. |
| Roll.RunTxs | services/compressor-xbt/src/mempool/roll.rs:683-810 | Over every run of transactions from balanced books the BRC-20 books stay balanced and within the maximum. |
| Roll.RunBlocks | services/compressor-xbt/src/mempool/roll.rs:632-842 | ... and over every run of estimated blocks. |
| Roll.RunKeepsRunes | services/compressor-xbt/src/mempool/roll.rs:632-842 | Over every run of estimated blocks from balanced books the account of every rune stays balanced. |
| Roll.RuneSupplyCapped | services/compressor-xbt/src/mempool/processor.rs:754-793 | So no rune ever exceeds premine + cap x amount. |
| Roll.Brc20SupplyCapped | services/compressor-xbt/src/mempool/processor.rs:1404-1448 | So no balance exceeds the supply, nor the supply the maximum, and neither subtraction underflows. |
| Confirmed.TurnsKeepBooks | services/compressor-xbt/src/storage/txos/mod.rs:192-303 | The transactions after the coinbase keep the books, the runes of the coinbase and the inscriptions carried to it included. |
| Confirmed.BlockKeepsBooks | services/compressor-xbt/src/storage/txos/mod.rs:60-404 | A processed block keeps the books of the index: every rune accounted for, BRC-20 supply equal to balances plus locked amounts, every inscription held at most once; outputs below the first indexed heights hold nothing. |
| Confirmed.BlockCommits | services/compressor-xbt/src/storage/mod.rs:454-502 | The outputs stored for a block are those of its transactions in order and then those of the coinbase. |
| Audit.ChainKeepsBooks | services/compressor-xbt/src/storage/mod.rs:360-614 | Any number of confirmed blocks keeps the books. |
| Audit.EmptyBooks | services/compressor-xbt/src/storage/runes/mod.rs:18-56 | The books of a new database, with the hard-coded first rune, balance. |
| Audit.ChainFromEmpty | services/compressor-xbt/src/storage/mod.rs:360-614 | So they balance after every chain of blocks from the first one on. |
| Sats.BlockSats | services/compressor-xbt/src/storage/mod.rs:360-614 | The sats of the unspent outputs and the lost ones together grow with every block by exactly its subsidy. |
| Sats.ChainSats | services/compressor-xbt/src/storage/mod.rs:360-614 | So they do over any number of blocks. |
| Sats.FullChainSats | services/compressor-xbt/src/storage/mod.rs:360-614 | Where inscriptions are followed from the first block on, a chain of the first n blocks accounts for exactly the sats that are numbered below the first one of block n. |
| Audit.RunFromEmpty | services/compressor-xbt/src/storage/mod.rs:220-245 | A new database can begin a run of blocks and rollbacks that keeps them. |
| Audit.BooksSame | services/compressor-xbt/src/storage/mod.rs:671-880 | Tables that agree up to absent amounts have the same books. |
| Audit.StateBooks | services/compressor-xbt/src/sync/roll.rs:116-165 | In every state of every run of blocks and rollbacks the books balance. |
| Audit.RunKeepsBooks | services/compressor-xbt/src/sync/roll.rs:116-165 | Every run of blocks and rollbacks, in any order, failing or not, keeps the books. |
| Audit.MempoolKeepsBooks | services/compressor-xbt/src/mempool/roll.rs:562-842 | So the worker, started on any such state, starts from balanced books, and its runs keep them. |
| Roll.CreateOutputs | services/compressor-xbt/src/mempool/roll.rs:753-809 | The output loop stores every output with its runes, inscriptions and the new transfers it holds. |
| Roll.Worker.ProcessTx | services/compressor-xbt/src/mempool/roll.rs:696-749 | Indexing runes, inscriptions and BRC-20 of one transaction in turn has the specified effects on all three. |
| Roll.SatFollowed | services/compressor-xbt/src/mempool/roll.rs:683-810 | An inscription on sat o of an unspent output that a transaction spends is afterwards recorded with the new output, and on the sat of it, that lies as far behind the first output's first sat as it lay behind the first input's. |
| Roll.MissingIsFirst | services/compressor-xbt/src/mempool/roll.rs:683-810 | The input reported missing is the first that is. |
| Roll.Worker.IndexTx | services/compressor-xbt/src/mempool/roll.rs:683-810 | One turn of the inner loop: the specified step, or the first missing input. |
| Roll.MissingFails | services/compressor-xbt/src/mempool/roll.rs:651-679 | A block can only be folded if every input that it does not make itself is unspent before it. |
| Roll.Worker.LookUp | services/compressor-xbt/src/mempool/roll.rs:666-678 | Looking inputs up in any order finds all of them or one that is missing. |
| Roll.Worker.RunBlock | services/compressor-xbt/src/mempool/roll.rs:632-842 | The block ends in the state of the specified run or fails exactly when that does; it reports a missing input that the block does not make itself if there is one, otherwise the first missing one. |
| Roll.Worker.Execute | services/compressor-xbt/src/mempool/roll.rs:632-842 | The outer loop ends in the state of the specified run or fails exactly when that does, reporting an input of the first failing block. |
| Roll.Worker.RemoveInputs | services/compressor-xbt/src/mempool/roll.rs:812-820 | Spent outputs are gone from the unspent ones. |
| Undo.LedgerUndone | services/compressor-xbt/src/storage/mod.rs:697-794 | Undoing the logged BRC-20 actions of a transaction, newest first, restores terms, supplies and balances (absent = 0). |
| Undo.RunesUndone | services/compressor-xbt/src/storage/mod.rs:810-855 | Undoing a transaction restores names, terms and mint counts and never underflows; exactly a rune etched without a name keeps its terms and its reserved name, and no other entry differs. |
| Undo.RestoreUndoes | services/compressor-xbt/src/storage/mod.rs:856-877 | Undoing the transactions of a block, last first, restores the unspent outputs, those spent inside the block included, and finds a stored body for every input. |
| ChainDb.BlockChains | services/compressor-xbt/src/storage/txos/mod.rs:79-153 | Resolving a block in one batch agrees with spending output by output: every input is there, with the body that is kept, when its turn comes. |
| ChainDb.BlockLedgerUndone | services/compressor-xbt/src/storage/txos/mod.rs:192-336 | The log of a whole block undoes all its BRC-20 actions. |
| ChainDb.BlockRunesUndone | services/compressor-xbt/src/storage/mod.rs:810-855 | With the kept flags the rune tables are restored, entry by entry, but for the terms and reserved names of runes etched without a name. |
| ChainDb.MoveCursed | services/compressor-xbt/src/storage/txos/mod.rs:305-336 | Only inscriptions revealed in the block are cursed or vindicated, also when the coinbase settles what others carried. |
| ChainDb.BlockCursedUndone | services/compressor-xbt/src/storage/mod.rs:800-808 | So deleting the ids of the block restores the cursed set. |
| ChainDb.BlockUndone | services/compressor-xbt/src/storage/mod.rs:671-880 | Undoing a block with what was kept for it restores every table, except that exactly the runes it etched without a name keep their terms and reserved names. |
| Storage.ApplyUndone | services/compressor-xbt/src/storage/mod.rs:652-881 | One block applied and undone leaves blocks, undo data and tables as they were. |
| Storage.ApplyAllUndone | services/compressor-xbt/src/storage/mod.rs:652-881 | Any number of blocks applied and undone newest first, also from a state that already agrees only up to zeros. |
| Storage.RollbackRestores | services/compressor-xbt/src/storage/mod.rs:616-907 | Rolling back to the block that was newest before any list of blocks restores everything but the rune tables, and these if and only if no block etched a rune without a name. |
| Storage.UnnamedEtchingStays | services/compressor-xbt/src/storage/mod.rs:815-828 | A block with such an etching, rolled back without an error, whose rune keeps its terms. |
| Reorg.ProcessSame | services/compressor-xbt/src/storage/txos/mod.rs:60-404 | Processing a block depends on absent and zero amounts in the same way: tables that agree give the same bodies, logs and flags, and agree afterwards. |
| Reorg.ApplySame | services/compressor-xbt/src/storage/mod.rs:360-614 | Applying a block to databases that agree succeeds or fails alike and they agree afterwards. |
| Reorg.ReorgTransparent | services/compressor-xbt/src/storage/mod.rs:360-907 | Applying an abandoned branch, rolling it back and applying another gives the result of applying the other alone, for branches of any length. |
| Wal.ApplyInStep | services/compressor-xbt/src/storage/mod.rs:533-558 | Applying a block adds one entry to the journal and keeps the log in step with it: following the whole journal gives the current chain, the log is a final part of the journal, and only entries below the pruning limit are missing. |
| Wal.ReaderCatchesUp | services/compressor-xbt/src/storage/mutable/mod.rs:86-108 | A reader that has followed the journal to any entry still in the log gets the current chain from the log. |
| Wal.PruneKeepsEnd | services/compressor-xbt/src/storage/mutable/mod.rs:86-108 | Pruning leaves exactly the entries from the first one on whose height is not below the limit. |
| Wal.PruneInStep | services/compressor-xbt/src/storage/mutable/mod.rs:86-108 | Pruning up to the limit keeps the log in step with the unpruned journal. |
| Wal.LogIsShort | services/compressor-xbt/src/storage/mutable/mod.rs:86-108 | After a block in mutable mode the log ends with that block and begins with an entry not further below it than the confirmations asked for. |
| Wal.RollbackInStep | services/compressor-xbt/src/storage/mod.rs:652-902 | A rollback adds the undone blocks, newest first, and the block it stops at, and keeps the log in step. |
| Wal.ApplyTip | services/compressor-xbt/src/storage/mod.rs:608-609 | After an apply the remembered hash is that of the newest block. |
| Wal.RollbackTip | services/compressor-xbt/src/storage/mod.rs:885-902 | After a rollback the remembered hash is that of the newest block, and exactly the blocks above the point are gone. |
| Sync.EventKeeps | services/compressor-xbt/src/sync/roll.rs:116-165 | Every block or rollback, failing or not, keeps: the database is what the surviving blocks applied in order give, and in mutable mode the log is in step with the journal, which grows by exactly what the event writes. Blocks may etch runes without a name as long as they are not rolled back. |
| Sync.Run | services/compressor-xbt/src/sync/roll.rs:116-165 | The same over every run of events, from any database, an empty one too. Mutable mode is never left, and the journal opened at the switch keeps its first entry and its first chain and only grows. |
| Sync.RunLatches | services/compressor-xbt/src/sync/roll.rs:116-165 | A run is in mutable mode exactly from the first event on that is fewer blocks below the tip than the confirmations asked for. |
| Sync.RunBegins | services/compressor-xbt/src/storage/mod.rs:220-245 | A database that has just been opened, empty or not, can begin such a run: its remembered hash is the top and the log ends below the next number. |
| Sync.LogKept | services/compressor-xbt/src/sync/roll.rs:119-156 | The switch to mutable mode opens a journal at the chain of that moment, and every event after it keeps the log in step with that journal. |
| Replica.ApplySoundBack | services/compressor-xbt/src/storage/mod.rs:360-614 | An applied block can be undone to a sound ledger, whatever it etches. |
| Replica.UndoSoundBack | services/compressor-xbt/src/storage/mod.rs:652-881 | So every rollback meets sound ledgers only. |
| Replica.EventFollowed | services/compressor-xbt/src/sync/roll.rs:116-165 | Every event keeps the log in step; all that is asked is that a block comes above all others. |
| Replica.LogRun | services/compressor-xbt/src/sync/roll.rs:116-165 | Over every run of blocks and rollbacks, named etchings or not and however far back, the log is in step with one growing journal from the switch on. |
| Replica.FollowBegins | services/compressor-xbt/src/storage/mod.rs:220-245 | Such a run can begin with an empty database or with any opened one whose blocks can be undone soundly. |
| Database.ProcessRest | services/compressor-xbt/src/storage/txos/mod.rs:192-303 | The loop over the transactions after the coinbase ends as the specified turns do, error included. |
| Database.Process | services/compressor-xbt/src/storage/txos/mod.rs:60-404 | Coinbase runes, the other transactions, then the coinbase's inscriptions. |
| Database.CommitOutputs | services/compressor-xbt/src/storage/mod.rs:455-495 | The output loop inserts exactly the bodies of the outputs of the transaction. |
| Database.DeleteInputs | services/compressor-xbt/src/storage/mod.rs:497-501 | The input loop deletes exactly the inputs. |
| Database.CommitAll | services/compressor-xbt/src/storage/mod.rs:454-502 | Outputs inserted and inputs deleted transaction by transaction. |
| Database.BlockMakes | services/compressor-xbt/src/storage/mod.rs:463-467 | Every output of a processed block has a body, so storing it never reports a missing one. |
| Database.UndoLedger | services/compressor-xbt/src/storage/mod.rs:697-794 | The reverse loop undoes exactly the logged actions, newest first. |
| Database.ReinsertInputs | services/compressor-xbt/src/storage/mod.rs:856-867 | The loop that puts inputs back, or stops at the first body that is missing. |
| Database.DeleteOutputs | services/compressor-xbt/src/storage/mod.rs:869-875 | The loop deletes exactly the outputs of the transaction. |
| Database.ForgetRevealed | services/compressor-xbt/src/storage/mod.rs:800-808 | The loop deletes exactly the ids the transaction revealed. |
| Database.UndoTxs | services/compressor-xbt/src/storage/mod.rs:798-876 | The reverse loop over the transactions ends as undoing the tables one by one does, or fails when one of them does. |
| Database.UndoOne | services/compressor-xbt/src/storage/mod.rs:671-880 | Counters, log, transactions and cursed ids of one block are undone as specified. |
| Database.UndoNewest | services/compressor-xbt/src/storage/mod.rs:652-881 | A missing or foreign undo record is an error; otherwise the block is undone and logged as specified. |
| Database.ChainDatabase.Apply | services/compressor-xbt/src/storage/mod.rs:360-614 | The fields after applying a block are those specified; after an error nothing has changed. |
| Database.ChainDatabase.Rollback | services/compressor-xbt/src/storage/mod.rs:616-907 | The fields after a rollback are those specified; after an error nothing has changed. |
| Actions.MergeAccepts | services/polyphony-xbt/src/model.rs:363-556 | A pair is accepted if and only if both overwrite (set, delete, insert), both count and do not lower in both ways, both are the same permanent write, or a delete takes back a key set once; it leaves nothing exactly where one takes the other back. |
| Actions.ListAccepted | services/polyphony-xbt/src/model.rs:363-556 | A list of actions that merge with each other is accepted as a whole. |
| Actions.MergeLaw | services/polyphony-xbt/src/model.rs:363-556 | For every accepted pair and every stored value: executing the merged action differs from executing both if and only if a zero is lost, a number is cut off at zero or passes 128 bits, or a key is set twice. |
| Actions.MergeFits | services/polyphony-xbt/src/model.rs:363-556 | Of actions that meet their own terms only a zero can be lost, and the merged action meets its terms too. |
| Actions.CutOffMatters | services/polyphony-xbt/src/model.rs:395-420 | Lowering 2 by 5 and raising it by 3 leaves 3; the merged action deletes the key. |
| Actions.MergeAllLaw | services/polyphony-xbt/src/model.rs:363-556 | For every accepted list and every stored value: the folded action equals the list at every point of it if and only if no step of the merge differs. |
| Actions.FinalLaw | services/polyphony-xbt/src/model.rs:363-556 | For actions that meet their terms the final result equals that of the list if and only if neither a stored zero vanished with only inserts after it, nor a number was lowered to nothing and then only raised by zero; both are told by the actions and the stored value. |
| Actions.AmountLaw | services/polyphony-xbt/src/model.rs:363-556 | Counters fold to the right amount if and only if the total sinks nowhere further below zero than at the end. |
| Actions.PositiveIsExact | services/polyphony-xbt/src/model.rs:363-556 | Increments and decrements by more than zero, on anything but a stored zero, fold exactly. |
| Actions.NoDecrementIsExact | services/polyphony-xbt/src/model.rs:363-556 | Lists without the deleting decrement fold exactly, on presence too. |
| Actions.MergeAllUpToZero | services/polyphony-xbt/src/model.rs:363-556 | Without inserts every accepted list folds correctly up to stored zeros. |
| Actions.LostZeroMatters | services/polyphony-xbt/src/model.rs:370-394 | Increment 5, decrement 5, insert on a stored zero: the folded list keeps the zero, one by one the insert wins. |
| Actions.DiffLaw | services/polyphony-xbt/src/model.rs:600-775 | For every stored value, executing A and then the difference gives B if and only if no insert comes too late, no zero is dropped, and no number is cut off at zero or passes 128 bits. |
| Actions.DiffFits | services/polyphony-xbt/src/model.rs:600-775 | Differences of counters that meet their terms never overflow, and only an insert or a zero can make them fail. |
| Actions.InverseLaw | services/polyphony-xbt/src/storage/tikv.rs:3379-3560 | The inverse kept for an executed action restores the value it found if and only if the action is not permanent and set no key twice. |
| Merger.PendingIsMerge | services/polyphony-xbt/src/storage/action_merger.rs:19-29 | Keys do not interfere: what is pending for a key is the fold of its actions, and a batch panics exactly when one key does. |
| Merger.BatchLaw | services/polyphony-xbt/src/storage/action_merger.rs:19-37 | A batch merged per key and executed in any order of the keys leaves the store of executing every action in turn, if and only if on no key a zero vanishes or is missed. |
| Merger.CleanBatch | services/polyphony-xbt/src/storage/action_merger.rs:19-37 | Whatever the actions, it does when the merge is right at every point of every key. |
| Merger.BatchUndone | services/polyphony-xbt/src/storage/tikv.rs:3379-3560 | A batch and then its inverses, each in any order of keys, restore the store unless an action is irreversible. |
| Merger.ActionMerger.PushActions | services/polyphony-xbt/src/storage/action_merger.rs:19-29 | The loop over a batch merges into the map of pending actions, or stops where the source panics. |
| Points.Plus | services/polyphony-xbt/src/reducers/mod.rs:406-424 | Adding deltas adds their signed values and fails exactly when the sum does not fit. |
| Points.Minus | services/polyphony-xbt/src/reducers/mod.rs:426-474 | Subtracting deltas subtracts their signed values and fails exactly when the difference does not fit. |
| Points.Negate | services/polyphony-xbt/src/reducers/mod.rs:476-487 | Negation negates. |
| Points.CombinedValue | services/polyphony-xbt/src/model.rs:557-577 | At every point, merged lists add and differences subtract. |
| Points.DifferenceLaw | services/polyphony-xbt/src/model.rs:776-808 | Merging a list with its difference to another has the other's delta at every point, and overflows only if the difference does. |
| Points.AscendingUnique | services/polyphony-xbt/src/model.rs:573-576 | The ascending list is determined by its entries, so the order in which the hash map is walked does not matter. |
| Points.WalkPrev | services/polyphony-xbt/src/model.rs:560-571 | The loop over the first list, in any order. |
| Points.AppendRest | services/polyphony-xbt/src/model.rs:573-573 | What is left of the second list is appended, each point once. |
| Points.Combine | services/polyphony-xbt/src/model.rs:557-577 | The outcome is ascending, without repetition, and holds exactly the combined deltas; it fails exactly on overflow. |
| Points.WriteAll | services/polyphony-xbt/src/storage/tikv.rs:3333-3373 | The writing loop ends with the specified total and points, or with the overflow. |
| Points.WriteLaw | services/polyphony-xbt/src/storage/tikv.rs:3333-3373 | Executing a list overflows exactly when the total that stops at zero exceeds 128 bits; otherwise it leaves that total, and at each point the total up to it. |
| Saturation.LevelStep | services/polyphony-xbt/src/storage/tikv.rs:3345-3361 | The total that stops at zero is the plain sum plus how far it would have sunk at its lowest. |
| Points.MergedWriteLaw | services/polyphony-xbt/src/storage/tikv.rs:3333-3373 | Executing two lists or their merge, for every total: each overflows exactly when its total exceeds 128 bits; the totals agree if and only if sinking leaves the same over both ways, and the points if and only if the lists are in order. |
| Points.MergeSinks | services/polyphony-xbt/src/storage/tikv.rs:3333-3373 | Lists that do not sink one after the other leave the total of their merge if and only if the merge does not sink. |
| Points.InOrderWithoutSinking | services/polyphony-xbt/src/storage/tikv.rs:3333-3373 | Where nothing sinks, in order means: all the first list counts lies at or before every point of the second, and nothing the second counts before other points of the first. |
| Points.LaterIsExact | services/polyphony-xbt/src/storage/tikv.rs:3333-3373 | Lists in chain order, every point of the first before every point of the second, always merge exactly, overflow and sinking included. |
| Points.OutOfOrder | services/polyphony-xbt/src/storage/tikv.rs:3333-3373 | 5 at point 2 and then 3 at point 1 leave 8 more at point 1; executing their merge leaves 3 more there. |
| Points.MergeLeavesOver | services/polyphony-xbt/src/storage/tikv.rs:3333-3373 | 5 at point 2 and then 5 less at point 1 leave nothing; executing their merge leaves 5. |
| Points.DifferenceWriteLaw | services/polyphony-xbt/src/storage/tikv.rs:3333-3373 | Executing a list and then its difference to another, or the other alone, for every total: each overflows exactly when its total exceeds 128 bits; the totals agree if and only if sinking leaves the same over both ways, and the points if and only if the list is correctable. |
| Points.CorrectionSinks | services/polyphony-xbt/src/storage/tikv.rs:3333-3373 | Where neither list sinks alone, the totals agree if and only if the difference does not sink. |
| Points.CorrectableWithoutSinking | services/polyphony-xbt/src/storage/tikv.rs:3333-3373 | Where nothing sinks, correctable means: all the first list counts lies at or before every point of the other, and its other points already hold what is written. |
| Points.SamePointCorrectable | services/polyphony-xbt/src/storage/tikv.rs:3333-3373 | Lists of one and the same point agree exactly if the first does not sink or the second is not above it. |
| Points.NotCorrected | services/polyphony-xbt/src/storage/tikv.rs:3333-3373 | 10 more at point 1 and 2 less at point 2, corrected to 1 more at point 1 and 6 more at point 3, leaves 1 less at point 1 and a value at point 2. |
| Points.CorrectionLeavesOver | services/polyphony-xbt/src/storage/tikv.rs:3333-3373 | 10 received and spent, corrected to 1 received later, leaves a total of 11. |
| Points.PointInverseLaw | services/polyphony-xbt/src/storage/tikv.rs:3562-3612 | The inverse of an executed list restores what was found if and only if none of its points had a value. |
| Refresh.TurnLaw | services/polyphony-xbt/src/storage/tikv.rs:2945-3100 | On every key a refresh stores what it would alone store on the chain if and only if the difference does not fail, and can be rolled back if and only if an inverse was kept or nothing changed, or the new action can be undone. |
| Refresh.RefreshesLaw | services/polyphony-xbt/src/storage/tikv.rs:2945-3115 | Over any number of refreshes all of them do, if and only if no difference fails and every inverse that is needed is kept. |
| Refresh.InverseForgotten | services/polyphony-xbt/src/storage/tikv.rs:3065-3098 | A refresh that sets a key to the value it has, and the next one that sets another: no inverse is kept, and rolling back leaves the other value. |
| Refresh.RefreshedStore | services/polyphony-xbt/src/storage/tikv.rs:2945-3115 | Where every key is good, the store is the chain's with the last refresh executed on it, and the inverses give the chain's store back. |
| Refresh.Refresher.Differences | services/polyphony-xbt/src/storage/tikv.rs:2980-2999 | The loop takes the difference on exactly the keys of both refreshes, or stops where one panics. |
| Refresh.Refresher.UndoOthers | services/polyphony-xbt/src/storage/tikv.rs:3001-3052 | Exactly the other keys of the last refresh are undone, and their inverses removed. |
| Refresh.Refresher.ApplyOne | services/polyphony-xbt/src/storage/tikv.rs:3092-3105 | A difference is applied without, any other action with its inverse. |
| Refresh.Refresher.Apply | services/polyphony-xbt/src/storage/tikv.rs:3065-3105 | The loop does so for every key of the refresh. |
| Refresh.Refresher.Refresh | services/polyphony-xbt/src/storage/tikv.rs:2933-3115 | A refresh turns every key as specified, and fails exactly when one does. |
| Codec.EncodeVarUInt | crates/timbre-xbt/src/encdec/encode.rs:55-73 | The loop to the first byte that is not zero gives a length byte and the significant bytes. |
| Codec.UIntRoundTrip | crates/timbre-xbt/src/encdec/decode.rs:115-141 | Integers of every width decode to themselves and leave what follows. |
| Codec.RoundTrip | crates/timbre-xbt/src/encdec/decode.rs:26-229 | For every schema and value, decode(encode(v) + rest) = (v, rest). |
| Codec.ManyRoundTrip | crates/timbre-xbt/src/encdec/decode.rs:192-229 | The same for counted sequences of any items. |
| Codec.PrefixFree | crates/timbre-xbt/src/encdec/encode.rs:14-147 | No encoding is a proper beginning of another and different values are encoded differently. |
| Codec.DecodeItems | crates/timbre-xbt/src/encdec/decode.rs:192-206 | The list loop decodes item by item or fails with the first error. |
| Codec.DecodeEntries | crates/timbre-xbt/src/encdec/decode.rs:208-229 | The map loop, a repeated key keeping its place. |
| Codec.DecodeValue | crates/timbre-xbt/src/encdec/decode.rs:26-229 | Decoding with loops equals the specified decoder. |
| Keys.PrefixKeyRange | crates/timbre-xbt/src/lib.rs:202-217 | The backwards loop computes the end of the range of a prefix. |
| Keys.PrefixRangeLaw | crates/timbre-xbt/src/lib.rs:202-217 | The range of a prefix holds exactly its extensions, an empty end being unbounded. |
| Keys.UIntOrder | crates/timbre-xbt/src/encdec/encode.rs:55-73 | Smaller integers are encoded strictly before, whatever follows. |
| Keys.OrderKept | crates/timbre-xbt/src/encdec/encode.rs:14-147 | What precedes field by field is encoded before, whatever follows. |
| Keys.FieldOrder | crates/timbre-xbt/src/encdec/encode.rs:14-147 | Keys sort by their encoded fields first and by the rest only if these are equal: both directions. |
| Keys.QueryOnly | crates/timbre-xbt/src/reducers/mod.rs:80-146 | Whatever bytes are in the range built for a query begin with its namespace, the data tag, its reducer and its parameters. |
| Keys.QueryLaw | crates/timbre-xbt/src/reducers/mod.rs:80-146 | A data key of any namespace and reducer is in the range if and only if namespace, reducer and parameters are the query's and its height is within the bounds. |
| Keys.WithinBounds | services/mapi-xbt/src/util.rs:117-135 | With both bounds that is from <= height <= to, except for the largest 64-bit height, which no upper bound includes. |
| Scan.SelectIsRange | services/mapi-xbt/src/tikv/scanner.rs:179-188 | Reading a range of a sorted snapshot gives exactly the keys in it. |
| Scan.ReadOn | services/mapi-xbt/src/tikv/scanner.rs:194-208 | The range left after the last key read, ascending or descending, holds exactly the entries after it. |
| Scan.Retain | services/mapi-xbt/src/tikv/scanner.rs:211-213 | The filter keeps the entries at exactly the indices it accepts, in increasing order. |
| Scan.AnswerDelivered | services/mapi-xbt/src/tikv/scanner.rs:155-263 | The answer, told by indices: the decoding of the first `count` entries that the filter accepts, in order, or the key of the first of them that cannot be decoded. |
| Scan.DecodeBatch | services/mapi-xbt/src/tikv/scanner.rs:215-240 | The decoding loop stops at the first malformed entry or when there are enough. |
| Scan.Execute | services/mapi-xbt/src/tikv/scanner.rs:155-263 | For every snapshot, range, order, filter and count and any failures at sizes above 1 the scan delivers, told by indices, the decoding of the first `count` accepted entries of the range in order, or the first malformed key among them; with a failure at size 1 it is the answer for a prefix of the entries, and for a count cut to zero nothing. |
| Scan.CountIsCut | services/mapi-xbt/src/tikv/scanner.rs:169-173 | A count of 2^32 is cut to a batch size of zero and finds nothing. |
| Scan.PageWithin | services/mapi-xbt/src/util.rs:160-200 | A page never leaves the range it was asked for, whatever the cursor. |
| Scan.PagesConcatenate | services/mapi-xbt/src/util.rs:135-200 | Pages of any valid size, in either order, resumed from the last key, concatenate to the whole range without gap or repetition. |
| Scan.AnswerIsFirst | services/mapi-xbt/src/tikv/scanner.rs:155-263 | The answer to a page is the decoded first entries of its range. |
| Scan.ReadPage | services/mapi-xbt/src/util.rs:135-200 | A request is refused or scanned over the range left by its cursor; its count is never cut, so the scan loop gives the specified answer. |
| Scan.AnswersConcatenate | services/mapi-xbt/src/util.rs:135-200 | The answers, too, concatenate to the decoded range, when entries can be decoded and items give their keys back. |
| Scan.CursorAccepted | services/mapi-xbt/src/util.rs:168-184 | The last key of a page is accepted as a cursor. |
| Scan.ReducerRangeBounded | crates/timbre-xbt/src/reducers/mod.rs:112-146 | The range of a reducer is bounded, so the cursor check never meets an empty end. |
| Cache.LastWriteIsRead | services/compressor-xbt/src/mempool/processor.rs:271-310 | A lookup finds what was set last, and the snapshot where nothing was set. |
| Cache.ReadAllAgrees | services/compressor-xbt/src/mempool/processor.rs:189-267 | The batch agrees with reading key by key. |
| Cache.ReadAllFails | services/compressor-xbt/src/mempool/processor.rs:189-267 | It fails exactly when some key cannot be found and names the first such key. |
| Cache.Processor.constructor | services/compressor-xbt/src/mempool/processor.rs:103-139 | A cache of another tip is dropped, one of the same tip is read from, and nothing is written yet. |
| Cache.Processor.Write | services/compressor-xbt/src/mempool/processor.rs:271-273 | A write goes to the overlay and to neither cache. |
| Cache.Processor.Get | services/compressor-xbt/src/mempool/processor.rs:153-187 | Overlay, then input cache, then snapshot: always what a processor without a cache reads. |
| Cache.Processor.Resolve | services/compressor-xbt/src/mempool/processor.rs:189-267 | The batch, in its two phases, equals reading all keys without a cache, error included. |
| Cache.Processor.Known | services/compressor-xbt/src/mempool/processor.rs:199-224 | The first phase reads what overlay and cache hold and leaves the rest, in order, to be fetched. |
| Cache.RunOps | services/compressor-xbt/src/mempool/roll.rs:632-842 | Whatever a client asks next, depending on the replies it got, it gets the replies it would get without a cache. |
| Cache.Worker.Execute | services/compressor-xbt/src/mempool/roll.rs:562-613 | An iteration replies what it would without a cache; a skipped one keeps the cache, a failed or aborted one loses it, and a cache that is left belongs to the iteration's tip and holds values of its snapshot only. |
| Cache.Worker.ExecuteAll | services/compressor-xbt/src/mempool/roll.rs:876-877 | The same over any sequence of iterations. |
| Ordinals.SplitLaw | services/compressor-xbt/src/ordinals.rs:66-82 | A split gives the first sats and the rest and fails exactly when one part would be empty. |
| Ordinals.OrdinalRanges.Take | services/compressor-xbt/src/ordinals.rs:105-127 | Taking n sats returns exactly the first n in order and leaves exactly the rest, never an empty or inverted range; it fails, emptying the queue, exactly when there are fewer. |
| Ordinals.NewCoinbaseOrds | services/compressor-xbt/src/ordinals.rs:33-52 | The accumulating loop gives the range of the height below 6,930,000 and an invalid range from there on. |
| Ordinals.SubsidyEnds | services/compressor-xbt/src/ordinals.rs:34-36 | There is a subsidy exactly below height 6,930,000. |
| Ordinals.CoinbasesTile | services/compressor-xbt/src/ordinals.rs:33-52 | Ranges are not empty, begin where the one before ended, and lie below 2,099,999,997,690,000. |
| Ordinals.SatHeight | services/compressor-xbt/src/ordinals.rs:33-52 | Every sat created so far belongs to some height ... |
| Ordinals.SatHeightUnique | services/compressor-xbt/src/ordinals.rs:33-52 | ... and to only one. |
| Unify.FindBestCommonBlock | services/mapi-xbt/src/tikv/unify.rs:13-70 | Returns a confirmed block of every instance with the greatest height among all such, of those the one that the first instance committed last, and None exactly if there is none. |
| Unify.OrderIrrelevant | services/mapi-xbt/src/tikv/unify.rs:13-20 | The height does not depend on which instance is looked at first. |
| Unify.SameBlock | services/mapi-xbt/src/tikv/unify.rs:13-30 | The block found from one instance is found from another if and only if that one, too, committed it last of the common blocks of its height; always where there is only one. |
| Unify.OrderDecides | services/mapi-xbt/src/tikv/unify.rs:13-30 | Two instances that committed two common blocks of one height in opposite order lead to different blocks. |
| Unify.LatestCommit | services/mapi-xbt/src/tikv/adapter.rs:347-359 | The later lookup in an instance succeeds and finds the latest commit of the block. |
| Unify.FindBestCommonMempoolView | services/mapi-xbt/src/tikv/unify.rs:72-127 | Returns the latest mempool view on a tip that every instance has, and None exactly if there is none. |
| Unify.AvailableViewsAre | services/mapi-xbt/src/tikv/unify.rs:78-92 | Sorting, deduplicating and reversing keeps exactly the views on the tip, latest first. |
| Unify.FindCommonBlockAtHeight | services/mapi-xbt/src/tikv/unify.rs:131-158 | Returns the first common block of the height in the order of the first instance, and None exactly if there is none. |
| Unify.ChoosePoint | services/mapi-xbt/src/tikv/adapter.rs:435-489 | Chooses the best common block, of its height the one the first instance committed last, with its latest common view; if and only if it has no common view, the first common block one below with its latest view; and if that has none either, the best block without a view. |

## Left out

- Network, RPC, gRPC, Redis, TiKV and RocksDB calls, retries, metrics and logging: stores are maps, failures are parameters.
- Script, runestone, envelope and JSON parsing, and the curse classification: their results are inputs of the model.
- Commitment to a rune name and the minimum name: one input flag says whether an explicit name that is not reserved is accepted.
- Parents, fees and the hidden flag of inscriptions, and the list of valid reinscriptions: reported, but no state depends on them.
- The `String` codec: no key or value schema uses it, and its decoder reads a fixed four bytes of a variable-length number.
- Base64 of cursors: pages are modelled on the decoded key.
- The in-memory resolver of the chain database and its byte count: a cache in front of the output table.
- The warning about the best height seen in `find_best_common_block`: it has no effect on the result.
- `execute_keys_only`, `execute_with_map` and the scan of plain outputs: the same loop with another payload.
- The other reducers and all endpoints: one pass emitting records; they would add only easy members.
- Netting of rune transactions per script hash, split commits and the persistence of the rollback buffer.
- Runes.RuneProcessor.CollectUnallocated: the runes of a stored output are a map; the source stores a list of pairs with distinct ids.
- Decimal.ParseNeverPanics: more than 18 decimals are outside its claim, as a deploy message cannot have them; for those the model allows a failure.
- ChainDb.BlockUndone: error kinds inside undoing a block (a missing body, a mint count of zero) are one failure in the model; both leave the database unchanged.
- Sync.Run: that the tables are those of the surviving blocks is claimed as long as no block is undone that etched a rune without a name, nor one that was there before the run; `Storage.RollbackRestores` says exactly what stays behind. The log is covered without either by `Replica.LogRun`.
- Actions.FinalLaw: lists that lower a number below zero are covered at every point by `Actions.MergeAllLaw` and in amount by `Actions.AmountLaw`, not in whether a zero is stored or absent at the end.
- Scan.Execute: with a failure at size 1 only a prefix is guaranteed, because the source then asks for zero entries and stops.
- Actions.DiffLaw: point aggregates have their own members in `Points`.
- Refresh.Refresher.Refresh: one value per key; point aggregates are covered by `Points.DifferenceWriteLaw` and `Points.PointInverseLaw`, and batches in parallel are one loop.
