# Two contracts that migrate without losing each other

A verified model of the `snip721-dealer` contract, which sells mints at fixed prices, and of the
`snip721-migratable` child it instantiates, running on a chain that refuses an execute message
whose code hash is out of date. Each contract stores the other's address and code hash; either can
be migrated at any time. The project proves that the two references stay right over whole
histories of transactions, and what follows from it for selling and minting.

Check it with `dafny verify dfyconfig.toml`.

## How it is built

| file | what it holds |
|---|---|
| `Types.dfy` | addresses and the host's partial canonicalize/humanize pair, coins, responses, JSON values, what the outside decides |
| `Wire.dfy` | the messages, their untagged encoding, the ordered-choice decoders, round trips |
| `Subscribers.dfy` | the subscriber list: register, follow a migrated subscriber, announce a migration |
| `Child.dfy`, `Dealer.dfy` | each contract: its handlers as functions on its storage, and a class whose methods write that storage step by step and are proved against those functions |
| `Rules.dfy` | each message on its own: exactly when it is accepted and what it changes and sends |
| `Chain.dfy` | contract table, code store, bank, depth-first dispatch of a transaction with attempts whose failure is caught, and why it ends |
| `Logs.dfy` | the log of a transaction: every step that took effect |
| `Conserved.dfy` | what every step keeps: coins, terms of sale, list capacities |
| `Administration.dfy` | who can change a child's administrator, minters and status |
| `Link.dfy`, `LinkKept.dfy` | the mutual link, what may be pending while it is incomplete, and that every step keeps this |
| `Sales.dfy` | one purchase, and what an orderly log of a dealer looks like |
| `Handshake.dfy` | the dispatch tree of a dealer's instantiation |
| `LinkRuns.dfy` | the link, the addressing of messages and the books along any run |
| `Runs.dfy` | histories of transactions; the main theorem |
| `Apart.dfy` | exactly which pairs stay linked over all histories |
| `Migration.dfy` | when a migration commits, to what, and that interleaving does not matter |
| `Books.dfy`, `Minting.dfy` | purchases, payments and tokens over every history; the right to mint |
| `Authority.dfy` | who can move a dealer's stored reference |

The chain keeps each contract's storage as a value and runs the handler functions on it; the
classes are the source's step-by-step code for the same handlers, proved to compute the same
storage and response.

A dealer and its child are recognised by the chain's own metadata: `Pair(w, d, c)` says that the
contract `c` runs the child's code and was created by the dealer `d`. `Linked` is the mutual link:
the dealer's stored reference and its first subscriber are the child's real address and hash, the
child's single subscriber is the dealer with its real hash, and the child has no free slot. The
dealer's side of it holds of every pair. The child's side can lag behind only when a foreign
contract is in charge of migrating the dealer (`InForeignHands`); `Holds` says both. `Apart.dfy`
says for which dealers that exception can ever matter: those whose migrator is a foreign contract,
or is an unused address at which the chain can still put one.

A transaction is a stack of tasks. Whatever the outside decides during it (addresses of new
contracts, answers of foreign contracts) is an `Oracle`, over which every theorem quantifies.
Foreign contracts may refuse, accept, call anything, pay, instantiate, migrate, and catch the
failure of any of these. A chain on which no dealer or child exists is linked, so the histories
start there or at any linked world. `Run` needs no fuel: a step uses up a foreign answer or leaves
only work of lower rank. The log of a run holds the steps that took effect and leaves out those of a
failed attempt; it leads from the first world to the last without a gap, so that facts about
single steps become facts about histories.

## What is assumed of code outside the repository

- The migratable-contract library is not part of this model's sources. Registering appends, and when
  a slot counter is stored it uses one slot and fails at zero; adding a subscriber directly appends
  without using a slot; following a migrated subscriber replaces every entry whose address is the
  sender, and leaves an absent list absent; a broadcast is one message per subscriber in order with
  no data. Registering does not look whether the address is already on the list; the parting
  histories of `Apart.dfy`, which subscribe a child at its dealer for a second time, depend on this,
  and the safe half of the condition does not. Its message enum has one variant besides subscribing;
  it is named `migrate` here after the schema, and both contracts refuse it.
- Of the SNIP-721 base only admin, minters, mint counter, tokens and status are kept. Its
  instantiation makes the admin the only minter; a mint needs normal status, a minter as sender and
  an unused token id, takes the decimal counter as id when none is given, and fails when the u32
  counter would overflow; administration needs the admin as sender.
- `addr_validate` accepts an address that is its own normal spelling. Senders and contract
  addresses are in normal spelling. Strings given in messages may be anything.
- A migration keeps address and storage, and the new code runs the same handlers. The chain does
  not hand out an address that is in use or has created a contract; it may hand out one that was
  named as a migrator beforehand. Contracts do not sign transactions.

## Where the code and its documentation differ

The repository's own README says a dealer's migration makes the child update its minters. The
listener only rewrites subscribers (`contracts/snip721-migratable/src/contract.rs:48-58`); since a
migration keeps the address, the dealer stays a minter without that. The model follows the code.
The schema files describe an older message set and were used for the SNIP-721 tags only.

## Model

| member | source | states |
|---|---|---|
| Runs.EveryHistoryLinks | contracts/snip721-dealer/src/contract.rs:115-245 | After every committed transaction of every history, with any number of pairs, any interleaving and foreign contracts that re-enter, migrate and catch failures as they like, every dealer holds its child's real address and hash in both copies and no dealer has two children; every pair whose dealer no foreign contract can migrate is mutually linked |
| Runs.GenesisIsLinked | README.md:10-11 | A chain without dealers and children is a start of such histories |
| Runs.CommitKeepsLinks | contracts/snip721-migratable/src/contract.rs:48-58 | One transaction, committed or rolled back, takes a linked world to a linked world |
| LinkRuns.RunKeepsInv | contracts/snip721-dealer/src/contract_migrate.rs:6-22 | In the middle of a transaction whatever a pair lacks is supplied by the very next task; this holds to the end of every run and of every attempt inside it |
| LinkRuns.AttemptKeepsInv | contracts/snip721-dealer/src/contract_migrate.rs:10-19 | Neither an attempt nor its undoing comes between a migration and the notice that is due |
| LinkKept.DealerStepHolds | contracts/snip721-dealer/src/contract.rs:115-133 | Any message delivered to the dealer of a pair leaves the link holding: it did, or the message is the notice that was due |
| LinkKept.ChildStepHolds | contracts/snip721-migratable/src/contract.rs:48-58 | The same for any message delivered to the child |
| LinkKept.MigrationKeepsInv | contracts/snip721-migratable/src/contract_migrate.rs:6-22 | A migration of either side, by an account at the start or by a foreign contract in the middle of a transaction, puts the notice to the other side next |
| LinkKept.BirthKeepsInv | contracts/snip721-dealer/src/contract.rs:77-85 | A dealer's request for its child introduces the new child to it, or over foreign code leaves it without a pair whatever that code's constructor does |
| Handshake.ReplyAdvances | contracts/snip721-dealer/src/contract.rs:197-245 | In any world, the reply gives the dealer both copies of the child's info and puts the subscription and the handover next |
| Handshake.SubscriptionLinks | contracts/snip721-dealer/src/contract.rs:220-230 | In any world, the subscription then cannot fail and completes the link |
| Apart.StaysLinkedIff | contracts/snip721-dealer/src/contract_migrate.rs:6-22 | Exact condition, over all histories: a pair stays linked if and only if the dealer's migrator neither is a foreign contract nor is an unused address at which one can still be put; for a dealer with no limit on its list whose subscribers can all be told, and an outside account that is not the migrator |
| Apart.OpenedStaysLinkedIff | contracts/snip721-dealer/src/contract.rs:25-86 | From the handshake on: a new pair stays linked over all histories if and only if the migrator named at instantiation is none, the signer, or an address that is no foreign contract and cannot become one |
| Apart.ForeignHandsPartThem | contracts/snip721-dealer/src/contract_migrate.rs:6-22 | If a foreign contract is the migrator, then whoever else is subscribed, as long as all can be told, two subscriptions and one call by any account end with the child holding a hash its dealer does not have: a notice answered by another migration, overwritten by a late duplicate |
| Apart.OutOfReachStaysLinked | contracts/snip721-dealer/src/contract.rs:115-245 | The safe half needs nothing but the condition on the migrator: any pair of a linked world, any list |
| Apart.LogBringsNoneInReach | contracts/snip721-dealer/src/contract.rs:77-85 | Over any steps an address that cannot become a foreign contract stays so: new contracts take unused addresses and code from the store |
| Runs.EveryMessageIsAddressed | contracts/snip721-dealer/src/contract.rs:178-239 | At every step of every transaction, failed and undone ones included, each mint, subscription, handover and first notice that the dealer sends its child carries the child's current code hash; each notice of the child carries the dealer's, unless a foreign contract can migrate the dealer; and while the dealer is behind, or the child of a dealer not in foreign hands is, the message at hand is the notice due to it |
| Runs.QueryRefinesLookup | contracts/snip721-dealer/src/contract.rs:255-262 | In every reachable world the child query of every dealer with a child answers exactly what a lookup in the chain's contract table gives |
| Handshake.HandshakeIsExact | contracts/snip721-dealer/src/contract.rs:25-86 | Instantiating a dealer over child code commits if and only if a price is listed, the admin is an address and the chain has two unused addresses; the resulting world is given in full |
| Handshake.HandshakeLinks | contracts/snip721-dealer/src/contract.rs:197-245 | That world is linked, the child's admin is the dealer's saved admin, the dealer is the only minter, the only slot is taken, and the dealer is in foreign hands exactly if a foreign contract was named as its migrator |
| Handshake.AdminIsHandedOver | contracts/snip721-dealer/src/contract.rs:231-239 | The handover succeeds exactly while the dealer is still the child's admin and the child is not stopped |
| Handshake.ReplyCompletes | contracts/snip721-dealer/src/contract.rs:197-245 | From the reply on the handshake cannot fail |
| Migration.ChildMigrationIsExact | contracts/snip721-migratable/src/contract_migrate.rs:6-22 | A child's migration commits if and only if the chain allows it and the child knows its dealer's current hash, whatever the dealer's list holds; both sides then hold the current hashes |
| Migration.DealerMigrationIsExact | contracts/snip721-dealer/src/contract_migrate.rs:6-22 | The migration of a dealer with no other subscriber commits if and only if the chain allows it, and repairs what the child may have missed |
| Migration.ChildMigrationsGoThrough | contracts/snip721-migratable/src/contract_migrate.rs:6-22 | The same of the child in every reachable world, where the child knows its dealer's hash unless a foreign contract can migrate the dealer: no dealer stands in the way of its child |
| Migration.MigrationCommitsIff | contracts/snip721-dealer/src/contract_migrate.rs:6-22 | With foreign subscribers that accept or refuse, a migration of either contract commits if and only if it is allowed, every stored subscriber exists under its stored hash and takes the notice, and no foreign one refuses |
| Migration.UpgradesHaveAClosedForm | contracts/snip721-migratable/src/contract_migrate.rs:6-22 | Any sequence of migrations of the two sides ends in the world named by the last allowed migration of each side |
| Migration.InterleavingDoesNotMatter | contracts/snip721-dealer/src/contract_migrate.rs:6-22 | Two interleavings with the same migrations per side end in the same world |
| Authority.ReferenceIsInherited | contracts/snip721-dealer/src/contract.rs:120-131 | Over any messages from anyone naming anyone, accepted notices form a succession from the first child, the reference is the last one named, and the subscriber copy never diverges from it |
| Authority.NoticeAcceptedIff | contracts/snip721-dealer/src/contract.rs:120-127 | A notice is accepted exactly when its sender is the current child and its target is an address |
| Authority.ReplyStartsLockstep | contracts/snip721-dealer/src/contract.rs:211-218 | The two copies agree from the reply on |
| Link.DealerKeepsLockstep | contracts/snip721-dealer/src/contract.rs:127-131 | Every accepted message keeps the two copies of the child's info equal, and only the current child's word changes them |
| Sales.PurchaseStep | contracts/snip721-dealer/src/contract.rs:135-187 | Anywhere in a transaction, a purchase is accepted exactly when it names the dealer's current hash, the price is exact, the terms are on record and the buyer can pay; the payment handed on and the mint come next |
| Sales.PurchaseIsExact | contracts/snip721-dealer/src/contract.rs:135-187 | As a transaction it commits if and only if moreover the child will mint; then the money is with the admin, the token with the buyer, nothing else changed; a refused mint undoes the payment |
| Sales.PaymentPassesThrough | contracts/snip721-dealer/src/contract.rs:160-163 | What arrives at the dealer leaves at once: the net effect is buyer to admin |
| LinkRuns.RunIsOrderly | contracts/snip721-dealer/src/contract.rs:135-187 | In the log of any run a dealer pays and mints only as the second and third step of a purchase that has just been accepted |
| Books.BooksBalance | contracts/snip721-dealer/src/contract.rs:135-187 | Over every history, purchases by accounts and contracts, payments handed on to the admin and mints requested of the child correspond one to one and in order, at list price; each mint is for the buyer with the metadata of the start, and asks for no id, serial number, royalties, transferability, memo or padding |
| Books.ForwardedTotals | contracts/snip721-dealer/src/contract.rs:143-163 | Over every history, in each denom, what was handed on to the admin is the number of purchases times the listed price |
| Books.DealerKeepsNoPayment | contracts/snip721-dealer/src/contract.rs:160-163 | Over every history the dealer's balance changes only by what it is given besides purchases |
| Books.TokensMatchSales | contracts/snip721-dealer/src/contract.rs:165-183 | Starting from a child whose only minter is the dealer, while the child's administrator issues no change of the minters, the tokens a history adds are those of its sales, numbered in order, owned by the buyers, with the metadata of the start; no other token comes, goes or changes |
| Books.EverySaleIsFulfilled | contracts/snip721-dealer/src/contract.rs:165-183 | Over every history, whoever else mints: each purchase has its token at the end, under the number that was next when it was bought, with the buyer as owner and the metadata of the start |
| Dealer.ListedIsTheFirst | contracts/snip721-dealer/src/contract.rs:144 | The accepted amount is that of the first entry of the denom, later duplicates notwithstanding |
| Dealer.UnlistedDenom | contracts/snip721-dealer/src/contract.rs:152-157 | No price exactly when no entry has the denom |
| Minting.ExactPurchasesCommit | contracts/snip721-dealer/src/contract.rs:164-183 | After any history in which the child's administrator issues no change of the minters, a purchase at the price of the start by a buyer who can pay commits and mints if and only if the child is then in normal status and its counter is not exhausted |
| Minting.PurchasesCommitWhileMinter | contracts/snip721-dealer/src/contract.rs:54-57 | After any history in which the child's administrator issues no message that drops the dealer from the minters, others added or not, such a purchase commits and mints if and only if the child is in normal status, its next number is free and its counter is not exhausted |
| Minting.HistoryStaysGuarded | contracts/snip721-migratable/src/contract.rs:29-46 | Over such a history the dealer stays the only minter and token ids stay the numerals below the counter |
| Minting.HandshakeGuards | contracts/snip721-dealer/src/contract.rs:31-36 | The handshake leaves the child in that state |
| Minting.NextNumberIsFree | contracts/snip721-dealer/src/contract.rs:165-175 | A mint without a token id cannot collide |
| Child.NumeralIsDecimal | contracts/snip721-migratable/schema/execute_msg.json:203-209 | Default ids are the decimal numerals of the counter, from "0" on, without leading zeros |
| Runs.HistorySettles | contracts/snip721-dealer/src/contract.rs:40-52 | Over every history a dealer's admin, prices and metadata never change, a child's subscribers plus free slots are constant, creators and migration authority stay, coins are conserved |
| Conserved.LogConserves | contracts/snip721-dealer/src/contract.rs:160-163 | No sequence of steps creates or destroys coins |
| Runs.SubscribersAreBounded | contracts/snip721-migratable/src/contract.rs:23-24 | A child that has no list yet and `n` free slots never has more than `n` subscribers |
| Runs.ChildOpens | contracts/snip721-migratable/src/contract.rs:17-26 | Anyone can instantiate a child of his own: it commits if and only if the chain has an unused address and the administrator is an address; the stored contract is given in full |
| Runs.LimitIsFromInstantiation | contracts/snip721-migratable/src/contract.rs:23-24 | A child instantiated at any point of any history, by anyone, with a limit of n has at the end exactly n subscribers and free slots together |
| Runs.HistoryIsAdministered | contracts/snip721-migratable/src/contract.rs:31-33 | Over every history a child's administrator, minters and status stay the same unless its administrator of some moment sends it a message that administers |
| Subscribers.SlotsAreConserved | contracts/snip721-migratable/src/contract.rs:35-37 | Registrations and notices conserve subscribers plus slots, so the u8 counter never underflows |
| Subscribers.FullListIsClosed | contracts/snip721-dealer/src/contract.rs:72 | With no slot left nobody can join or displace a silent entry |
| Subscribers.RegisteredIff | contracts/snip721-migratable/src/contract.rs:35-37 | A registration is refused if and only if the address is none or no slot is free; an accepted one comes last and uses one slot |
| Subscribers.FirstComeFirstServed | contracts/snip721-migratable/src/msg.rs:10 | Of n free slots the first n usable registrations of any run get one each, in order, and no later one does |
| Subscribers.AcceptedAreListed | contracts/snip721-migratable/src/contract.rs:35-37 | Between notices the list grows by exactly the accepted registrations, in order |
| Subscribers.UpdateMigrated | contracts/snip721-migratable/src/contract.rs:55-56 | The loop over the stored list is the pointwise replacement of the sender's entries |
| Subscribers.EntriesEvolveAlone | contracts/snip721-migratable/src/contract.rs:48-58 | Over any run of notices each entry evolves by itself; order and length stay |
| Subscribers.OnlyItsOwnerMovesAnEntry | contracts/snip721-migratable/src/contract.rs:48-58 | A sender affects only entries under its own address |
| Subscribers.BroadcastIsExact | contracts/snip721-migratable/src/contract_migrate.rs:7-21 | One notice per stored subscriber in stored order naming the migrated contract, or none at all if some address has no human form; an absent list is empty |
| Subscribers.SubscriberIsNotified | contracts/snip721-dealer/src/contract.rs:101-103 | A registered contract is told of the next migration, last, and the earlier notices are unchanged; an address without a human form silences the broadcast |
| Chain.StepDescends | contracts/snip721-dealer/src/contract.rs:241-244 | Every step uses up a foreign answer or emits lower-ranked tasks only, so dispatch ends without notification ping-pong |
| Wire.ChildRoundTrip | contracts/snip721-migratable/src/msg_untagged_deserializer.rs:25-50 | Decoding the untagged encoding gives back the message in the same outer variant |
| Wire.DealerRoundTrip | contracts/snip721-dealer/src/msg_untagged_deserializer.rs:25-48 | The same on the dealer |
| Wire.AtMostOneDecoderAccepts | contracts/snip721-migratable/src/msg_untagged_deserializer.rs:29-46 | No input is read by two of the enums tried |
| Wire.ChildAttemptsCommute | contracts/snip721-migratable/src/msg_untagged_deserializer.rs:29-46 | The outcome does not depend on the order of the attempts |
| Wire.DealerAttemptsCommute | contracts/snip721-dealer/src/msg_untagged_deserializer.rs:29-44 | The same on the dealer |
| Wire.PurchaseIsRecognised | contracts/snip721-dealer/src/msg.rs:43-48 | The dealer takes for a purchase exactly the objects whose one member is `purchase_mint`, an object |
| Wire.SubscriptionIsRecognised | contracts/snip721-migratable/src/contract.rs:35-37 | Both contracts take for a subscription exactly the objects whose one member is `subscribe_to_migration_complete_event` with text under `address` and `code_hash` |
| Wire.RequestIsRecognised | contracts/snip721-dealer/src/contract.rs:105 | Both take for the library's other message exactly the objects whose one member is `migrate`, not null |
| Wire.NoticeIsRecognised | contracts/snip721-dealer/src/contract.rs:107-111 | Both take for a notice exactly `migration_complete_notification` with an info under `to`, its `code_hash` optional, and optional `data` |
| Wire.MintIsRecognised | contracts/snip721-migratable/schema/execute_msg.json:128-221 | The child takes for a mint exactly `mint_nft` with the nine optional fields of that name, missing or null meaning none |
| Wire.ChangeAdminIsRecognised | contracts/snip721-migratable/schema/execute_msg.json:1197-1225 | The same of `change_admin` |
| Wire.MintersAreRecognised | contracts/snip721-migratable/schema/execute_msg.json:1101-1196 | The same of `add_minters`, `remove_minters` and `set_minters` |
| Wire.StatusIsRecognised | contracts/snip721-migratable/schema/execute_msg.json:1226-1254 | The same of `set_contract_status` and its three levels |
| Chain.ChildIsReached | contracts/snip721-migratable/src/contract.rs:29-46 | A SNIP-721 message, a subscription or a notice, written without the outer enum, is decoded and dispatched to the child's handler for it: delivery has exactly that handler's effect |
| Chain.DealerIsReached | contracts/snip721-dealer/src/contract.rs:90-113 | The same for a purchase, a subscription or a notice at the dealer |
| Rules.ChildIsInstantiated | contracts/snip721-migratable/src/contract.rs:17-26 | Instantiation succeeds exactly if the administrator, the sender unless one is named, is an address; it saves the limit of the message as free slots and makes the administrator the only minter |
| Rules.ChildSubscribes | contracts/snip721-migratable/src/contract.rs:35-37 | When the child accepts a subscription and all that it changes, for any list and any slots |
| Rules.ChildIsNotified | contracts/snip721-migratable/src/contract.rs:48-58 | When the child accepts a notice and all that it changes, for any list and any slots: the entries of the sender and nothing else |
| Rules.ChildMints | contracts/snip721-migratable/src/contract.rs:31-33 | When the child mints, under which id, for which owner, and that nothing else changes |
| Rules.OnlyTheAdminAdministers | contracts/snip721-migratable/src/contract.rs:31-33 | Base messages other than a mint are refused from anyone but the administrator, and no other message changes administrator, minters or status |
| Rules.AdminChangesMinters | contracts/snip721-migratable/src/contract.rs:31-33 | The administrator's additions, removals and replacements of minters: when they are accepted and who is a minter then |
| Rules.AdminChangesAdmin | contracts/snip721-migratable/src/contract.rs:31-33 | When the administrator's change of administrator is accepted, and what it does |
| Rules.AdminSetsStatus | contracts/snip721-migratable/src/contract.rs:31-33 | The administrator can set the status at any time |
| Rules.RequestsAreRefused | contracts/snip721-dealer/src/contract.rs:105 | Both contracts refuse the library's other messages |
| Rules.DealerIsInstantiated | contracts/snip721-dealer/src/contract.rs:25-86 | When instantiation succeeds, the items saved, and the request for the child: the true administrator as its migrator, the dealer as first administrator, one slot |
| Rules.DealerIsReplied | contracts/snip721-dealer/src/contract.rs:190-245 | In any state: when the reply is accepted, what is saved, and what the two messages say to the child |
| Rules.DealerSubscribes | contracts/snip721-dealer/src/contract.rs:101-103 | When the dealer accepts a subscription and all that it changes |
| Rules.DealerIsNotified | contracts/snip721-dealer/src/contract.rs:115-133 | In any state: when the dealer accepts a notice and all that it changes |
| Rules.DealerSells | contracts/snip721-dealer/src/contract.rs:135-187 | In any state: when a purchase is accepted, the payment handed on, and what the child reads in the second message, all nine fields |
| Rules.DealerAnswers | contracts/snip721-dealer/src/contract.rs:255-262 | In any state: the answer of the child query |
| Dealer.DealerContract.Instantiate | contracts/snip721-dealer/src/contract.rs:25-86 | The storage written and the message returned, against the function the handshake is proved about; errors included |
| Dealer.DealerContract.Reply | contracts/snip721-dealer/src/contract.rs:190-245 | The same for the reply |
| Dealer.DealerContract.Execute | contracts/snip721-dealer/src/contract.rs:90-113 | The same for the dispatch of execute messages |
| Dealer.DealerContract.UpdateChildSnip721 | contracts/snip721-dealer/src/contract.rs:115-133 | The same for the notice of the child |
| Dealer.DealerContract.PurchaseAndMint | contracts/snip721-dealer/src/contract.rs:135-187 | The search for the first price and the two messages, storage untouched |
| Dealer.DealerContract.QueryChildSnip721 | contracts/snip721-dealer/src/contract.rs:255-262 | The stored reference in human form, or an error |
| Child.ChildContract.Instantiate | contracts/snip721-migratable/src/contract.rs:17-26 | Slots saved, then the base instantiated |
| Child.ChildContract.Execute | contracts/snip721-migratable/src/contract.rs:29-46 | The new storage for every message, and an empty response |
| Child.ChildContract.RegisterToNotify | contracts/snip721-migratable/src/contract.rs:35-37 | A slot used and an entry appended, or an error |
| Child.ChildContract.UpdateMigratedDependency | contracts/snip721-migratable/src/contract.rs:48-58 | Only the subscriber list changes, as the pointwise replacement says |

## Left out

- Apart.StaysLinkedIff: for a dealer whose list has no limit, as instantiation leaves it, and only subscribers that can be told, and two codes to migrate to; while a subscriber cannot be told every migration of the dealer fails, and whether it can be told again is up to its owner. The safe half, Apart.OutOfReachStaysLinked, asks for none of this.
- Migration.MigrationCommitsIff: foreign subscribers accept or refuse here and send nothing of their own, because what they send could itself fail or change who can be reached; safety in that case is Runs.EveryHistoryLinks.
- Migration.InterleavingDoesNotMatter: for dealers whose only subscriber is the child, since another subscriber can make one order abort and not the other.
- Books.DealerKeepsNoPayment: for a dealer that is not its own admin; one that is keeps what it is paid.
- Books.TokensMatchSales: tokens are not transferred or burnt in this model, so the buyer is still the owner at the end.
- Dealer.DealerContract: after an error nothing is promised about the fields, since the host discards the writes.
- Changing a contract's migrator, which the chain lets that migrator do.
- The event list of a reply: the new contract's address is passed directly.
- The rest of SNIP-721: approvals, transfers, viewing keys, permits, royalties, history and sealed metadata; such messages decode and are then refused.
- Token name, symbol, entropy, label, code id and configuration flags of the instantiate messages.
- JSON text, base64, bech32, cryptography and gas: JSON is a tree, addresses are values.
- Duplicate keys in a JSON object, which a tree with a map of members cannot have.
- Error wording.
- `MigrateInTokensProgress` and `DealerState` of the source, which its code does not use.
- The price query, which only returns the stored list.
- Deployment, integration and schema code.
