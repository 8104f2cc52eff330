# AidLoop core, modelled in Dafny

AidLoop routes donations to people in need through Stellar Soroban smart
contracts.

- Donors deposit USDC into an **ImpactVault**. Its admin deploys the funds
  to DeFi protocols, collects the yield and distributes it.
- NGOs open aid programs in a **ProgramManager** and issue vouchers out of
  the funds allocated to them.
- A **VoucherManager** holds the beneficiaries' voucher balances. A
  beneficiary redeems them at merchants listed in a **MerchantRegistry**.
- Merchants submit proofs of delivery to an **ImpactContract**, and each
  redemption can become an **ImpactCreditNFT** that is traded.
- Donors collect **DonorBadgeNFT** badges.
- **MockUSDC** is the test token.

The repository also keeps an earlier draft of three contracts
(`src/impact_vault.rs`, `src/program_manager.rs`, `src/voucher_manager.rs`)
with different rules, and two kinds of web client:
- the React donor pages, which submit a contract call and poll for its
  confirmation;
- two plain-JavaScript demo apps, a beneficiary voucher wallet and a
  merchant point-of-sale.

Each contract is a Dafny `class` whose fields are the contract's storage
keys:
- a key read with `unwrap` is an `Option`;
- a key read with `unwrap_or` is a plain value with that default.

Every entry point takes an `Env`:
- the set of addresses whose authorisation is granted (`require_auth`);
- whether token transfers succeed;
- the ledger timestamp.

An entry point returns `Outcome<T>`: `Ok`, or `Err` with one of these:
- the panic message;
- the key an `unwrap` found missing;
- the address whose authorisation was refused;
- a failed transfer.

A Soroban invocation is atomic, so every `Err` leaves all fields unchanged.
Each contract class has a storage invariant `Valid()`, and every entry
point keeps it. The draft vault is the exception: its only invariant, that
its balances are non-negative, is carried by its `nat` fields. The client
page classes (`DonorDashboard.Dashboard`, `DonorLeaderboard.Leaderboard`)
hold UI state and have no invariant beyond their field types. The two demo
apps' classes have their own `Valid()`, kept by every handler. Where a
contract can be re-initialised without a guard, `Initialize` states exactly
when the invariant holds afterwards.

Files:
- `soroban.dfy`: the shared vocabulary.
- `text.dfy`: decimal formatting, substring search and time constants.
- `rpc.dfy`: what the web client sees of the network.
- One file per contract, per draft contract, per React page and per demo
  app.

The client pages take the network's behaviour as an input record:
- for each stage, the value it returned or the error it threw;
- one `getTransaction` response per poll attempt, 20 in all.

The poll loops are `method`s with loop invariants. Each is proved against
a declarative predicate that names the first stopping poll.

## Model

| member | source | states |
|---|---|---|
| Soroban.SumRemove | contracts/impact_vault/src/lib.rs:53-66 | the sum of all donor balances is any one balance plus the sum of the others, whichever donor is taken out |
| Soroban.SumUpdate | contracts/impact_vault/src/lib.rs:53-66 | overwriting one donor's balance changes the sum of all balances by exactly the difference |
| Soroban.Ids | contracts/impact_credit_nft/src/lib.rs:62-67 | the ids handed out by a counter that started at 0 are exactly 1..n |
| Soroban.IdsCount | contracts/impact_credit_nft/src/lib.rs:221-226 | there are exactly n ids in 1..n, so a counter equals the number of records stored under consecutive ids |
| Text.Decimal | src/program_manager.rs:55 | `format!("{}")` of a number is a non-empty run of decimal digits |
| Text.DecimalRoundTrip | src/program_manager.rs:55 | reading back the digits of a formatted number gives the number |
| Text.Ago | frontend/beneficiary-app.js:95-98 | the "n unit(s) ago" text starts with the digits of n, shows n as its count, and is plural exactly when n > 1 |
| Text.ContainsTransitive | src/pages/DonorDashboard.tsx:340-342 | a text containing "Bad union switch" contains every substring of it, the fact that makes one of the two `includes` tests redundant |
| Text.Capitalize | frontend/beneficiary-app.js:154 | `charAt(0).toUpperCase() + slice(1)` upper-cases a first character in a..z, keeps every other character and the length |
| ImpactVault.Vault.constructor | contracts/impact_vault/src/lib.rs:17-32 | a fresh contract stores nothing and satisfies the invariant |
| ImpactVault.Vault.Balance | contracts/impact_vault/src/lib.rs:76-79 | a donor never written has balance 0, otherwise the stored balance |
| ImpactVault.Vault.TotalDeposits | contracts/impact_vault/src/lib.rs:82-87 | 0 before initialisation, otherwise the stored total |
| ImpactVault.Vault.TotalYield | contracts/impact_vault/src/lib.rs:246-249 | the yield pool, 0 before it is first written |
| ImpactVault.Vault.Deployed | contracts/impact_vault/src/lib.rs:252-255 | a protocol never deployed to reads 0 |
| ImpactVault.Vault.Initialize | contracts/impact_vault/src/lib.rs:17-32 | stores token and admin and sets the total to 0; the total matches the donor balances afterwards exactly when they sum to 0 |
| ImpactVault.Vault.Deposit | contracts/impact_vault/src/lib.rs:36-73 | after the donor's authorisation and the transfer in, the donor's balance and the total both rise by amount, with no check on its sign, and the new balance is returned; the total stays the sum of the balances |
| ImpactVault.Vault.Withdraw | contracts/impact_vault/src/lib.rs:90-130 | "Insufficient balance" above the donor's balance with nothing changed; otherwise balance and total both fall by amount and the new balance is returned; the invariant rules out the missing-total failure |
| ImpactVault.Vault.AdminCheck | contracts/impact_vault/src/lib.rs:134-141 | passes exactly when an admin is stored and has authorised |
| ImpactVault.Vault.DeployToDefi | contracts/impact_vault/src/lib.rs:134-164 | admin only; deployed[protocol] rises by amount and donor balances and total are untouched |
| ImpactVault.Vault.WithdrawYield | contracts/impact_vault/src/lib.rs:168-200 | "Insufficient deployed amount" above what is deployed; otherwise exactly amount moves from deployed[protocol] into the yield pool |
| ImpactVault.Vault.DistributeYield | contracts/impact_vault/src/lib.rs:204-243 | "Insufficient yield available" above the pool; otherwise the pool falls by exactly the amount paid out |
| ImpactVault.DepositWithdrawScenario | contracts/impact_vault/src/lib.rs:264-278 | depositing then withdrawing the same amount returns the donor's balance and the total to 0 |
| ImpactCreditNft.Registry.constructor | contracts/impact_credit_nft/src/lib.rs:32-40 | a fresh contract has no NFTs and satisfies the invariant |
| ImpactCreditNft.Registry.Initialize | contracts/impact_credit_nft/src/lib.rs:32-40 | stores admin and token and resets the counter, so the supply reads 0; ids match the counter again only if nothing was minted |
| ImpactCreditNft.Registry.MintImpactNft | contracts/impact_credit_nft/src/lib.rs:44-104 | admin only; returns count + 1, a fresh id, and stores an NFT owned by the admin, for sale at the aid amount |
| ImpactCreditNft.Registry.GetNft | contracts/impact_credit_nft/src/lib.rs:107-110 | the stored NFT, None for an id never minted |
| ImpactCreditNft.Registry.OwnerOf | contracts/impact_credit_nft/src/lib.rs:113-120 | None exactly for ids outside 1..count, otherwise the owner |
| ImpactCreditNft.Registry.TotalSupply | contracts/impact_credit_nft/src/lib.rs:221-226 | equals the number of NFTs minted |
| ImpactCreditNft.Registry.OwnedCheck | contracts/impact_credit_nft/src/lib.rs:129-138 | passes exactly when the NFT exists and belongs to the claimed owner; "NFT not found" for an unknown id |
| ImpactCreditNft.Registry.Transfer | contracts/impact_credit_nft/src/lib.rs:123-148 | only the owner may transfer; the owner becomes `to`, the NFT goes off sale, and every other field is kept |
| ImpactCreditNft.Registry.ListForSale | contracts/impact_credit_nft/src/lib.rs:151-175 | only the owner may list; sets for-sale and the price, nothing else |
| ImpactCreditNft.Registry.BuyNft | contracts/impact_credit_nft/src/lib.rs:180-218 | "NFT not for sale" for an unlisted NFT; otherwise, once paid, the buyer owns it off sale |
| ImpactCreditNft.MintTransferScenario | contracts/impact_credit_nft/src/lib.rs:242-255 | supply is 0 after initialisation; the first mint is id 1; after a transfer the recipient owns it unlisted and supply is 1 |
| MerchantRegistry.Registry.constructor | contracts/merchant_registry/src/lib.rs:34-41 | a fresh registry has no merchants and satisfies the invariant |
| MerchantRegistry.Registry.Initialize | contracts/merchant_registry/src/lib.rs:34-41 | stores the admin and sets the count to 0, which is right only if no merchant registered before |
| MerchantRegistry.Registry.RegisterMerchant | contracts/merchant_registry/src/lib.rs:45-90 | "Merchant already registered" for a stored address; otherwise a Pending profile with zero totals is stored and the count rises by 1 |
| MerchantRegistry.Registry.AdminFetch | contracts/merchant_registry/src/lib.rs:94-110 | passes exactly for an authorised admin and a registered merchant; "Merchant not found" otherwise once the admin has signed |
| MerchantRegistry.Registry.VerifyMerchant | contracts/merchant_registry/src/lib.rs:94-120 | sets Verified whatever the previous status, changes nothing else, and `is_verified` then holds |
| MerchantRegistry.Registry.SuspendMerchant | contracts/merchant_registry/src/lib.rs:123-149 | sets Suspended, changes nothing else, and `is_verified` then fails |
| MerchantRegistry.Registry.GetMerchant | contracts/merchant_registry/src/lib.rs:152-155 | the stored profile, None for an unknown address |
| MerchantRegistry.Registry.IsVerified | contracts/merchant_registry/src/lib.rs:158-165 | true exactly for a registered merchant whose status is Verified |
| MerchantRegistry.Registry.RecordRedemption | contracts/merchant_registry/src/lib.rs:169-181 | one more redemption and amount more volume for a stored merchant; a no-op for an unknown one |
| MerchantRegistry.Registry.MerchantCount | contracts/merchant_registry/src/lib.rs:184-189 | equals the number of registered merchants; with the invariant, no merchant is ever Rejected |
| MerchantRegistry.RegisterVerifyScenario | contracts/merchant_registry/src/lib.rs:205-218 | a second registration is refused, verification makes the merchant verified, and the count is 1 |
| ProgramManager.Manager.constructor | contracts/program_manager/src/lib.rs:35-45 | a fresh contract has no programs and satisfies the invariant |
| ProgramManager.Manager.Initialize | contracts/program_manager/src/lib.rs:35-45 | stores admin and token and resets the counter, right only if no program existed |
| ProgramManager.Manager.CreateProgram | contracts/program_manager/src/lib.rs:48-92 | returns count + 1, a fresh id, for an active program with the given budget and nothing allocated |
| ProgramManager.Manager.GetProgram | contracts/program_manager/src/lib.rs:95-98 | found exactly for ids 1..count |
| ProgramManager.Manager.AdminCheck | contracts/program_manager/src/lib.rs:102-109 | passes exactly when an admin is stored and has authorised |
| ProgramManager.Manager.AllocateToProgram | contracts/program_manager/src/lib.rs:102-136 | "Program not found", "Program is not active" and "Allocation exceeds budget" in that order; after success the allocation is within the budget |
| ProgramManager.Manager.IssueVoucher | contracts/program_manager/src/lib.rs:140-177 | only the program's NGO; "Insufficient allocated funds" above the allocation; the stored program is never changed |
| ProgramManager.Manager.DeactivateProgram | contracts/program_manager/src/lib.rs:180-203 | admin only; clears the active flag and nothing else |
| ProgramManager.Manager.ProgramCount | contracts/program_manager/src/lib.rs:206-211 | equals the number of programs created, and `get_program` finds exactly the ids 1..count |
| ProgramManager.AllocationScenario | contracts/program_manager/src/lib.rs:220-233 | a budget of 1000 takes 600, refuses 500 more, and the NGO cannot issue 700 of the 600 allocated |
| VoucherManager.Manager.constructor | contracts/voucher_manager/src/lib.rs:32-42 | a fresh contract has no vouchers or redemptions and satisfies the invariant |
| VoucherManager.Manager.Initialize | contracts/voucher_manager/src/lib.rs:32-42 | stores token and admin, and the redemption count reads 0 |
| VoucherManager.Manager.VoucherBalance | contracts/voucher_manager/src/lib.rs:71-74 | 0 for a (beneficiary, program) pair never credited |
| VoucherManager.Manager.IssueVoucher | contracts/voucher_manager/src/lib.rs:46-68 | admin only; that pair's balance rises by amount and no other balance changes |
| VoucherManager.Manager.RedeemVoucher | contracts/voucher_manager/src/lib.rs:78-159 | "Insufficient voucher balance" with nothing changed; otherwise only that pair's balance falls by amount, and the exact redemption is stored under the returned fresh id count + 1 |
| VoucherManager.Manager.GetRedemption | contracts/voucher_manager/src/lib.rs:162-165 | found exactly for ids 1..count |
| VoucherManager.Manager.RedemptionCount | contracts/voucher_manager/src/lib.rs:168-173 | equals the number of redemptions stored |
| VoucherManager.Manager.BeneficiaryRedemptions | contracts/voucher_manager/src/lib.rs:176-179 | always 0, since no entry point writes the key it reads |
| VoucherManager.IssueRedeemScenario | contracts/voucher_manager/src/lib.rs:188-201 | credited 100, a redemption of 150 is refused, one of 40 gets id 1 and leaves 60, and the count is 1 |
| ImpactContract.Contract.constructor | contracts/impact_contract/src/lib.rs:15-27 | a fresh contract has no proofs and satisfies the invariant |
| ImpactContract.Contract.Initialize | contracts/impact_contract/src/lib.rs:15-27 | proof count and yield balance both read 0 and the stored proofs are kept; from a valid state the invariant holds afterwards exactly when no proof was stored |
| ImpactContract.Contract.ReceiveYield | contracts/impact_contract/src/lib.rs:30-44 | the yield balance rises by amount |
| ImpactContract.Contract.SubmitProof | contracts/impact_contract/src/lib.rs:47-85 | returns count + 1 and records merchant, amount and hash with status Pending |
| ImpactContract.Contract.VerifyProof | contracts/impact_contract/src/lib.rs:88-108 | admin only; sets status Verified for any id, submitted or not, returns the id, and never changes the count |
| ImpactContract.Contract.TotalProofs | contracts/impact_contract/src/lib.rs:111-116 | equals the number of proofs submitted |
| ImpactContract.Contract.YieldBalance | contracts/impact_contract/src/lib.rs:119-124 | the stored yield balance |
| ImpactContract.InitializeScenario | contracts/impact_contract/src/lib.rs:133-143 | after initialisation there are no proofs and no yield |
| DonorBadgeNft.Contract.constructor | contracts/donor_badge_nft/src/lib.rs:22-29 | nothing stored, so `next_id` reads 1 |
| DonorBadgeNft.Contract.Initialize | contracts/donor_badge_nft/src/lib.rs:22-29 | sets `next_id` to 1, so the supply is 0 |
| DonorBadgeNft.Contract.MintBadge | contracts/donor_badge_nft/src/lib.rs:32-73 | with no authorisation, returns the current `next_id`, a fresh id, stores metadata and owner under it and advances `next_id` |
| DonorBadgeNft.Contract.GetBadge | contracts/donor_badge_nft/src/lib.rs:76-79 | the stored metadata, None for an id never minted |
| DonorBadgeNft.Contract.GetOwner | contracts/donor_badge_nft/src/lib.rs:82-85 | found exactly for ids 1..next_id-1 |
| DonorBadgeNft.Contract.TotalSupply | contracts/donor_badge_nft/src/lib.rs:88-94 | next_id - 1, the number of badges minted |
| DonorBadgeNft.Contract.BadgesByOwner | contracts/donor_badge_nft/src/lib.rs:97-110 | exactly the ids in 1..total_supply that the owner holds, in ascending order |
| DonorBadgeNft.FirstMintScenario | contracts/donor_badge_nft/src/lib.rs:119-141 | the first mint after initialisation returns 1 and the supply becomes 1 |
| MockUsdc.Token.constructor | contracts/mock_usdc/src/lib.rs:22-31 | nothing stored |
| MockUsdc.Token.Initialize | contracts/mock_usdc/src/lib.rs:22-31 | "Already initialized" once an admin is set; otherwise name, symbol and decimals then read back what was passed in |
| MockUsdc.Token.Mint | contracts/mock_usdc/src/lib.rs:34-40 | stores nothing and only appends a mint event |
| MockUsdc.Token.Name | contracts/mock_usdc/src/lib.rs:43-45 | fails before initialisation, otherwise the stored name |
| MockUsdc.Token.Symbol | contracts/mock_usdc/src/lib.rs:48-50 | fails before initialisation, otherwise the stored symbol |
| MockUsdc.Token.Decimals | contracts/mock_usdc/src/lib.rs:53-55 | fails before initialisation, otherwise the stored decimals |
| MockUsdc.InitializeOnceScenario | contracts/mock_usdc/src/lib.rs:22-55 | getters fail before initialisation, return the values passed in after it, and a second initialisation is refused |
| DraftImpactVault.Vault.constructor | src/impact_vault.rs:13-19 | nothing stored: no manager, balance and yield read 0 |
| DraftImpactVault.Vault.Initialize | src/impact_vault.rs:13-19 | records the program manager and sets balance and yield to 0 |
| DraftImpactVault.Vault.Deposit | src/impact_vault.rs:22-38 | after the depositor's authorisation and transfer the vault balance rises by amount |
| DraftImpactVault.Vault.Withdraw | src/impact_vault.rs:41-60 | only the program manager; "Insufficient vault balance" above the balance; otherwise the balance falls by exactly amount |
| DraftImpactVault.Vault.DistributeYield | src/impact_vault.rs:63-83 | no authorisation asked; the yield total rises and the vault balance is neither checked nor changed |
| DraftImpactVault.Vault.VaultBalance | src/impact_vault.rs:86-91 | the vault balance, 0 until written |
| DraftImpactVault.Vault.YieldDistributed | src/impact_vault.rs:94-99 | the yield total, 0 until written |
| DraftImpactVault.Vault.ProgramManager | src/impact_vault.rs:102-104 | fails exactly while no manager is recorded |
| DraftImpactVault.DepositWithdrawScenario | src/impact_vault.rs:22-60 | a deposit and an equal withdrawal by the manager leave the balance at 0 |
| DraftProgramManager.ProgramKeyInjective | src/program_manager.rs:55 | different program ids give different "program_{id}" keys, so one program never overwrites another |
| DraftProgramManager.Without | src/program_manager.rs:107-114 | the filtered list holds exactly the ids other than the removed one and is no longer |
| DraftProgramManager.WithoutKeepsIncreasing | src/program_manager.rs:107-114 | filtering an ascending id list keeps it ascending |
| DraftProgramManager.Manager.constructor | src/program_manager.rs:25-27 | no programs and an empty active list |
| DraftProgramManager.Manager.Initialize | src/program_manager.rs:25-27 | records the vault and touches nothing else |
| DraftProgramManager.Manager.CreateProgram | src/program_manager.rs:30-63 | id count + 1, remaining = total funding, active, and the id appended to the active list, which stays ascending |
| DraftProgramManager.Manager.AllocateVoucher | src/program_manager.rs:66-88 | missing program, "Program is not active", "Insufficient program funding"; otherwise remaining falls by amount and stays within the total |
| DraftProgramManager.Manager.GetProgram | src/program_manager.rs:91-93 | the stored program; fails for an unknown id |
| DraftProgramManager.Manager.ActivePrograms | src/program_manager.rs:96-98 | exactly the active programs, in ascending id order |
| DraftProgramManager.Manager.DeactivateProgram | src/program_manager.rs:101-115 | clears the active flag and rebuilds the list without every occurrence of the id, others in order; an id is listed iff its program is active |
| DraftProgramManager.Manager.ProgramCount | src/program_manager.rs:118-120 | equals the number of programs created |
| DraftVoucherManager.RedemptionKeyInjective | src/voucher_manager.rs:101 | different redemption ids give different "redemption_{id}" keys |
| DraftVoucherManager.Manager.constructor | src/voucher_manager.rs:35-37 | no balances and no redemptions |
| DraftVoucherManager.Manager.Initialize | src/voucher_manager.rs:35-37 | records the merchant registry and nothing else |
| DraftVoucherManager.Manager.VoucherBalance | src/voucher_manager.rs:124-127 | 0 for a (beneficiary, category) pair never allocated |
| DraftVoucherManager.Manager.AllocateVoucher | src/voucher_manager.rs:40-62 | with no authorisation, that pair's balance rises by amount and its details record is rewritten |
| DraftVoucherManager.Manager.RedeemVoucher | src/voucher_manager.rs:65-110 | "Insufficient voucher balance" with nothing changed; otherwise the balance falls by exactly amount and an unverified redemption is stored under count + 1 |
| DraftVoucherManager.Manager.VerifyRedemption | src/voucher_manager.rs:113-121 | fails for a missing redemption; otherwise sets `verified` and nothing else |
| DraftVoucherManager.Manager.GetRedemption | src/voucher_manager.rs:130-132 | found exactly for ids 1..count |
| DraftVoucherManager.Manager.RedemptionCount | src/voucher_manager.rs:142-144 | equals the number of redemptions stored |
| DraftVoucherManager.AllocateRedeemScenario | src/voucher_manager.rs:40-110 | allocating 1000 then redeeming 400 leaves 600 and an unverified redemption 1 |
| DonorDashboard.ErrorText | src/pages/DonorDashboard.tsx:394 | the error message, or "Transaction failed" when it is empty |
| DonorDashboard.Submit | src/pages/DonorDashboard.tsx:202-291 | aborts before signing exactly when loading the account or simulating fails, or the simulation errs or has no result; sends only when every stage returns |
| DonorDashboard.Thrown | src/pages/DonorDashboard.tsx:307-336 | a poll error is caught with its message; FAILED throws the handler's own message; any other status throws nothing |
| DonorDashboard.Poll | src/pages/DonorDashboard.tsx:301-388 | at most 20 queries; stops at the first SUCCESS, or at an ambiguous error from attempt 8; reloads balances for ambiguous errors from attempt 6 and once at the end |
| DonorDashboard.Dashboard.constructor | src/pages/DonorDashboard.tsx:13-26 | empty fields, not loading, no status |
| DonorDashboard.Dashboard.HandleDeposit | src/pages/DonorDashboard.tsx:199-398 | nothing without a key or amount; otherwise ends as settled, not loading, clearing the amount only on success |
| DonorDashboard.Dashboard.HandleCauseDeposit | src/pages/DonorDashboard.tsx:400-588 | nothing without a key or amount; otherwise ends as settled and not loading, leaving both fields as they were |
| DonorDashboard.Dashboard.Run | src/pages/DonorDashboard.tsx:203-397 | a send status the handler does not accept ends in "Transaction send failed: " + status; otherwise polling settles as stated |
| Text.AbsentFirstChar | src/pages/DonorDashboard.tsx:341-342 | a text lacking the first character of a pattern does not contain it |
| DonorDashboard.FailedIsNotAmbiguous | src/pages/DonorDashboard.tsx:330-342 | what FAILED throws never counts as a union error in either handler |
| DonorDashboard.DepositAmbiguousIsUnion | src/pages/DonorDashboard.tsx:340-342 | in `handleDeposit` the errors read as ambiguous are exactly those containing "union" |
| DonorDashboard.AcceptedNeverFails | src/pages/DonorDashboard.tsx:330-388 | once sent and accepted, no poll response, FAILED included, ends in an error status |
| DonorDashboard.DuplicateOnlyForDeposit | src/pages/DonorDashboard.tsx:294-297 | DUPLICATE is polled by `handleDeposit` and is a send failure for `handleCauseDeposit` |
| DonorDashboard.UnionErrorsGiveUpAtEight | src/pages/DonorDashboard.tsx:340-369 | steady "Bad union switch" errors stop at query 8 with "submitted, refreshing" after 4 balance reloads |
| DonorDashboard.ZeroBeforeRecheck | src/pages/DonorDashboard.tsx:349 | no balance reload happens before attempt 6 |
| DonorLeaderboard.Submit | src/pages/DonorLeaderboard.tsx:188-250 | aborts before signing exactly when account or simulation fails or the simulation errs or is empty; sends only when every stage returns |
| DonorLeaderboard.Leaderboard.constructor | src/pages/DonorLeaderboard.tsx:76-77 | not minting and no status shown |
| DonorLeaderboard.Leaderboard.HandleMintBadge | src/pages/DonorLeaderboard.tsx:182-288 | nothing without a key; otherwise ends as settled with minting off |
| DonorLeaderboard.Poll | src/pages/DonorLeaderboard.tsx:252-281 | at most 20 queries; SUCCESS mints, FAILED or a non-union error ends in that error, union errors continue, exhaustion keeps the waiting message |
| DonorLeaderboard.FailedIsNotUnion | src/pages/DonorLeaderboard.tsx:267-271 | "Transaction failed" does not contain "Bad union switch" |
| DonorLeaderboard.FailedEndsInError | src/pages/DonorLeaderboard.tsx:267-284 | a FAILED status after k ignorable polls ends with "Transaction failed" after k + 1 queries |
| DonorLeaderboard.SendStatusIgnored | src/pages/DonorLeaderboard.tsx:249-256 | whatever the send status, polling starts |
| BeneficiaryApp.Label | frontend/beneficiary-app.js:154 | the capitalised category names "Healthcare", "Food", "Education" |
| BeneficiaryApp.Balances.Set | frontend/beneficiary-app.js:150 | assigning one category's balance changes no other |
| BeneficiaryApp.Find | frontend/beneficiary-app.js:183 | the first record whose id equals the argument, or none |
| BeneficiaryApp.App.constructor | frontend/beneficiary-app.js:3-61 | balances 150, 75 and 50 (in cents) and the two loaded records |
| BeneficiaryApp.App.RedeemVoucher | frontend/beneficiary-app.js:141-175 | "Insufficient voucher balance" with nothing changed; otherwise only that category falls by amount and an unverified record is prepended; balance plus spending stays the starting balance |
| BeneficiaryApp.App.VerifyRedemption | frontend/beneficiary-app.js:178-194 | marks the first record with that id; as no record has an id, a defined id changes nothing |
| BeneficiaryApp.SpentOnSameAmounts | frontend/beneficiary-app.js:183-187 | changing only verification flags keeps what each category spent |
| BeneficiaryApp.FormatTimeAgo | frontend/beneficiary-app.js:88-100 | "Just now" iff under an hour; otherwise the count of whole hours (under a day) or days elapsed, pluralised iff above 1 |
| BeneficiaryApp.RedeemScenario | frontend/beneficiary-app.js:141-175 | overspending education is refused; spending it all empties it and adds a third unverified record |
| MerchantPos.Pos.constructor | frontend/merchant-pos.js:3-68 | no open transaction and the two loaded verified transactions |
| MerchantPos.Pos.ProcessScannedQR | frontend/merchant-pos.js:132-144 | opens a pending transaction of amount 0 whose available balance is the scanned amount |
| MerchantPos.Pos.UpdateTransactionAmount | frontend/merchant-pos.js:156-170 | records the amount and disables processing iff it exceeds the available balance |
| MerchantPos.Pos.ProcessTransaction | frontend/merchant-pos.js:172-222 | rejects no transaction or amount <= 0, then amount above the balance; a chain failure changes nothing; success prepends a verified record of that amount |
| MerchantPos.Pos.CancelTransaction | frontend/merchant-pos.js:257-263 | clears the open transaction |
| MerchantPos.FormatTimeAgo | frontend/merchant-pos.js:95-107 | "Just now" iff under a minute; otherwise the count of whole minutes (under an hour) or hours elapsed, pluralised iff above 1 |
| MerchantPos.ScanAndPayScenario | frontend/merchant-pos.js:132-210 | scanning then paying within the balance processes that amount and lists a third transaction |

## Left out

- Events: no contract's `events().publish` is modelled except MockUSDC's
  mint event, which is that entry point's only effect.
- Integer width: i128, u128 and u32 are unbounded integers. The overflow
  panics of the Soroban runtime are not modelled.
- Authorisation is membership in a signer set, and a token transfer is one
  success flag per call. Token balances themselves are not modelled. That
  includes the draft vault, whose token client is built on the vault's own
  address.
- Ledger timestamps, the current time and random ids (`Math.random`) are
  parameters. The merchant app's 90% chain success is a boolean input.
- `get_owned_nfts`, `get_merchants_by_category` and the draft
  `get_beneficiary_redemptions` are stubs that return an empty vector or 0
  without reading storage. They are not modelled.
- Storage keys are modelled as typed map keys. The draft contracts'
  `voucher_{beneficiary}_{category}` keys are assumed not to collide. `Symbol::short` names longer
  than nine characters, which the SDK would refuse, are taken as written.
- Text.Capitalize: case mapping is ASCII-only (a..z to A..Z). JavaScript's
  full Unicode `toUpperCase`, which can change or lengthen the text ("ß"
  becomes "SS"), is not modelled; the labels in BeneficiaryApp and MerchantPos
  inherit this.
- Floating point:
  - the dashboard's stroop conversions (`parseFloat(x) * 1e7`);
  - `toFixed`;
  - the demo apps' dollar amounts, which the model keeps in whole cents.
- DOM, rendering, `alert`, `localStorage`, `setTimeout` delays and
  `console` output are not modelled. Only the attempt count of the poll
  loops is.
- Horizon, Soroban RPC, XDR and the wallet:
  - each awaited stage is a value it returned or the message it threw;
  - `assembleTransaction` and the wallet's `signTx` are one "signing"
    stage;
  - building the transaction is assumed not to throw.
- `loadBalances` is counted, but its own failures are not modelled.
- DonorDashboard.Poll: a thrown poll value without a `message` is
  modelled as a message string. `pollError.message.includes` would raise a
  TypeError in `handleCauseDeposit`.
- DonorLeaderboard.Poll: the same simplification of thrown values as in
  DonorDashboard.Poll.
- DonorDashboard thresholds: the code compares the attempt number with 6
  and 8, not a count of ambiguous errors. The model follows the code.
- The two DonorDashboard handlers share one modelled body, parameterised
  by what differs between them (`Handler`).
- BeneficiaryApp.App.RedeemVoucher: only the three known categories are
  modelled. An unknown category key reads `undefined`, and the JavaScript
  comparison with it is not modelled.
- Overlapping UI invocations and event-loop concurrency are not modelled.
