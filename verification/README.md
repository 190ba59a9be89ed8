# A Bitcoin covenant bridge, modelled and proved

The repository locks coins in a Bitcoin output whose script is a covenant. Two Taproot leaves, a collection and a
settlement, authenticate the transaction they run in, its predecessor and that one's predecessor, rebuild the exact
outputs, and bind a statement whose proof an appended verifier checks. The statement attests a transition over three
accounts. Deposits are locked to a leaf that only such a collection, or the depositor, can spend.

The model has the same layers, from the bottom:

- **Bytes, transactions, script.** `Bytes`, `Transactions`, `Script`: encodings, serialization and the fixed-offset
  shapes, and a flat script machine with main, alternate and condition stacks, run on script bytes.
- **The builder.** `Building` gives builder calls a structured meaning over named values and proves the emitted code
  correct for it. `BuilderClass.Builder` is the class with its code and names; `branch` is three methods because a
  method cannot take a callback. `Calls` follows programs call by call: `Reaches(p, e0, w, e, ok)` says that the calls
  `p` lead from `e0` to `e` exactly when `ok`. For a part `X`, `XCalls` are its calls, `XStep` what they mean, and the
  method of the part emits them.
- **The covenant.** `Linearization`, `TxContext`, `Deposit`, `DepositLeaf`, `BridgeHead`, `BridgeOutputs`,
  `BridgeDeposits`, `Statements`, `BridgeStatement`, `BridgeDigest`, `BridgePrograms`, `BridgeRuns`: each part accepts
  exactly what its predicate describes, and the whole leaves are characterized on every witness stack. `Heads` and
  `Acceptance` say the same of transactions, field by field; `Formats` lays out every hashed or signed byte string.
- **The accounts.** `Accounts`, `Transitions`, `Refusals`: the imperative transitions against a specification, with
  exact conditions for success and for every error. `Envelope`, `Folding`: the proof envelope, its
  scalars, and the exported proof with its folded key.
- **Whole runs.** `Ledger` is a history of confirmed transactions to which anyone may add; `Attested`, `Lineage`,
  `Solvency`, `Flows` and `DepositFlow` prove what holds of every such history. `Completeness`, `Extension` and
  `Progress` show that histories exist: they start empty, take in coinbase entries and payments, and every bridge can go
  on. `Promises` has what the documentation says beyond the code.
- **Function invocation.** `Functions`: the interpreter's reusable functions, apart from the bridge.

## What is assumed

- SHA256 is an arbitrary function brought to 32 bytes. Whole-run results assume `CollisionFree`: no two different
  strings among the finitely many that a history hashes share a digest, no two of its statements a masked digest, and
  no two of its digests a tweaked key. Injectivity is never assumed of the function.
- Opcodes, where the repository does not fix them: numbers are unsigned little-endian of any length; SUB fails on
  underflow; ADD, SUB, SIZE and DEPTH leave minimal encodings; AND needs equal lengths; a value is true when any byte is
  nonzero. What an out-of-range substring yields is the parameter `cut`, and no result depends on it.
- Every opcode that neither program nor deposit leaf emits, those of the appended verifier among them, is the parameter
  `other`: any change of the stacks, the conditions and a memory of its own, or a failure. Every result about the
  programs and every whole-run result holds for all of its values. The one thing it cannot do is end a script early with
  success.
- The appended verifier is sound (`Attests`): when it accepts, the recorded proof input is valid and the second item of
  its stack is the masked digest of that input's statement. Signatures, the transfer library's message, key decoding
  and public-key tweaking are parameters.
- The ledger's rules: an input names an output of an earlier entry by txid, each output is spent at most once,
  transactions differ pairwise, and a spend of the program runs one of its two leaves. A transaction records the deposit
  leaves its outputs were made from; an output made from a recorded leaf has an internal key without a known secret, so
  it is spent by revealing a script for its key. Other outputs, key-path spends among them, are free of these rules.
- `DepositFlow.SpendsDeposit` speaks of an output made from a recorded leaf that names the program and whose output key
  is not the program's own. A revealed script is shorter than 2^64 bytes, as its serialization has to be.
- `Deployed` says that the two prefixes and the deposit body are what the builders emit and stay below 2^32 bytes;
  `BridgeRuns.Deploy` establishes it. A builder call's own assertions, stack underflow, an unknown name, unequal branch
  names, are preconditions of the methods, and the program builders are proved never to break them.

## Where code and documentation differ

The model follows the code, and states exactly when the code keeps each promise.

- A sole successor with the program's script (docs/protocol.md:69-71): a settlement may pay out to that script.
  `Promises.SuccessorShared` is the input, `Promises.SoleSuccessorExact` the condition.
- Arithmetic over money ranges (docs/protocol.md:164): the code checks 64-bit widths. `Promises.MoneyRangeLeft` is the
  input, `Promises.CollectionMoneyExact` the condition; consensus sees to it on the chain
  (`Promises.MoneyRangeOnChain`).
- The bound on invoked bytes: the comparison wraps for a body above 4,000,000 bytes. `Functions.WorkEscapes` is the
  input, `Functions.WorkBoundExact` the condition on the element limit.

A deposit commits to the protocol version (docs/protocol.md:97) only through the program's script, which fixes it: the
leaf bytes hold no version of their own.

## Model

| member | source | states |
|---|---|---|
| Solvency.Solvent | docs/protocol.md:152-162 | After any number of confirmed steps of a bridge, output 0 of its head pays the program exactly 1,000 plus the three balances of an account state whose root, with the identity, is in the last output; the keys are the deployment's and nonces 0 and 1 both count the settlements |
| Solvency.ReserveForced | script/bridge.py:141-159 | One confirmed first step forces the genesis head to have held exactly 1,000, and to be the transaction named by the identity, although no script compares the value |
| Solvency.RunKeepsAccounts | crates/protocol/src/lib.rs:342-379 | By induction over a chain: each step starts from the very accounts its predecessor ended with, the first from three empty ones; keys stay the deployment's and nonces 0 and 1 equal the settlements so far |
| Lineage.Descends | script/bridge.py:97-187 | Every confirmed spend of the program descends by an unbroken input-0 to output-0 chain from the transaction whose txid it claims; the two-generation check suffices although anyone may pay the program |
| Lineage.OneHeadAfter | script/bridge.py:131-140 | A bridge has one head after any given number of steps |
| Lineage.OneUnspentHead | script/bridge.py:131-187 | An identity never has two unspent heads |
| Lineage.LaterStep | script/bridge.py:161-182 | A step that does not follow the genesis spends output 0 of an earlier accepted step of the same identity, from exactly the state that step committed to |
| Lineage.FirstStep | script/bridge.py:141-159 | A step whose predecessor has the genesis size spends output 0 of the transaction named by the identity, which committed to the pinned genesis state |
| DepositFlow.DepositCredited | script/deposit.py:247-366 | An output made from a deposit leaf of the program and spent without the refund flag is always one of the two deposits of a confirmed collection of the identity in its leaf; its full amount reaches the successor head and the attested accounts credit exactly that amount to the recipient the leaf commits to |
| DepositFlow.StatementOnce | script/bridge.py:200-202 | No statement is accepted twice anywhere in the ledger |
| DepositFlow.WithdrawalOnce | crates/protocol/src/lib.rs:290-308 | No withdrawal message is used by two settlements anywhere in the ledger |
| Flows.CollectionConserves | script/bridge.py:313-336 | A confirmed collection moves head and both deposits in full to the successor; the fee of exactly 10,000 and the 330 of the caboose come only from the sponsor |
| Flows.SettlementConserves | script/bridge.py:368-400 | A confirmed settlement pays exactly the attested withdrawal amount and script out of the head; fee and caboose come only from the sponsor |
| Flows.ChainConserves | docs/protocol.md:152-162 | After any number of confirmed steps the head amount plus all payouts ever made is the reserve plus all deposits ever collected |
| Flows.BalancesConserve | docs/protocol.md:152-162 | The three balances of the head together are every deposit ever credited less every payout |
| Flows.CollectionAgrees | script/bridge.py:250-270 | The attested deposits are the spent outputs 1 and 2, the recipients those of the witness numbers, and the new backing is the exact, unwrapped sum |
| Flows.SettlementMoves | crates/protocol/src/lib.rs:340-379 | In every settlement of a chain the sender pays amount and fee, the recipient takes the amount and pays the withdrawal, and the fee account takes the fee, starting from the accounts the step before ended with |
| Attested.ProgramSpendStepped | script/bridge.py:403-450 | A confirmed spend of the program is made by input 0, authenticates its head, carries a proof whose roots, amounts, prevout and action are those of this transaction, and commits to the new state |
| Attested.HeadersMeet | crates/protocol/src/lib.rs:197-217 | A statement demanded by a script and attested by a proof is one statement: roots, backings and all other fields agree |
| Promises.SoleSuccessorExact | docs/protocol.md:68-72 | Output 0 is the only output with the program's script exactly when the step is a collection or a settlement attested for another destination |
| Promises.SuccessorShared | docs/protocol.md:68-72 | The failing input, from every unspent head: the settlement paying out to the program's own script confirms with two outputs that pay the program |
| Promises.ProgramDestination | crates/protocol/src/lib.rs:290-308 | The account relation accepts that destination wherever it accepts another, given the signature for it |
| Promises.OnlyFirstOutputSpent | script/bridge.py:97-128 | Only output 0 with the program's script is ever spent, so such a payout never continues or forks a bridge |
| Promises.CollectionMoneyExact | docs/protocol.md:164-165 | An accepted collection keeps backing and balances in the money range exactly when the old backing and both deposits together are in it |
| Promises.MoneyRangeLeft | crates/protocol/src/lib.rs:227-250 | The failing input: two deposits into an empty bridge that the relation accepts beyond the money range |
| Promises.SettlementMoneyKept | crates/protocol/src/lib.rs:310-379 | A settlement never leaves the money range |
| Promises.MoneyRangeOnChain | docs/protocol.md:152-165 | After any number of confirmed steps backing and balances are in the money range exactly when the amount of the head output is |
| Extension.CoinbaseExtends | tests/feature_bridge.py:174-191 | A confirmed history takes in any new coinbase entry |
| Extension.PaymentExtends | tests/feature_bridge.py:174-207 | Anyone may pay anyone: a new entry that spends neither the program nor a deposit confirms whatever outputs it creates, heads and deposits included |
| BridgeRuns.CollectionRuns | script/bridge.py:403-433 | For every witness stack, every verifier script and every meaning of its other opcodes the collection leaf fails, or the transaction is a collection as claimed and the verifier runs on exactly the items below the claim |
| BridgeRuns.DefinitionMayAccept | script/bridge.py:403-433 | A verifier that opens with a function definition, an opcode without a meaning here, runs by whatever meaning it is given and is not bound to fail |
| BridgeRuns.SettlementRuns | script/bridge.py:436-450 | The same for the settlement leaf |
| BridgePrograms.CollectionMeans | script/bridge.py:403-433 | From any bindings of the ten witness names the emitted calls accept exactly the transactions described by CollectionAccepted, and leave the base as it was |
| BridgePrograms.SettlementMeans | script/bridge.py:436-450 | The same for the six settlement names |
| Acceptance.CollectionExactly | script/bridge.py:403-433 | What the collection program accepts, field by field with all numbers written out: form of the transaction, its three outputs, both deposit scripts, the head, the one statement, and the public input |
| Acceptance.SettlementExactly | script/bridge.py:436-450 | The same for a settlement that carries a given statement |
| Acceptance.CollectibleExactly | script/deposit.py:247-320 | The same for the collection path of a deposit |
| Acceptance.CovenantExact | script/deposit.py:97-122 | The form both programs demand of their transaction, field by field |
| Heads.HeadExact | script/bridge.py:131-187 | The byte checks of predecessor and ancestor accept, of well-formed transactions, exactly the genesis of the claimed bridge and its later steps, with the sponsor paid where the program wants it |
| Heads.JoinsExact | script/deposit.py:145-211 | The same for the head checks of a deposit |
| BridgePrograms.BuildCollectionProgram | script/bridge.py:403-433 | Refuses exactly the bad constants; otherwise returns the prefix followed by the verifier, from a call sequence whose names always resolve and balance |
| BridgePrograms.BuildSettlementProgram | script/bridge.py:436-450 | The same for the settlement leaf, which ignores the account keys |
| BridgeRuns.Deploy | script/bridge.py:403-450 | Both programs of a deployment, built from one set of constants; the only refusals are bad constants and scripts of 2^32 bytes |
| BridgeHead.ParentStep | script/bridge.py:131-187 | The head authentication accepts exactly the claims that ParentAccepted describes, and binds the old root |
| BridgeHead.TransitionAncestorStep | script/bridge.py:97-128 | The ancestor branch accepts exactly an ancestor linked by txid, of one of three shapes, paying the program in output 0 |
| BridgeHead.GenesisParentStep | script/bridge.py:141-159 | The genesis branch accepts exactly GenesisParent |
| BridgeHead.ContinuationStep | script/bridge.py:161-182 | The continuation branch accepts exactly ContinuedParent |
| BridgeHead.CollectionContextStep | script/deposit.py:97-122 | The collection context with the index check accepts exactly plain 4-by-3 transactions of 34-byte spent scripts, the last the sponsor's, run for input 0 |
| BridgeHead.SettlementContextStep | script/bridge.py:339-365 | The settlement context accepts exactly the 2-by-4 ones, although it tests fewer markers |
| BridgeHead.AuthenticateParent | script/bridge.py:131-187 | Emits the calls that ParentStep characterizes |
| BridgeHead.AuthenticateTransitionAncestor | script/bridge.py:97-128 | Emits the calls that TransitionAncestorStep characterizes |
| BridgeHead.CollectionContext | script/deposit.py:97-122 | Emits the calls that CollectionContextStep characterizes |
| BridgeHead.SettlementContext | script/bridge.py:339-365 | Emits the calls that SettlementContextStep characterizes |
| BridgeOutputs.CollectionOutputsStep | script/bridge.py:313-336 | Adding, subtracting, padding and cutting rebuild the outputs byte for byte: accepted exactly when the outputs are successor, change and caboose |
| BridgeOutputs.SettlementOutputsMean | script/bridge.py:368-400 | With a 320-byte statement the settlement comparison holds exactly for successor, payout, change and caboose |
| BridgeOutputs.BackingStep | script/bridge.py:214-220 | ADD, ADD and fixed_width yield the 8-byte encoding of the sum of three spent amounts, kept modulo 2^64 |
| BridgeOutputs.ExpectedCollectionOutputs | script/bridge.py:313-336 | Emits the calls that CollectionOutputsStep characterizes |
| BridgeOutputs.ExpectedSettlementOutputs | script/bridge.py:368-400 | Emits the calls of the settlement outputs |
| BridgeDeposits.DepositStep | script/deposit.py:407-445 | For every witness the in-script reconstruction accepts exactly a spent script committing to the deposit leaf of a registered recipient, this bridge and this refund key |
| BridgeDeposits.ChooseStep | script/bridge.py:223-247 | Any encoding of a recipient number selects by value; only 0, 1 and 2 pass |
| BridgeDeposits.RebuiltIsLeaf | script/deposit.py:407-428 | The reconstructed bytes are those of deposit_leaf |
| BridgeDeposits.Choose | script/deposit.py:373-404 | Emits the three-way choice shared by recipient prefixes and account keys |
| BridgeDeposits.AuthenticateDeposit | script/deposit.py:407-445 | Emits the calls that DepositStep characterizes |
| BridgeStatement.BindCollectionStep | script/bridge.py:250-270 | The collection binding accepts one byte string: the encoded statement of this transaction, its authenticated states and its recipients |
| BridgeStatement.BindSettlementStep | script/bridge.py:273-281 | The settlement binding accepts exactly encoded statements of this transaction whose payout is within the head |
| BridgeStatement.HeaderStep | script/bridge.py:194-211 | The header comparisons hold exactly when action, identity, prevout, roots and old backing are this transaction's |
| BridgeStatement.RecordStep | script/bridge.py:256-270 | A deposit record is accepted exactly with this input's prevout and amount, the number's four-byte form and that recipient's key |
| BridgeStatement.StatementHeader | script/bridge.py:194-211 | Emits the calls that HeaderStep characterizes |
| BridgeStatement.BindCollectionStatement | script/bridge.py:250-270 | Emits the calls that BindCollectionStep characterizes |
| BridgeStatement.BindSettlementStatement | script/bridge.py:273-281 | Emits the calls that BindSettlementStep characterizes |
| BridgeDigest.DigestStep | script/bridge.py:284-310 | Mask, 32-step reversal, DEPTH/PICK and padding accept exactly a second stack item of at most 32 bytes whose little-endian value is the big-endian value of the masked digest; nothing on the stack changes |
| BridgeDigest.BindStatementDigest | script/bridge.py:284-310 | The loop emits the calls that DigestStep characterizes |
| Completeness.CollectionCompletes | tests/feature_bridge.py:235-260 | For every head, two deposits into its bridge and a sponsor coin worth at least 10,330, the assembled collection with its statement satisfies the whole program |
| Completeness.SettlementCompletes | tests/feature_bridge.py:290-311 | For every head and every payout within it, the assembled settlement satisfies the whole program |
| Completeness.CollectionProvable | crates/protocol/src/lib.rs:253-271 | The statement the program demands of the assembled collection is the one the account relation emits |
| Completeness.SettlementProvable | crates/protocol/src/lib.rs:381-403 | The statement the program demands of the assembled settlement, with the digests of its three signed messages, is the one the account relation emits |
| Completeness.CollectionStackCompletes | tests/feature_bridge.py:356-391 | The witness in the host's order reaches the verifier on the proof's own stack |
| Completeness.SettlementStackCompletes | tests/feature_bridge.py:399-418 | The same for a settlement |
| Completeness.DepositCompletes | tests/feature_bridge.py:382-391 | In the same collection both deposits open by their collection path, with parent, old state and an empty flag as the witness |
| Progress.HeadAdvances | tests/feature_bridge.py:356-418 | Liveness over whole runs: from any unspent head a confirmed history has reached, the host's collection of any two unspent deposits, or its settlement with any payout within the head, confirms with an unspent sponsor coin and a proof the verifier accepts, and the bridge then has one head more |
| Progress.StepConfirms | tests/feature_bridge.py:235-311 | The same from any head, the genesis transaction's included: every input resolves, every spend runs its revealed script to success, nothing is spent twice |
| Progress.DescribedIsReady | tests/feature_bridge.py:313-354 | A proof input describing the planned collection or settlement has the demanded statement, so an accepting verifier is all that a ready proof needs |
| Completeness.ReachableHead | script/bridge.py:403-450 | Every head a confirmed history reaches is one the completeness theorems apply to |
| Deposit.BodyMeans | script/deposit.py:247-320 | The collection body accepts exactly the transactions collecting the deposit into its own bridge, and leaves the base and a true value |
| Deposit.DepositCollectionBody | script/deposit.py:247-320 | Emits the body from a call sequence whose names always resolve |
| DepositLeaf.CollectPathMeans | script/deposit.py:323-366 | For every witness stack without the refund flag: the leaf accepts exactly parent, old state and flag in a collecting transaction |
| DepositLeaf.RefundPathMeans | script/deposit.py:323-345 | With the refund flag the leaf accepts exactly one signature under the refund key, whatever the transaction |
| DepositLeaf.LeafRuns | script/deposit.py:323-345 | A false flag enters the body with exactly the four committed items above the witness; a true flag reaches the signature check with an empty alternate stack |
| DepositLeaf.LeafInjective | script/deposit.py:348-366 | The five committed fields are recoverable from the leaf bytes |
| DepositLeaf.LeafLength | script/deposit.py:431-432 | Every leaf has the length the bridge program hashes for it |
| DepositLeaf.LeafAssembled | script/deposit.py:323-366 | The host's concatenation is the assembly of the two-path instructions |
| DepositLeaf.DepositFixedParts | script/deposit.py:323-345 | The constant parts, refused exactly for a bad recipient or key size |
| DepositLeaf.DepositLeafBytesOf | script/deposit.py:348-366 | The leaf bytes, refused exactly for fields of the wrong size |
| Deposit.ParentOutputStep | script/bridge.py:73-94 | The output checks of a predecessor accept exactly amount, program, caboose value and caboose at the offsets of its shape |
| Deposit.CheckParentOutput | script/deposit.py:125-142 | Emits the calls that ParentOutputStep characterizes |
| Transactions.ShapeIsSerialization | script/linearization.py:177-204 | The fixed-offset test passes exactly on the serialization of a plain transaction, which is then the only well-formed transaction with that serialization |
| Transactions.PlainFields | script/bridge.py:164-170 | Every prevout, amount and script offset the programs slice reads the field meant |
| Transactions.ParseIsInverse | script/deposit.py:71-94 | Reading the fields off the offsets inverts serialization |
| Transactions.EncodeInjective | script/bridge.py:134-137 | No two well-formed transactions share a serialization, so a txid names one transaction |
| Linearization.OneInputTwoOutputStep | script/linearization.py:183-191 | The emitted 137-byte check accepts exactly the 1-by-2 shape |
| Linearization.TwoInputThreeOutputStep | script/linearization.py:194-204 | The emitted 221-byte check accepts exactly the 2-by-3 shape |
| Linearization.CollectionTransactionStep | script/deposit.py:71-79 | The emitted 303-byte check accepts exactly the 4-by-3 shape |
| Linearization.SettlementTransactionStep | script/deposit.py:82-94 | The emitted 264-byte check accepts exactly the 2-by-4 shape, its size compared as bytes |
| Linearization.CheckOneInputTwoOutput | script/linearization.py:183-191 | Emits the calls that OneInputTwoOutputStep characterizes |
| Linearization.CheckTwoInputThreeOutput | script/linearization.py:194-204 | Emits the calls that TwoInputThreeOutputStep characterizes |
| Linearization.CheckCollectionTransaction | script/deposit.py:71-79 | Emits the calls that CollectionTransactionStep characterizes |
| Linearization.CheckSettlementTransaction | script/deposit.py:82-94 | Emits the calls that SettlementTransactionStep characterizes |
| Linearization.MakeCabooseStep | script/linearization.py:162-174 | The emitted calls leave the caboose script of the named state |
| Linearization.MakeCaboose | script/linearization.py:162-174 | Emits the calls that MakeCabooseStep characterizes |
| TxContext.ContextStep | script/linearization.py:207-225 | The raw OP_TX comparisons accept exactly plain transactions spending output 0, and bind the three field lists |
| TxContext.MarksMean | script/deposit.py:116-119 | Length markers at every 35th byte of the right total size mean that every spent script has 34 bytes |
| TxContext.CheckContext | script/deposit.py:97-115 | Emits the calls that ContextStep characterizes |
| Building.Correct | script/linearization.py:78-159 | For every legal sequence of builder calls, any nesting of branches and any base stack, the flat code with its condition stack agrees with the structured meaning: one value per tracked name, each the value bound to it, over the untouched base |
| Building.Balanced | script/linearization.py:78-159 | On any stack, also one too short, code that succeeds changes the height as the names say and restores alternate stack and conditions |
| Building.EmitSkips | script/linearization.py:137-147 | Code under a false enclosing condition does nothing |
| Building.BytesRun | script/linearization.py:78-159 | The emitted bytes, in front of any other script, run as the structured meaning followed by that script |
| Building.LookupAt | script/linearization.py:101-104 | The depth computed for a name picks the value most recently bound to it |
| BuilderClass.Builder.constructor | script/linearization.py:79-81 | Starts with no code and the given names |
| BuilderClass.Builder.Push | script/linearization.py:83-85 | Appends the push and one anonymous name |
| BuilderClass.Builder.Number | script/linearization.py:87-89 | Appends the number and one anonymous name |
| BuilderClass.Builder.Op | script/linearization.py:91-96 | Removes the inputs, appends the opcode and anonymous outputs |
| BuilderClass.Builder.SetName | script/linearization.py:98-99 | Renames the top |
| BuilderClass.Builder.Get | script/linearization.py:101-104 | Appends a PICK of the last position of the name |
| BuilderClass.LastIndex | script/linearization.py:102-102 | The greatest index at which a name stands |
| BuilderClass.Builder.Slice | script/linearization.py:106-110 | The calls of a slice |
| BuilderClass.Builder.EqualSlice | script/linearization.py:112-115 | The calls of a compared slice |
| BuilderClass.Builder.RequireSize | script/linearization.py:117-122 | The calls of a size check |
| BuilderClass.Builder.FixedWidth | script/linearization.py:127-131 | The calls of a width change |
| BuilderClass.Builder.Tx | script/linearization.py:133-135 | The calls of a field read |
| BuilderClass.Builder.BeginBranch | script/linearization.py:138-139 | Opens a branch with the condition popped |
| BuilderClass.Builder.ElseBranch | script/linearization.py:141-143 | Turns to the other side with the names of the opening |
| BuilderClass.Builder.EndBranch | script/linearization.py:145-147 | Closes the branch, both sides having left the same names |
| BuilderClass.Builder.Finish | script/linearization.py:149-153 | Drops every tracked item and leaves a true value |
| BuilderClass.Builder.FinishPrefix | script/linearization.py:155-159 | Drops every tracked item and nothing below |
| Calls.FixedWidthStep | script/linearization.py:127-131 | fixed_width turns any encoding of a number into its encoding of that width |
| Calls.SliceStep | script/linearization.py:106-110 | A slice is the substring, whatever out-of-range substrings do |
| Bytes.PadAndCut | script/linearization.py:127-131 | Padding with zeros and cutting to a width is the encoding of the value in that width |
| Transitions.ApplyCollection | crates/protocol/src/lib.rs:219-280 | The imperative collection gives exactly the result, or the first error, of a specification without the final backing check, which therefore never fails; CollectionGuarantees and CollectionRefusals say from the fields what these are |
| Transitions.CollectionExact | crates/protocol/src/lib.rs:219-250 | A collection succeeds exactly when keys and backing are valid, outpoints strictly increase, values are positive, recipients in range, and the old backing plus both deposits fits |
| Transitions.CollectionGuarantees | crates/protocol/src/lib.rs:227-271 | Balances are credited exactly, same-recipient deposits accumulating; keys and nonces stay; old and new root are those of the two states; backing equals reserve plus balances; the statement encodes these |
| Transitions.ApplySettlement | crates/protocol/src/lib.rs:310-412 | The imperative settlement gives exactly the result, or the first error, of a specification without the adds, subtraction and re-check that never fail; SettlementGuarantees and SettlementRefusals say from the fields what these are |
| Transitions.SettlementExact | crates/protocol/src/lib.rs:310-379 | A settlement succeeds exactly under an explicit set of conditions on its input |
| Transitions.SettlementGuarantees | crates/protocol/src/lib.rs:337-412 | Each balance moves by exactly the transfer, fee and withdrawal; keys stay, nonces 0 and 1 advance; old and new root are those of the two states; the new backing equals reserve plus balances and is never below the reserve |
| Refusals.CollectionRefusals | crates/protocol/src/lib.rs:219-250 | Each of the seven errors of a collection is returned exactly under the stated condition on the input fields |
| Refusals.SettlementRefusals | crates/protocol/src/lib.rs:310-379 | Each of the nine errors of a settlement is returned exactly under the stated condition on the input fields |
| Refusals.KeyErrorFrom | crates/protocol/src/lib.rs:67-81 | The first account whose key is not canonical or repeats an earlier one decides which of the two key errors is returned |
| Transitions.WithdrawalInjective | crates/protocol/src/lib.rs:290-308 | A withdrawal message determines identity, nonce, amount and destination |
| Transitions.WithdrawalMessage | crates/protocol/src/lib.rs:290-308 | The message, refused exactly for a zero amount or a destination that is not 34 bytes starting 51 20 |
| Transitions.ScopedTransferMessage | crates/protocol/src/lib.rs:282-288 | The message belongs to one bridge and one native-message hash among all bridges and native messages, and has fixed length |
| Transitions.ScopedInjective | crates/protocol/src/lib.rs:282-288 | A transfer scoped to one bridge authorizes nothing in another: the message determines the identity and the hash of the native message |
| Transitions.MessagesApart | crates/protocol/src/lib.rs:282-308 | No scoped transfer message is a withdrawal message, so neither signature serves for the other |
| Transitions.StatementPrefix | crates/protocol/src/lib.rs:197-217 | The buffer filled piece by piece is the statement prefix |
| Transitions.EncodeCompactSize | crates/protocol/src/lib.rs:447-463 | The four cases append the compact size |
| Transitions.ValidateProofInput | crates/protocol/src/lib.rs:163-168 | The statement a valid proof input carries, or its error |
| Accounts.RootPreimageInjective | crates/protocol/src/lib.rs:83-93 | The hashed bytes determine every key, balance and nonce |
| Formats.RootPreimageForm | crates/protocol/src/lib.rs:83-93 | What a root hashes, at offsets: 166 bytes with the domain, then number, key, balance and nonce of each account |
| Formats.WithdrawalForm | crates/protocol/src/lib.rs:290-308 | The withdrawal message at offsets: 115 bytes with domain, identity, account one, nonce, amount and destination |
| Formats.ScopedForm | crates/protocol/src/lib.rs:282-288 | The scoped transfer message at offsets: 99 bytes with domain, identity and hash of the native message |
| Formats.StatementForm | crates/protocol/src/lib.rs:197-217 | Both statements at offsets, with the domain as text, version one and action one or two |
| Formats.CompactSizeForms | crates/protocol/src/lib.rs:447-463 | The four forms of a compact size, with their markers |
| Formats.GenesisStateForm | crates/protocol/src/lib.rs:414-421 | A genesis state at offsets: UTXOLIN, version one, kind zero, root |
| Formats.ActiveStateForm | crates/protocol/src/lib.rs:423-431 | An active state at offsets: UTXOLIN, version one, kind one, identity, root |
| Formats.CabooseForm | script/linearization.py:73-75 | The caboose pays the hash of 6a 24, the state hash and four zero bytes |
| Formats.LeafPreimageForm | script/deposit.py:51-53 | What a leaf hash covers, at offsets: the digest of TapLeaf twice, c2, the length and the script |
| Formats.TweakPreimageForm | script/deposit.py:407-428 | What the output key covers, at offsets: the digest of TapTweak twice, the internal key and the leaf hash |
| Formats.LeafForm | script/deposit.py:323-366 | The bytes of a deposit leaf at offsets: the four committed items pushed and stashed, then the refund path and the body |
| Formats.TapSpkForm | script/deposit.py:407-445 | The output script is 51 20 and the internal key tweaked by the hash of whatever has those 128 bytes |
| Formats.TxidTwice | script/linearization.py:57-58 | A txid hashes twice |
| Formats.SignedNumForm | script/linearization.py:87-89 | A pushed number is the only minimal signed encoding of its value |
| Formats.NumberBytes | script/linearization.py:87-89 | Zero and the numbers to sixteen are one opcode, larger ones a push of that encoding |
| Formats.ShortestPush | script/linearization.py:83-85 | No encoding of a push is shorter |
| Accounts.Root | crates/protocol/src/lib.rs:83-93 | The piecewise hash is the hash of the root preimage |
| Accounts.AccountRoot | script/bridge.py:56-70 | The deployment script computes the same root, and raises exactly for other than three 32-byte keys, another count of balances or nonces, or a number outside its width |
| Accounts.Validate | crates/protocol/src/lib.rs:67-81 | The loop returns the first key error in account order |
| Accounts.KeyErrorMeans | crates/protocol/src/lib.rs:67-81 | There is none exactly when all keys are canonical and pairwise different |
| Accounts.Backing | crates/protocol/src/lib.rs:95-99 | Reserve plus balances, or an arithmetic error exactly when that exceeds 64 bits |
| Accounts.RequireBacking | crates/protocol/src/lib.rs:177-182 | No error exactly when the supplied backing is the total |
| Accounts.LexIsNumeric | crates/protocol/src/lib.rs:223-225 | Array order on equal lengths is numeric order |
| Statements.StatementInjective | crates/protocol/src/lib.rs:253-271 | Equal statement bytes mean the same action with the same fields, across both actions |
| Statements.CollectionAt | crates/protocol/src/lib.rs:253-271 | A collection statement is its prefix and its two records at fixed offsets, and nothing else |
| Statements.SettlementAt | crates/protocol/src/lib.rs:389-403 | A settlement statement is its fields at fixed offsets, and nothing else |
| Envelope.Decode | crates/prover-host/src/wrapper.rs:14-46 | An envelope is accepted exactly at 356 bytes with the right prefix, a zero exit code, the right root, and canonical program key, root and nonce, and otherwise refused for the first of these that fails; the statement digest never causes a refusal |
| Envelope.MaskedIsCanonical | crates/prover-host/src/wrapper.rs:32-41 | The masked digest is below the scalar modulus |
| Envelope.MaskIsModulus | script/bridge.py:284-289 | Masking keeps the digest modulo 2^253 |
| Envelope.Field | crates/prover-host/src/ark_adapter.rs:10-16 | Popping trailing zeros keeps the value and leaves no trailing zero |
| Envelope.StrippedUnique | crates/prover-host/src/ark_adapter.rs:10-16 | The stripped encoding of a value is unique |
| Envelope.ExportMeetsScript | crates/prover-host/src/ark_adapter.rs:108-110 | An exported scalar passes the script's digest check exactly when it is the masked digest |
| Folding.Export | crates/prover-host/src/ark_adapter.rs:55-117 | An export succeeds exactly for a well-formed envelope whose proof the full key verifies and whose folded key is finite, so folded verification never fails on its own; its key is the one published, its inputs are the masked digest and the nonce, and a failure names the first check that fails |
| Folding.DeploymentKey | crates/prover-host/src/ark_adapter.rs:32-53 | The published constants are the folded key of the program and the recursion root, refused exactly for a wrong count, a noncanonical program or an infinite point, in this order |
| Folding.FoldingKeepsVerdict | crates/prover-host/src/ark_adapter.rs:85-101 | A proof verifies under the folded key with two inputs exactly when it does under the full key with five, because the exit code is zero |
| Folding.FoldingKeepsPoint | crates/prover-host/src/ark_adapter.rs:86-91 | The folded and the full key combine to one input point |
| Functions.NestedWorkBounded | patches/gsr-core-runtime.patch:156-202 | A top-level script executes at most its own length plus 4,000,000 opcodes over all bodies it invokes, and ends with no function active |
| Functions.RunKeeps | patches/gsr-core-runtime.patch:134-202 | Every run, however it ends, keeps the counters exact, replaces no body, restores the active table, and is paid for by its script's bytes and the bytes it newly invokes |
| Functions.RunScript | patches/gsr-core-runtime.patch:96-202 | Nested execution terminates, by inactive identifiers and then remaining script, and restores the active table on every exit |
| Functions.InvokeVerdict | patches/gsr-core-runtime.patch:158-202 | An affordable invocation charges allowance and budget; a body whose scan is true ends the script in success, one whose scan is false in failure, and otherwise the verdict is the body's own |
| Functions.InvokeRefused | patches/gsr-core-runtime.patch:158-180 | Every other invocation fails |
| Functions.RunVerdict | patches/gsr-core-runtime.patch:182-201 | A run succeeds early only when the scan of some stored body says so, and loses no body |
| Functions.NoEarlySuccess | patches/gsr-core-runtime.patch:182-201 | Under a scan that is never true no run ends in early success |
| Functions.DefineVerdict | patches/gsr-core-runtime.patch:136-154 | Running a definition stores the body below a new, well encoded name under that name, and fails for anything else |
| Functions.RunRefused | patches/gsr-core-runtime.patch:121-130 | A script fails that pushes more than an element may hold, marks a signature position within a function, or ends inside a conditional |
| Functions.Interpreter.EvalScript | patches/gsr-core-runtime.patch:96-221 | The interpreter on shared mutable state does what RunScript says |
| Functions.Interpreter.InvokeFunction | patches/gsr-core-runtime.patch:156-202 | Invocation does what one step of the specification says, with the active table restored on every exit |
| Functions.Interpreter.DefineFunction | patches/gsr-core-runtime.patch:134-154 | A definition is stored exactly when the identifier is new and well encoded |
| Functions.Interpreter.SizesAllowed | patches/gsr-core-runtime.patch:208-221 | The guarded subtractions decide two sums: definitions and both stacks together stay within the entry limit, and stored bodies and all their bytes within the byte limit |
| Functions.ParseIdMinimal | patches/gsr-core-runtime.patch:25-36 | Only the minimal encoding of a byte names a function |
| Functions.AllowanceExact | patches/gsr-core-runtime.patch:173-175 | The wrapped comparison enforces the allowance exactly for bodies within it; the exact condition for larger bodies is stated |
| Functions.AllowanceEscaped | patches/gsr-core-runtime.patch:173-175 | A first body one byte past the allowance passes the comparison |
| Functions.WorkEscapes | patches/gsr-core-runtime.patch:134-202 | A run past the work bound when an element may exceed the allowance: four bytes of script execute 4,000,005 opcodes |
| Functions.WorkBoundExact | patches/gsr-core-runtime.patch:134-202 | The work bound holds of every script, stack and budget exactly when no element may exceed the allowance |

## Left out

- Ledger.Confirmed: does not model blocks, reorganisation, fees in the mempool or coinbase rules beyond the null
  prevout index.
- Attested.ProgramSpendStepped: does not check proofs; soundness of the appended verifier is a rule of the ledger.
- Functions.Interpreter.EvalScript: does not model opcode costs beyond the copy of a body, nor OP_MULTI repeats; the
  other opcodes of the unshown interpreter are a parameter that yields no element over the limit.
  Of a failed run it says how many opcodes were executed and that the active table is restored, not what the stacks
  hold.
- Flows.CollectionConserves: covers what a transaction spends and creates, not how miners take the fee.
- Stack, element and script-cost limits of the script machine, and scripts of 2^32 bytes or more.
- Folding.Export: takes the pairing equation, point decoding and curve arithmetic as parameters; the group laws it needs
  are a precondition.
- The Groth16 verifier script, pairings and curve arithmetic: external mathematics.
- BLS signatures and hash-to-curve: one predicate on key, message and signature.
- `build_binding_test_program` and `build_collection_test_program`: development stubs; their shape checks and shared
  parts are modelled.
- `bridge_taproot` and `control_block`: the two-leaf tree; the ledger takes that a spend of the program reveals one of
  the two leaves.
- Host assembly of requests, fixtures, command-line drivers and the guest entry point: file handling and process
  launching.
- `patches/gsr-verifier.patch` and `patches/sp1-deferred-memory.patch`: changes to code that is not shown.
