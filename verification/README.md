# State-tree invariant checker, modelled in Dafny

This project models the checker of the builtin-actors state tree
(`actors/state/src/check.rs`). The checker walks the state tree in map order. It
decodes each key into an address, then visits the actor stored under it:

- a key whose address protocol is not ID gets the diagnostic
  "unexpected address protocol in state tree root: {key}", recorded under the prefix "{key} ";
- the actor's balance is added to a running total;
- the actor's code is looked up in the manifest;
- an Init actor's state is loaded and given to the Init checker, whose messages are recorded
  under "{key} init: " and whose summary replaces the previous one;
- a Cron actor's state is loaded and then dropped;
- every other known kind does nothing more.

Four conditions stop the walk with a single error, "Failed iterating map: {cause}":
a key that is not an address, an unknown code, a missing Init or Cron state, and state
bytes that do not decode.

The source computes the total and the diagnostics but does not return them: it returns
only success or the error. There is no expected-total parameter, no comparison of the
total against anything, no report, and no summaries beyond the Init one. The model
follows the code on all of these points.

Layout:

- `wrappers.dfy`: `Option`, `Result`, `Outcome`.
- `model.dfy` (module `Model`): the data model and the functional meaning of one visit
  (`Fault`, `EntryMessages`, `Apply`) and of the whole walk (`Walk`, `Audit`).
- `properties.dfy` (module `Properties`): reference definitions that do not follow the
  walk step by step. They are the first faulting entry, the sum of the visited balances,
  the concatenation of the visited entries' messages and the last Init summary. The file
  also holds the lemmas that tie `Walk` and `Audit` to them.
- `state_check.dfy` (module `StateCheck`): the checker as a class. Its fields are
  `totalFil`, `msgs` and `initSummary`. `Visit` is the closure body, `ForEach` is the
  loop of `Tree::for_each`, and `CheckStateInvariants` is the entry point.

Collaborators the checker calls but does not define are parameters:

- the blockstore is a `map<Cid, seq<byte>>`, and the manifest is a `map<Cid, Kind>`;
- `Address::from_bytes`, the CBOR decoding of the Init and Cron states, and
  `init::check_state_invariants` are the function fields of `Externals`.

Nothing is assumed about these collaborators. An address and a CID are represented by
their protocol tag (addresses only) and their text rendering, which is what the messages
use.

## Model

| member | source | states |
|---|---|---|
| `Model.Prefixed` | actors/state/src/check.rs:102 | a batch added under a prefix keeps its length and order, and element i is the prefix followed by message i |
| `Properties.FirstFault` | actors/state/src/check.rs:53-57 | the index of the first entry whose key does not decode or whose visit fails; every earlier entry is fault-free |
| `Properties.WalkFault` | actors/state/src/check.rs:53-58 | the walk ends with the fault of the first faulting entry, and with no fault when no entry faults |
| `Properties.WalkTotal` | actors/state/src/check.rs:85-97 | the total is the sum of the balances of the entries that reached the callback, including a faulting entry whose key decoded |
| `Properties.WalkMessages` | actors/state/src/check.rs:89-103 | the diagnostics are the visited entries' messages concatenated in map order |
| `Properties.WalkInitSummary` | actors/state/src/check.rs:87-103 | the Init summary is that of the last visited Init actor whose state loaded, or the initial one (None at the start) if there was none |
| `Properties.WalkStopsAtFault` | actors/state/src/check.rs:53-57 | entries after a faulting one are never visited: appending entries changes neither the state nor the result |
| `Properties.EntryMessagesScoped` | actors/state/src/check.rs:90-102 | every message recorded for an entry starts with "{key} " |
| `Properties.ProtocolMessageOnce` | actors/state/src/check.rs:92-94 | the unexpected-protocol message occurs exactly once among an entry's messages when its protocol is not ID, and never when it is ID |
| `Properties.OtherKindsOnlyCounted` | actors/state/src/check.rs:98-115 | System, Account, Power, Miner, Market, PaymentChannel, Multisig, Reward and VerifiedRegistry actors never fault; they add only their balance and the protocol message, and the result does not depend on the store |
| `Properties.UnknownCodeFault` | actors/state/src/check.rs:95-118 | a code absent from the manifest faults with that code and the address, after the balance and protocol message are recorded |
| `Properties.InitActor` | actors/state/src/check.rs:99-104 | an Init actor faults exactly when its state is missing ("InitState is empty") or does not decode; otherwise the Init checker's messages follow in order under "{key} init: " and its summary is stored |
| `Properties.CronActor` | actors/state/src/check.rs:105-107 | a Cron actor faults exactly when its state is missing ("CronState is empty") or does not decode; otherwise nothing beyond the balance and the protocol message is recorded |
| `Properties.AuditPassIff` | actors/state/src/check.rs:80-123 | checking a tree succeeds if and only if no entry faults |
| `Properties.AuditResult` | actors/state/src/check.rs:53-58 | a failing check returns the first faulting entry's cause, wrapped once |
| `Properties.AuditErrorMessage` | actors/state/src/check.rs:58 | a check fails exactly when some entry faults, and its error text is "Failed iterating map: " followed by the message of the first faulting entry's cause |
| `Properties.MissingStateAborts` | actors/state/src/check.rs:71-77 | when the first faulting entry is an Init (Cron) actor with no state under its head, the check fails with exactly "Failed iterating map: InitState is empty" ("CronState is empty") |
| `Properties.UnknownCodeAborts` | actors/state/src/check.rs:116-118 | if the first faulting entry has an unknown code, the check fails with that code and that entry's address |
| `Properties.UnknownCodeMessage` | actors/state/src/check.rs:117 | the unknown-code error text contains the code after the preamble and ends with the address |
| `StateCheck.Checker.constructor` | actors/state/src/check.rs:84-87 | the checker starts with a zero total, no messages and no Init summary |
| `StateCheck.Checker.Add` | actors/state/src/check.rs:93 | appends one message under the given prefix |
| `StateCheck.Checker.AddAll` | actors/state/src/check.rs:102 | appends a batch of messages, in order, under the given prefix |
| `StateCheck.Checker.Visit` | actors/state/src/check.rs:89-121 | the new state is `Apply` of the old one (total, messages, Init summary), and the fault returned is `Fault` of the entry |
| `StateCheck.Checker.ForEach` | actors/state/src/check.rs:49-59 | the final state and result are those of `Walk`; it succeeds if and only if no entry faults; the total, messages and Init summary are the reference sums, concatenation and last summary over the entries that reached the callback |
| `StateCheck.CheckStateInvariants` | actors/state/src/check.rs:80-123 | returns exactly `Audit` of the tree: success, or the wrapped cause of the first faulting entry |

## Left out

- HAMT internals: the map is modelled as its entries in iteration order. A failure to load a HAMT node or to decode an `Actor` value is not modelled.
- Blockstore I/O: a read error from the blockstore (as opposed to a missing block or undecodable bytes) is not modelled.
- CBOR encoding and the structure of a `Cid`: a CID is represented by its text. The model does not derive that text from bytes.
- `Address::from_bytes` and `Address::protocol` internals: decoding is a partial function supplied as a parameter, and an address carries its protocol tag and its text. The protocol tags are ID, Secp256k1, Actor (`ActorHash`) and BLS.
- The body of `init::check_state_invariants`: it is an uninterpreted function of the decoded state and the store. The other kinds' checkers are not called by the source either.
- `MessageAccumulator`'s shared interior: the accumulator is one ordered sequence of fully prefixed strings held by the checker.
- `TokenAmount`/`BigInt` precision: balances and the total are unbounded `int`.
- The generic callback of `Tree::for_each`: Dafny cannot pass a state-changing method as a value, so `Checker.ForEach` calls `Checker.Visit` directly.
- `call_seq_num` is carried in `Actor` but, as in the source, never read.
