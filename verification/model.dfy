/**
 * Data model of the state-tree invariant checker (actors/state/src/check.rs) and the
 * functional specification of one traversal of the tree.
 *
 * The collaborators the checker calls but does not define are abstracted:
 *  - the blockstore is a map from a content identifier to the bytes stored under it;
 *  - the builtin-actor manifest is a map from a code identifier to an actor kind;
 *  - decoding an address from its key bytes, decoding the Init and Cron states from
 *    their bytes, and the Init actor's own invariant checker are the function fields
 *    of `Externals`, about which nothing is assumed.
 */
module Model {
  import opened Wrappers

  newtype byte = x: int | 0 <= x < 0x100
  newtype u64 = x: int | 0 <= x < 0x1_0000_0000_0000_0000

  /** A content identifier, represented by its textual rendering. */
  datatype Cid = Cid(text: string)

  /** The address protocols; only `ID` is legitimate for a state-tree key. */
  datatype Protocol = ID | Secp256k1 | ActorHash | BLS

  /** A decoded address: its protocol tag and its textual rendering. */
  datatype Address = Address(protocol: Protocol, text: string)

  /** The actor record stored under each key of the state tree. */
  datatype Actor = Actor(code: Cid, head: Cid, callSeqNum: u64, balance: int)

  /** The builtin actor kinds the manifest maps code identifiers to. */
  datatype Kind =
    | System | Init | Cron | Account | Power | Miner | Market
    | PaymentChannel | Multisig | Reward | VerifiedRegistry

  type Manifest = map<Cid, Kind>
  type Store = map<Cid, seq<byte>>

  /** The decoded states and the Init checker's summary are opaque to this model. */
  type InitState
  type CronState
  type InitSummary

  /** Library code the checker calls: address decoding, state decoding, the Init checker. */
  datatype Externals = Externals(
    fromBytes: seq<byte> -> Result<Address, string>,
    decodeInit: seq<byte> -> Result<InitState, string>,
    decodeCron: seq<byte> -> Result<CronState, string>,
    checkInit: (InitState, Store) -> (InitSummary, seq<string>))

  /** The state tree: its entries (raw key, actor) in map order, and the store it lives in. */
  datatype Tree = Tree(entries: seq<(seq<byte>, Actor)>, store: Store)

  /** Everything one traversal reads besides the entries themselves. */
  datatype Context = Context(manifest: Manifest, store: Store, ext: Externals)

  /** Why the traversal stopped. */
  datatype Cause =
    | BadKey(reason: string)                    // the key bytes are not an address
    | StoreFailure(reason: string)              // the state bytes do not decode
    | EmptyState(stateType: string)             // no state is stored under the head
    | UnknownCode(code: Cid, address: Address)  // the code is not in the manifest

  /** The single error the traversal returns, wrapping its cause. */
  datatype Error = FailedIterating(cause: Cause)

  const UnexpectedProtocolText := "unexpected " + "address protocol in state tree root: "
  const FailedIteratingText := "Failed iterating map: "

  function CauseMessage(c: Cause): (m: string)
  {
    match c
    case BadKey(reason) => reason
    case StoreFailure(reason) => reason
    case EmptyState(stateType) => stateType + " is empty"
    case UnknownCode(code, address) =>
      "unexpected actor code CID " + code.text + " for address " + address.text
  }

  /** The text of the error: the cause's message after a fixed preamble. */
  function ErrorMessage(e: Error): (m: string)
  {
    FailedIteratingText + CauseMessage(e.cause)
  }

  /** The prefix under which every message about an entry is recorded. */
  function Scope(key: Address): (s: string)
  {
    key.text + " "
  }

  /** The diagnostic recorded for a key whose protocol is not ID. */
  function ProtocolMessage(key: Address): (m: string)
  {
    Scope(key) + UnexpectedProtocolText + key.text
  }

  /** Each message of `ms`, in order, under `prefix`. */
  function Prefixed(prefix: string, ms: seq<string>): (r: seq<string>)
    ensures |r| == |ms|
    ensures forall i :: 0 <= i < |ms| ==> r[i] == prefix + ms[i]
  {
    if ms == [] then [] else [prefix + ms[0]] + Prefixed(prefix, ms[1..])
  }

  /** Loads and decodes the state stored under `head`. */
  function GetState<S>(store: Store, head: Cid, decode: seq<byte> -> Result<S, string>,
                       stateType: string): (r: Result<S, Cause>)
  {
    if head !in store then Failure(EmptyState(stateType))
    else match decode(store[head])
      case Success(s) => Success(s)
      case Failure(reason) => Failure(StoreFailure(reason))
  }

  /** The kind the manifest assigns to the actor's code, if any. */
  function KindOf(ctx: Context, actor: Actor): (k: Option<Kind>)
  {
    if actor.code in ctx.manifest then Some(ctx.manifest[actor.code]) else None
  }

  /** What the Init checker reports about an Init actor whose state loads. */
  function InitReport(ctx: Context, actor: Actor): (r: Option<(InitSummary, seq<string>)>)
  {
    if KindOf(ctx, actor) == Some(Init) then
      match GetState(ctx.store, actor.head, ctx.ext.decodeInit, "InitState")
      case Success(state) => Some(ctx.ext.checkInit(state, ctx.store))
      case Failure(_) => None
    else None
  }

  /** The cause that stops the traversal at this entry, if any (the key already decoded). */
  function Fault(ctx: Context, key: Address, actor: Actor): (f: Option<Cause>)
  {
    match KindOf(ctx, actor)
    case None => Some(UnknownCode(actor.code, key))
    case Some(Init) =>
      var state := GetState(ctx.store, actor.head, ctx.ext.decodeInit, "InitState");
      if state.Failure? then Some(state.error) else None
    case Some(Cron) =>
      var state := GetState(ctx.store, actor.head, ctx.ext.decodeCron, "CronState");
      if state.Failure? then Some(state.error) else None
    case Some(_) => None
  }

  /** The messages visiting one entry records, in order. */
  function EntryMessages(ctx: Context, key: Address, actor: Actor): (ms: seq<string>)
  {
    (if key.protocol != ID then [ProtocolMessage(key)] else [])
    + match InitReport(ctx, actor)
      case Some((_, ms)) => Prefixed(Scope(key) + "init: ", ms)
      case None => []
  }

  /** The state the traversal accumulates. */
  datatype Progress = Progress(totalFil: int, msgs: seq<string>, initSummary: Option<InitSummary>)

  const Start := Progress(0, [], None)

  /** The effect of visiting one entry whose key decoded, whether or not it then faults. */
  function Apply(ctx: Context, p: Progress, key: Address, actor: Actor): (q: Progress)
  {
    Progress(
      p.totalFil + actor.balance,
      p.msgs + EntryMessages(ctx, key, actor),
      match InitReport(ctx, actor)
      case Some((summary, _)) => Some(summary)
      case None => p.initSummary)
  }

  /** The cause that stops the traversal at a raw entry, decoding its key included. */
  function EntryFault(ctx: Context, entry: (seq<byte>, Actor)): (f: Option<Cause>)
  {
    match ctx.ext.fromBytes(entry.0)
    case Failure(reason) => Some(BadKey(reason))
    case Success(key) => Fault(ctx, key, entry.1)
  }

  /** The traversal: visit the entries in order, stopping at the first fault. */
  function Walk(ctx: Context, entries: seq<(seq<byte>, Actor)>, p: Progress): (r: (Progress, Option<Cause>))
    decreases |entries|
  {
    if entries == [] then (p, None)
    else match ctx.ext.fromBytes(entries[0].0)
      case Failure(reason) => (p, Some(BadKey(reason)))
      case Success(key) =>
        var q := Apply(ctx, p, key, entries[0].1);
        var fault := Fault(ctx, key, entries[0].1);
        if fault.Some? then (q, fault) else Walk(ctx, entries[1..], q)
  }

  /** The traversal's result as the caller sees it. */
  function Wrap(fault: Option<Cause>): (r: Outcome<Error>)
  {
    match fault
    case None => Pass
    case Some(c) => Fail(FailedIterating(c))
  }

  /** What checking a whole tree returns. */
  function Audit(ext: Externals, manifest: Manifest, tree: Tree): (r: Outcome<Error>)
  {
    Wrap(Walk(Context(manifest, tree.store, ext), tree.entries, Start).1)
  }
}
