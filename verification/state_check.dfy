/**
 * The checker itself (actors/state/src/check.rs): an object holding the running
 * balance total, the accumulated diagnostics and the last Init summary, updated by
 * a visit of each entry of the state tree in map order.
 *
 * Rust's `Tree::for_each` takes the visiting closure as an argument; here the loop
 * (`Checker.ForEach`) calls the closure's body (`Checker.Visit`) directly.
 */
module StateCheck {
  import opened Wrappers
  import opened Model
  import opened Properties

  class Checker {
    const ctx: Context
    var totalFil: int
    var msgs: seq<string>
    var initSummary: Option<InitSummary>

    /** The checker's state as a value. */
    function State(): (p: Progress)
      reads this
    {
      Progress(totalFil, msgs, initSummary)
    }

    constructor (ctx: Context)
      ensures this.ctx == ctx
      ensures State() == Start
    {
      this.ctx := ctx;
      totalFil := 0;
      msgs := [];
      initSummary := None;
    }

    /** Records `msg` under `prefix`. */
    method Add(prefix: string, msg: string)
      modifies this`msgs
      ensures msgs == old(msgs) + [prefix + msg]
    {
      msgs := msgs + [prefix + msg];
    }

    /** Records each message of `batch`, in order, under `prefix`. */
    method AddAll(prefix: string, batch: seq<string>)
      modifies this`msgs
      ensures msgs == old(msgs) + Prefixed(prefix, batch)
    {
      msgs := msgs + Prefixed(prefix, batch);
    }

    /** Visits one entry whose key decoded to `key`; returns the cause that stops the traversal, if any. */
    method Visit(key: Address, actor: Actor) returns (fault: Option<Cause>)
      modifies this
      ensures State() == Apply(ctx, old(State()), key, actor)
      ensures fault == Fault(ctx, key, actor)
    {
      ghost var before := State();
      var scope := Scope(key);
      if key.protocol != ID {
        assert scope + (UnexpectedProtocolText + key.text) == ProtocolMessage(key);
        Add(scope, UnexpectedProtocolText + key.text);
      }
      totalFil := totalFil + actor.balance;
      assert State() == Progress(
        before.totalFil + actor.balance,
        before.msgs + (if key.protocol != ID then [ProtocolMessage(key)] else []),
        before.initSummary);
      if actor.code !in ctx.manifest {
        UnknownCodeFault(ctx, before, key, actor);
        return Some(UnknownCode(actor.code, key));
      }
      match ctx.manifest[actor.code] {
        case System =>
          OtherKindsOnlyCounted(ctx, before, key, actor, ctx.store);
          fault := None;
        case Init =>
          InitActor(ctx, before, key, actor);
          var state := GetState(ctx.store, actor.head, ctx.ext.decodeInit, "InitState");
          if state.Failure? {
            return Some(state.error);
          }
          var (summary, initMsgs) := ctx.ext.checkInit(state.value, ctx.store);
          AddAll(scope + "init: ", initMsgs);
          initSummary := Some(summary);
          fault := None;
        case Cron =>
          CronActor(ctx, before, key, actor);
          var state := GetState(ctx.store, actor.head, ctx.ext.decodeCron, "CronState");
          if state.Failure? {
            return Some(state.error);
          }
          fault := None;
        case Account | Power | Miner | Market | PaymentChannel | Multisig | Reward | VerifiedRegistry =>
          OtherKindsOnlyCounted(ctx, before, key, actor, ctx.store);
          fault := None;
      }
    }

    /** Visits the entries in order, decoding each key first, and stops at the first fault. */
    method ForEach(entries: seq<(seq<byte>, Actor)>) returns (r: Outcome<Error>)
      modifies this
      ensures State() == Walk(ctx, entries, old(State())).0
      ensures r == Wrap(Walk(ctx, entries, old(State())).1)
      ensures r == Pass <==> forall i :: 0 <= i < |entries| ==> EntryFault(ctx, entries[i]).None?
      ensures totalFil == old(totalFil) + SumBalances(entries[..Processed(ctx, entries)])
      ensures msgs == old(msgs) + Messages(ctx, entries[..Processed(ctx, entries)])
      ensures initSummary == LastOr(InitSummaries(ctx, entries[..Processed(ctx, entries)]), old(initSummary))
    {
      var i := 0;
      var fault: Option<Cause> := None;
      while i < |entries| && fault.None?
        invariant 0 <= i <= |entries|
        invariant fault.None? ==> Walk(ctx, entries, old(State())) == Walk(ctx, entries[i..], State())
        invariant fault.Some? ==> Walk(ctx, entries, old(State())) == (State(), fault)
        decreases |entries| - i
      {
        var (raw, actor) := entries[i];
        match ctx.ext.fromBytes(raw) {
          case Failure(reason) =>
            fault := Some(BadKey(reason));
          case Success(key) =>
            fault := Visit(key, actor);
        }
        i := i + 1;
      }
      r := Wrap(fault);
      WalkFault(ctx, entries, old(State()));
      WalkTotal(ctx, entries, old(State()));
      WalkMessages(ctx, entries, old(State()));
      WalkInitSummary(ctx, entries, old(State()));
    }
  }

  /** Checks the invariants of every actor in `tree`; the diagnostics and the total stay internal. */
  method CheckStateInvariants(ext: Externals, manifest: Manifest, tree: Tree) returns (r: Outcome<Error>)
    ensures r == Audit(ext, manifest, tree)
  {
    var checker := new Checker(Context(manifest, tree.store, ext));
    r := checker.ForEach(tree.entries);
  }
}
