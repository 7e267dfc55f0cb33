/**
 * What one traversal of the state tree does, stated against definitions that do not
 * follow the traversal step by step: the index of the first faulting entry, the sum
 * of the visited balances, the concatenation of the visited entries' messages and the
 * last Init summary produced.
 */
module Properties {
  import opened Wrappers
  import opened Model

  type Entry = (seq<byte>, Actor)

  /** The index of the first entry that stops the traversal, or the number of entries. */
  function FirstFault(ctx: Context, entries: seq<Entry>): (n: nat)
    ensures n <= |entries|
    ensures forall j :: 0 <= j < n ==> EntryFault(ctx, entries[j]).None?
    ensures n < |entries| ==> EntryFault(ctx, entries[n]).Some?
  {
    if entries == [] || EntryFault(ctx, entries[0]).Some? then 0
    else 1 + FirstFault(ctx, entries[1..])
  }

  /** How many entries reach the callback: a faulting entry does when its key decodes. */
  function Processed(ctx: Context, entries: seq<Entry>): (n: nat)
  {
    var n := FirstFault(ctx, entries);
    if n < |entries| && ctx.ext.fromBytes(entries[n].0).Success? then n + 1 else n
  }

  function SumBalances(entries: seq<Entry>): (total: int)
  {
    if entries == [] then 0 else entries[0].1.balance + SumBalances(entries[1..])
  }

  /** The messages of the entries whose key decodes, in entry order. */
  function Messages(ctx: Context, entries: seq<Entry>): (ms: seq<string>)
  {
    if entries == [] then []
    else
      (match ctx.ext.fromBytes(entries[0].0)
       case Success(key) => EntryMessages(ctx, key, entries[0].1)
       case Failure(_) => [])
      + Messages(ctx, entries[1..])
  }

  /** The summaries the Init checker produces for the entries, in entry order. */
  function InitSummaries(ctx: Context, entries: seq<Entry>): (ss: seq<InitSummary>)
  {
    if entries == [] then []
    else
      (match InitReport(ctx, entries[0].1)
       case Some((summary, _)) => [summary]
       case None => [])
      + InitSummaries(ctx, entries[1..])
  }

  function LastOr<T>(xs: seq<T>, otherwise: Option<T>): (r: Option<T>)
  {
    if xs == [] then otherwise else Some(xs[|xs| - 1])
  }

  lemma SliceTail(entries: seq<Entry>, n: nat)
    requires 0 < n <= |entries|
    ensures entries[..n][1..] == entries[1..][..n - 1]
    ensures entries[..n][0] == entries[0]
  {
  }

  /** The traversal stops with the fault of the first faulting entry, and with none if no entry faults. */
  lemma {:induction false} WalkFault(ctx: Context, entries: seq<Entry>, p: Progress)
    ensures Walk(ctx, entries, p).1 ==
      if FirstFault(ctx, entries) < |entries| then EntryFault(ctx, entries[FirstFault(ctx, entries)])
      else None
  {
    if entries != [] {
      match ctx.ext.fromBytes(entries[0].0)
      case Failure(_) =>
      case Success(key) =>
        var q := Apply(ctx, p, key, entries[0].1);
        if Fault(ctx, key, entries[0].1).None? {
          WalkFault(ctx, entries[1..], q);
        }
    }
  }

  /** One step of the traversal, and of the count of entries that reach the callback. */
  lemma WalkHead(ctx: Context, entries: seq<Entry>, p: Progress)
    requires entries != []
    ensures ctx.ext.fromBytes(entries[0].0).Failure? ==>
      Walk(ctx, entries, p).0 == p && Processed(ctx, entries) == 0
    ensures ctx.ext.fromBytes(entries[0].0).Success? ==>
      var key := ctx.ext.fromBytes(entries[0].0).value;
      var q := Apply(ctx, p, key, entries[0].1);
      if Fault(ctx, key, entries[0].1).Some? then
        Walk(ctx, entries, p).0 == q && Processed(ctx, entries) == 1
      else
        Walk(ctx, entries, p) == Walk(ctx, entries[1..], q)
        && Processed(ctx, entries) == 1 + Processed(ctx, entries[1..])
  {
  }

  /** The running total is the sum of the balances of the entries that reached the callback,
      the faulting one included: its balance is added before its code is looked up. */
  lemma {:induction false} WalkTotal(ctx: Context, entries: seq<Entry>, p: Progress)
    ensures Walk(ctx, entries, p).0.totalFil ==
      p.totalFil + SumBalances(entries[..Processed(ctx, entries)])
  {
    if entries != [] {
      WalkHead(ctx, entries, p);
      var n := Processed(ctx, entries);
      match ctx.ext.fromBytes(entries[0].0)
      case Failure(_) =>
        assert entries[..n] == [];
      case Success(key) =>
        SliceTail(entries, n);
        if Fault(ctx, key, entries[0].1).None? {
          WalkTotal(ctx, entries[1..], Apply(ctx, p, key, entries[0].1));
        } else {
          assert entries[1..][..n - 1] == [];
        }
    }
  }

  /** The accumulated messages are those of the entries that reached the callback, in order. */
  lemma {:induction false} WalkMessages(ctx: Context, entries: seq<Entry>, p: Progress)
    ensures Walk(ctx, entries, p).0.msgs == p.msgs + Messages(ctx, entries[..Processed(ctx, entries)])
  {
    if entries != [] {
      WalkHead(ctx, entries, p);
      var n := Processed(ctx, entries);
      match ctx.ext.fromBytes(entries[0].0)
      case Failure(_) =>
        assert entries[..n] == [];
      case Success(key) =>
        MessagesCons(ctx, entries, n, key);
        if Fault(ctx, key, entries[0].1).None? {
          WalkMessages(ctx, entries[1..], Apply(ctx, p, key, entries[0].1));
        } else {
          assert entries[1..][..n - 1] == [];
        }
    }
  }

  lemma MessagesCons(ctx: Context, entries: seq<Entry>, n: nat, key: Address)
    requires 0 < n <= |entries|
    requires ctx.ext.fromBytes(entries[0].0) == Success(key)
    ensures Messages(ctx, entries[..n]) ==
      EntryMessages(ctx, key, entries[0].1) + Messages(ctx, entries[1..][..n - 1])
  {
    SliceTail(entries, n);
  }

  /** The Init summary is the one produced for the last Init entry that reached the
      callback, or the initial one if there was none. */
  lemma {:induction false} WalkInitSummary(ctx: Context, entries: seq<Entry>, p: Progress)
    ensures Walk(ctx, entries, p).0.initSummary ==
      LastOr(InitSummaries(ctx, entries[..Processed(ctx, entries)]), p.initSummary)
  {
    if entries != [] {
      WalkHead(ctx, entries, p);
      var n := Processed(ctx, entries);
      match ctx.ext.fromBytes(entries[0].0)
      case Failure(_) =>
        assert entries[..n] == [];
      case Success(key) =>
        var q := Apply(ctx, p, key, entries[0].1);
        var first := InitSummaries(ctx, [entries[0]]);
        ApplyInitSummary(ctx, p, key, entries[0]);
        assert entries[..n] == [entries[0]] + entries[1..][..n - 1];
        InitSummariesAppend(ctx, [entries[0]], entries[1..][..n - 1]);
        LastOrAppend(first, InitSummaries(ctx, entries[1..][..n - 1]), p.initSummary);
        if Fault(ctx, key, entries[0].1).None? {
          WalkInitSummary(ctx, entries[1..], q);
        } else {
          assert entries[1..][..n - 1] == [];
        }
    }
  }

  lemma ApplyInitSummary(ctx: Context, p: Progress, key: Address, entry: Entry)
    ensures Apply(ctx, p, key, entry.1).initSummary == LastOr(InitSummaries(ctx, [entry]), p.initSummary)
  {
    assert [entry][1..] == [];
    match InitReport(ctx, entry.1)
    case Some((summary, _)) =>
      assert InitSummaries(ctx, [entry]) == [summary];
    case None =>
      assert InitSummaries(ctx, [entry]) == [];
  }

  lemma {:induction false} InitSummariesAppend(ctx: Context, a: seq<Entry>, b: seq<Entry>)
    ensures InitSummaries(ctx, a + b) == InitSummaries(ctx, a) + InitSummaries(ctx, b)
  {
    if a == [] {
      assert a + b == b;
    } else {
      assert (a + b)[0] == a[0];
      assert (a + b)[1..] == a[1..] + b;
      InitSummariesAppend(ctx, a[1..], b);
    }
  }

  lemma LastOrAppend<T>(xs: seq<T>, ys: seq<T>, otherwise: Option<T>)
    ensures LastOr(xs + ys, otherwise) == LastOr(ys, LastOr(xs, otherwise))
  {
  }

  /** Entries after a faulting one are never visited: appending to the entries does not change the result. */
  lemma {:induction false} WalkStopsAtFault(ctx: Context, entries: seq<Entry>, later: seq<Entry>, p: Progress)
    requires FirstFault(ctx, entries) < |entries|
    ensures Walk(ctx, entries + later, p) == Walk(ctx, entries, p)
  {
    assert (entries + later)[0] == entries[0];
    match ctx.ext.fromBytes(entries[0].0)
    case Failure(_) =>
    case Success(key) =>
      var q := Apply(ctx, p, key, entries[0].1);
      if Fault(ctx, key, entries[0].1).None? {
        assert (entries + later)[1..] == entries[1..] + later;
        WalkStopsAtFault(ctx, entries[1..], later, q);
      }
  }

  /** Every message recorded for an entry lies under the entry's scope, "{key} ". */
  lemma EntryMessagesScoped(ctx: Context, key: Address, actor: Actor)
    ensures forall m :: m in EntryMessages(ctx, key, actor) ==>
      |Scope(key)| <= |m| && m[..|Scope(key)|] == Scope(key)
  {
    var scope := Scope(key);
    var init := match InitReport(ctx, actor)
                case Some((_, ms)) => Prefixed(scope + "init: ", ms)
                case None => [];
    assert EntryMessages(ctx, key, actor) ==
      (if key.protocol != ID then [ProtocolMessage(key)] else []) + init;
    assert ProtocolMessage(key)[..|scope|] == scope;
    forall i | 0 <= i < |init| ensures init[i][..|scope|] == scope {
      assert init[i][..|scope|] == (scope + "init: ")[..|scope|];
    }
  }

  /** An entry yields the unexpected-protocol message exactly once when its key's protocol
      is not ID, and not at all when it is: no Init message can take its place. */
  lemma ProtocolMessageOnce(ctx: Context, key: Address, actor: Actor)
    ensures multiset(EntryMessages(ctx, key, actor))[ProtocolMessage(key)] ==
      if key.protocol != ID then 1 else 0
  {
    var scope := Scope(key);
    var pm := ProtocolMessage(key);
    var init := match InitReport(ctx, actor)
                case Some((_, ms)) => Prefixed(scope + "init: ", ms)
                case None => [];
    var own: seq<string> := if key.protocol != ID then [pm] else [];
    assert EntryMessages(ctx, key, actor) == own + init;
    var tail := UnexpectedProtocolText + key.text;
    assert pm == scope + tail;
    assert pm[|scope|] == 'u';
    forall i | 0 <= i < |init| ensures init[i] != pm {
      assert init[i][|scope|] == 'i';
    }
    assert pm !in init;
    assert multiset(own + init) == multiset(own) + multiset(init);
  }

  /** System, Account, Power, Miner, Market, PaymentChannel, Multisig, Reward and
      VerifiedRegistry actors never fault, look nothing up in the store and record
      nothing beyond the protocol message; only their balance is counted. */
  lemma OtherKindsOnlyCounted(ctx: Context, p: Progress, key: Address, actor: Actor, otherStore: Store)
    requires KindOf(ctx, actor).Some? && KindOf(ctx, actor).value != Init && KindOf(ctx, actor).value != Cron
    ensures Fault(ctx, key, actor) == None
    ensures Apply(ctx, p, key, actor) == Progress(
      p.totalFil + actor.balance,
      p.msgs + (if key.protocol != ID then [ProtocolMessage(key)] else []),
      p.initSummary)
    ensures Fault(ctx.(store := otherStore), key, actor) == None
    ensures Apply(ctx.(store := otherStore), p, key, actor) == Apply(ctx, p, key, actor)
  {
    assert InitReport(ctx, actor) == None;
    assert InitReport(ctx.(store := otherStore), actor) == None;
  }

  /** An actor whose code the manifest does not know faults with that code and its address,
      after its balance and protocol message have been recorded. */
  lemma UnknownCodeFault(ctx: Context, p: Progress, key: Address, actor: Actor)
    requires actor.code !in ctx.manifest
    ensures Fault(ctx, key, actor) == Some(UnknownCode(actor.code, key))
    ensures Apply(ctx, p, key, actor) == Progress(
      p.totalFil + actor.balance,
      p.msgs + (if key.protocol != ID then [ProtocolMessage(key)] else []),
      p.initSummary)
  {
    assert InitReport(ctx, actor) == None;
  }

  /** An Init actor faults exactly when its state is missing ("InitState is empty") or does
      not decode; otherwise the Init checker's messages follow, in order, under
      "{key} init: ", and its summary replaces the previous one. */
  lemma InitActor(ctx: Context, p: Progress, key: Address, actor: Actor)
    requires KindOf(ctx, actor) == Some(Init)
    ensures actor.head !in ctx.store ==> Fault(ctx, key, actor) == Some(EmptyState("InitState"))
    ensures actor.head in ctx.store && ctx.ext.decodeInit(ctx.store[actor.head]).Failure? ==>
      Fault(ctx, key, actor) == Some(StoreFailure(ctx.ext.decodeInit(ctx.store[actor.head]).error))
    ensures actor.head in ctx.store && ctx.ext.decodeInit(ctx.store[actor.head]).Success? ==>
      var (summary, ms) := ctx.ext.checkInit(ctx.ext.decodeInit(ctx.store[actor.head]).value, ctx.store);
      && Fault(ctx, key, actor) == None
      && Apply(ctx, p, key, actor) == Progress(
           p.totalFil + actor.balance,
           p.msgs + (if key.protocol != ID then [ProtocolMessage(key)] else [])
                  + Prefixed(Scope(key) + "init: ", ms),
           Some(summary))
  {
    if actor.head in ctx.store && ctx.ext.decodeInit(ctx.store[actor.head]).Success? {
      var (summary, ms) := ctx.ext.checkInit(ctx.ext.decodeInit(ctx.store[actor.head]).value, ctx.store);
      assert InitReport(ctx, actor) == Some((summary, ms));
    }
  }

  /** A Cron actor faults exactly when its state is missing ("CronState is empty") or does
      not decode; otherwise only its balance and protocol message are recorded. */
  lemma CronActor(ctx: Context, p: Progress, key: Address, actor: Actor)
    requires KindOf(ctx, actor) == Some(Cron)
    ensures actor.head !in ctx.store ==> Fault(ctx, key, actor) == Some(EmptyState("CronState"))
    ensures actor.head in ctx.store && ctx.ext.decodeCron(ctx.store[actor.head]).Failure? ==>
      Fault(ctx, key, actor) == Some(StoreFailure(ctx.ext.decodeCron(ctx.store[actor.head]).error))
    ensures actor.head in ctx.store && ctx.ext.decodeCron(ctx.store[actor.head]).Success? ==>
      Fault(ctx, key, actor) == None
    ensures Apply(ctx, p, key, actor) == Progress(
      p.totalFil + actor.balance,
      p.msgs + (if key.protocol != ID then [ProtocolMessage(key)] else []),
      p.initSummary)
  {
    assert InitReport(ctx, actor) == None;
  }

  /** Checking a tree succeeds exactly when no entry faults. */
  lemma AuditPassIff(ext: Externals, manifest: Manifest, tree: Tree)
    ensures Audit(ext, manifest, tree) == Pass <==>
      forall i :: 0 <= i < |tree.entries| ==>
        EntryFault(Context(manifest, tree.store, ext), tree.entries[i]).None?
  {
    WalkFault(Context(manifest, tree.store, ext), tree.entries, Start);
  }

  /** A failing check reports, wrapped once, the fault of the first faulting entry. */
  lemma AuditResult(ext: Externals, manifest: Manifest, tree: Tree)
    ensures var ctx := Context(manifest, tree.store, ext);
            var n := FirstFault(ctx, tree.entries);
            Audit(ext, manifest, tree) ==
              if n < |tree.entries| then Fail(FailedIterating(EntryFault(ctx, tree.entries[n]).value))
              else Pass
  {
    WalkFault(Context(manifest, tree.store, ext), tree.entries, Start);
  }

  /** The text of a failing check: the preamble, then the message of the first faulting
      entry's cause. */
  lemma AuditErrorMessage(ext: Externals, manifest: Manifest, tree: Tree)
    ensures var ctx := Context(manifest, tree.store, ext);
            var n := FirstFault(ctx, tree.entries);
            && (Audit(ext, manifest, tree).Fail? <==> n < |tree.entries|)
            && (n < |tree.entries| ==>
                  ErrorMessage(Audit(ext, manifest, tree).error) ==
                  FailedIteratingText + CauseMessage(EntryFault(ctx, tree.entries[n]).value))
  {
    AuditResult(ext, manifest, tree);
  }

  /** A tree whose first faulting entry is an Init or Cron actor with no state under its head
      fails with "Failed iterating map: InitState is empty" (or "CronState is empty"). */
  lemma MissingStateAborts(ext: Externals, manifest: Manifest, tree: Tree, i: nat, key: Address)
    requires i < |tree.entries|
    requires forall j :: 0 <= j < i ==>
      EntryFault(Context(manifest, tree.store, ext), tree.entries[j]).None?
    requires ext.fromBytes(tree.entries[i].0) == Success(key)
    requires tree.entries[i].1.code in manifest
    requires manifest[tree.entries[i].1.code] == Init || manifest[tree.entries[i].1.code] == Cron
    requires tree.entries[i].1.head !in tree.store
    ensures var name := if manifest[tree.entries[i].1.code] == Init then "InitState" else "CronState";
            && Audit(ext, manifest, tree) == Fail(FailedIterating(EmptyState(name)))
            && ErrorMessage(Audit(ext, manifest, tree).error) == "Failed iterating map: " + name + " is empty"
  {
    var ctx := Context(manifest, tree.store, ext);
    var actor := tree.entries[i].1;
    var name := if manifest[actor.code] == Init then "InitState" else "CronState";
    if manifest[actor.code] == Init {
      InitActor(ctx, Start, key, actor);
    } else {
      CronActor(ctx, Start, key, actor);
    }
    assert EntryFault(ctx, tree.entries[i]) == Some(EmptyState(name));
    FirstFaultAt(ctx, tree.entries, i);
    AuditResult(ext, manifest, tree);
  }

  /** A tree whose first faulting entry has a code the manifest does not know fails with an
      error naming that code and that entry's address. */
  lemma UnknownCodeAborts(ext: Externals, manifest: Manifest, tree: Tree, i: nat, key: Address)
    requires i < |tree.entries|
    requires forall j :: 0 <= j < i ==>
      EntryFault(Context(manifest, tree.store, ext), tree.entries[j]).None?
    requires ext.fromBytes(tree.entries[i].0) == Success(key)
    requires tree.entries[i].1.code !in manifest
    ensures Audit(ext, manifest, tree) == Fail(FailedIterating(UnknownCode(tree.entries[i].1.code, key)))
  {
    var ctx := Context(manifest, tree.store, ext);
    AuditResult(ext, manifest, tree);
    assert EntryFault(ctx, tree.entries[i]) == Some(UnknownCode(tree.entries[i].1.code, key));
    FirstFaultAt(ctx, tree.entries, i);
  }

  /** An entry that faults after only fault-free entries is the first faulting one. */
  lemma FirstFaultAt(ctx: Context, entries: seq<Entry>, i: nat)
    requires i < |entries|
    requires forall j :: 0 <= j < i ==> EntryFault(ctx, entries[j]).None?
    requires EntryFault(ctx, entries[i]).Some?
    ensures FirstFault(ctx, entries) == i
  {
  }

  /** The error for an unknown code names, after the preamble, the code and then the address. */
  lemma UnknownCodeMessage(code: Cid, key: Address)
    ensures var m := ErrorMessage(FailedIterating(UnknownCode(code, key)));
            var at := |FailedIteratingText| + |"unexpected actor code CID "|;
            && at + |code.text| <= |m|
            && m[at..at + |code.text|] == code.text
            && m[|m| - |key.text|..] == key.text
  {
    var m := ErrorMessage(FailedIterating(UnknownCode(code, key)));
    var head := FailedIteratingText + "unexpected actor code CID ";
    var tail := " for address " + key.text;
    assert m == head + code.text + tail;
    assert m == (head + code.text + " for address ") + key.text;
  }
}
