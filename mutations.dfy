/**
 * The resolvers built by `updateInstanceById(modelName, options)` and
 * `destroyInstanceById(modelName)`. The database and the hooks are opaque
 * collaborators; every step that reaches one of them is recorded, in order,
 * in a trace of events, so that the contracts can say which steps run, in
 * which order, and which never run on a given path.
 */
module Mutations {
  import opened Wrappers
  import opened Objects
  import opened RemoveUndefined

  /** The cache policy passed to the lookup: `'no-cache'`, or none given (the library's default). */
  datatype CachePolicy = NoCache | DefaultPolicy

  /** An opaque instance handle returned by the database. */
  datatype Instance = Instance(handle: nat)

  /** `UpdateInstanceByIdArgs`: the key and the submitted `input` object. */
  datatype UpdateArgs = UpdateArgs(id: string, input: Entries)

  /** What an awaited collaborator call does: resolve with a value, or throw. */
  datatype Outcome<+T> = Returned(value: T) | Threw(reason: string)

  /** The errors a resolver rejects with. */
  datatype Error =
    | DefaultError(message: string, status: int)  // raised by the resolver itself
    | Rethrown(reason: string)                    // thrown by a collaborator, propagated as is

  const NotFound: Error := DefaultError("No entry with such id found", 404)

  /** The helpers and models reached through `context.db`. */
  datatype Database = Database(
    dbInstanceById: (string, string, CachePolicy) -> Option<Instance>,
    isInstanceOf: (Instance, string) -> bool,  // `instance instanceof context.db.models[modelName]`
    update: (Instance, Entries) -> Outcome<()>,
    destroy: Instance -> Outcome<()>)

  /** `UpdateInstanceByIdOptions`; a hook that is absent or not a function is `None`. */
  datatype UpdateOptions = UpdateOptions(
    preprocessInputData: Option<(Instance, UpdateArgs) -> Outcome<UpdateArgs>>,
    beforeTransaction: Option<(UpdateArgs, Instance) -> Outcome<()>>,
    insideTransaction: Option<(UpdateArgs, Instance) -> Outcome<()>>)

  /** One step of a pipeline, as seen by its collaborators. */
  datatype Event =
    | Load(modelName: string, id: string, cachePolicy: CachePolicy)
    | Preprocess(args: UpdateArgs)
    | Before(args: UpdateArgs)
    | BeginTx
    | Inside(args: UpdateArgs)
    | Update(updates: Entries)
    | Destroy
    | EndTx  // control leaves `wrapInTransaction`, whether the body completed or threw

  /** A completed invocation: how the resolver settles, and the steps it took. */
  datatype Run = Run(result: Result<Instance, Error>, trace: seq<Event>)

  /** The position of each step in the fixed stage order of the pipelines. */
  function Rank(e: Event): nat {
    match e
    case Load(_, _, _) => 0
    case Preprocess(_) => 1
    case Before(_) => 2
    case BeginTx => 3
    case Inside(_) => 4
    case Update(_) => 5
    case Destroy => 5
    case EndTx => 6
  }

  /** Every step runs at most once, and the steps run in stage order. */
  predicate InStageOrder(t: seq<Event>) {
    forall i, j :: 0 <= i < j < |t| ==> Rank(t[i]) < Rank(t[j])
  }

  /** A transaction that is opened is left again, and the transactional steps run only inside one. */
  predicate TransactionBracketed(t: seq<Event>) {
    && (BeginTx in t <==> EndTx in t)
    && forall e :: e in t && (e.Inside? || e.Update? || e.Destroy?) ==> BeginTx in t
  }

  /** The first step is a lookup of `(modelName, id)` that bypasses the cache. */
  predicate LoadsFreshFirst(t: seq<Event>, modelName: string, id: string) {
    |t| > 0 && t[0] == Load(modelName, id, NoCache)
  }

  /** Settle with the loaded instance, or reject with what the collaborator threw. */
  function Settle(out: Outcome<()>, instance: Instance): Result<Instance, Error> {
    if out.Threw? then Failure(Rethrown(out.reason)) else Success(instance)
  }

  /** A transaction, when opened, is the last thing the trace does, and the transactional steps run only inside it. */
  predicate TransactionLast(t: seq<Event>) {
    && (BeginTx in t ==> t[|t| - 1] == EndTx)
    && forall e :: e in t && (e.Inside? || e.Update? || e.EndTx?) ==> BeginTx in t
  }

  /** Every `instance.update` of the trace writes the update set `u`. */
  predicate UpdatesAre(t: seq<Event>, u: Entries) {
    forall e :: e in t && e.Update? ==> e.updates == u
  }

  /** No `instance.update` of the trace is given an empty update set. */
  predicate UpdatesNonEmpty(t: seq<Event>) {
    forall e :: e in t && e.Update? ==> e.updates != []
  }

  /** A run whose trace is preceded by the steps `t`. */
  function Prepend(t: seq<Event>, run: Run): Run
  {
    Run(run.result, t + run.trace)
  }

  /** Steps of a trace that receive the resolver's `args` all receive `args` itself. */
  predicate HooksGetArgs(t: seq<Event>, args: UpdateArgs) {
    forall e :: e in t && (e.Preprocess? || e.Before? || e.Inside?) ==> e.args == args
  }

  /**
   * What every stage of an update keeps: its steps are in stage order and come
   * after `floor`, an opened transaction is closed last, the hooks receive
   * `args`, and nothing is destroyed.
   */
  predicate StageFacts(t: seq<Event>, floor: int, args: UpdateArgs) {
    && InStageOrder(t) && RanksAbove(t, floor)
    && TransactionLast(t)
    && HooksGetArgs(t, args)
    && Destroy !in t
  }

  /**
   * The transaction of an update: the optional `insideTransaction`, then
   * `instance.update(updates)` unless the hook threw.
   */
  function TransactionRun(db: Database, options: UpdateOptions, args: UpdateArgs, instance: Instance,
                          updates: Entries): Run
  {
    match options.insideTransaction
    case None =>
      Run(Settle(db.update(instance, updates), instance), [BeginTx, Update(updates), EndTx])
    case Some(insideTransaction) =>
      var out := insideTransaction(args, instance);
      if out.Threw? then Run(Failure(Rethrown(out.reason)), [BeginTx, Inside(args), EndTx])
      else Run(Settle(db.update(instance, updates), instance), [BeginTx, Inside(args), Update(updates), EndTx])
  }

  /** The writing part of an update: the optional `beforeTransaction`, outside the transaction, then the transaction. */
  function WriteRun(db: Database, options: UpdateOptions, args: UpdateArgs, instance: Instance,
                    updates: Entries): Run
  {
    match options.beforeTransaction
    case None => TransactionRun(db, options, args, instance, updates)
    case Some(beforeTransaction) =>
      var out := beforeTransaction(args, instance);
      if out.Threw? then Run(Failure(Rethrown(out.reason)), [Before(args)])
      else Prepend([Before(args)], TransactionRun(db, options, args, instance, updates))
  }

  /** From the (possibly preprocessed) `input`: drop `undefined` values, return early on an empty set, else write. */
  function UpdateSetRun(db: Database, options: UpdateOptions, args: UpdateArgs, instance: Instance,
                        input: Entries): Run
  {
    var updates := DefinedEntries(input);
    if updates == [] then Run(Success(instance), [])
    else WriteRun(db, options, args, instance, updates)
  }

  /**
   * An update after a successful load: optional `preprocessInputData`, then the
   * update set computed from its `input` (or from the original one).
   */
  function ApplyRun(db: Database, options: UpdateOptions, args: UpdateArgs, instance: Instance): Run
  {
    match options.preprocessInputData
    case None => UpdateSetRun(db, options, args, instance, args.input)
    case Some(preprocessInputData) =>
      var out := preprocessInputData(instance, args);
      if out.Threw? then Run(Failure(Rethrown(out.reason)), [Preprocess(args)])
      else Prepend([Preprocess(args)], UpdateSetRun(db, options, args, instance, out.value.input))
  }

  /**
   * What the update resolver does: load without cache, reject with 404 when
   * nothing or an instance of another model comes back, else apply the update.
   */
  function UpdateRun(db: Database, options: UpdateOptions, modelName: string, args: UpdateArgs): (run: Run)
    ensures LoadsFreshFirst(run.trace, modelName, args.id)
    ensures run.result.Success? ==> db.dbInstanceById(modelName, args.id, NoCache) == Some(run.result.value)
    ensures run.result == Failure(NotFound) <==>
              (var found := db.dbInstanceById(modelName, args.id, NoCache);
               found.None? || !db.isInstanceOf(found.value, modelName))
  {
    var load := [Load(modelName, args.id, NoCache)];
    var found := db.dbInstanceById(modelName, args.id, NoCache);
    if found.None? || !db.isInstanceOf(found.value, modelName) then
      Run(Failure(NotFound), load)
    else
      ApplyRunFacts(db, options, args, found.value);
      Prepend(load, ApplyRun(db, options, args, found.value))
  }

  /** The transaction stage opens with BeginTx, closes with EndTx and writes `updates`. */
  lemma TransactionRunFacts(db: Database, options: UpdateOptions, args: UpdateArgs, instance: Instance, updates: Entries)
    ensures var run := TransactionRun(db, options, args, instance, updates);
            && StageFacts(run.trace, 2, args) && UpdatesAre(run.trace, updates)
            && run.trace[0] == BeginTx
            && (run.result.Success? ==> run.result.value == instance)
  {
  }

  /** `beforeTransaction` stays outside the transaction and before it. */
  lemma WriteRunFacts(db: Database, options: UpdateOptions, args: UpdateArgs, instance: Instance, updates: Entries)
    ensures var run := WriteRun(db, options, args, instance, updates);
            && StageFacts(run.trace, 1, args) && UpdatesAre(run.trace, updates)
            && (run.result.Success? ==> run.result.value == instance)
  {
    var tx := TransactionRun(db, options, args, instance, updates);
    TransactionRunFacts(db, options, args, instance, updates);
    if options.beforeTransaction.Some? && options.beforeTransaction.value(args, instance).Returned? {
      OrderedConcat([Before(args)], tx.trace, 2);
      assert BeginTx in [Before(args)] + tx.trace;
    }
  }

  /** An update set reaches `instance.update` only when it is not empty. */
  lemma UpdateSetRunFacts(db: Database, options: UpdateOptions, args: UpdateArgs, instance: Instance, input: Entries)
    ensures var run := UpdateSetRun(db, options, args, instance, input);
            && StageFacts(run.trace, 1, args) && UpdatesNonEmpty(run.trace)
            && (run.result.Success? ==> run.result.value == instance)
            && run.result != Failure(NotFound)
  {
    if DefinedEntries(input) != [] {
      WriteRunFacts(db, options, args, instance, DefinedEntries(input));
    }
  }

  /** After the lookup, an update never rejects with 404 and never settles with another instance. */
  lemma ApplyRunFacts(db: Database, options: UpdateOptions, args: UpdateArgs, instance: Instance)
    ensures var run := ApplyRun(db, options, args, instance);
            && StageFacts(run.trace, 0, args) && UpdatesNonEmpty(run.trace)
            && (run.result.Success? ==> run.result.value == instance)
            && run.result != Failure(NotFound)
  {
    match options.preprocessInputData
    case None =>
      UpdateSetRunFacts(db, options, args, instance, args.input);
    case Some(preprocessInputData) =>
      var out := preprocessInputData(instance, args);
      if out.Returned? {
        var rest := UpdateSetRun(db, options, args, instance, out.value.input);
        UpdateSetRunFacts(db, options, args, instance, out.value.input);
        OrderedConcat([Preprocess(args)], rest.trace, 1);
        assert BeginTx in rest.trace <==> BeginTx in [Preprocess(args)] + rest.trace;
      }
  }

  /**
   * Every update, on every path: each step runs at most once and in stage
   * order, an opened transaction is always left and holds every
   * `insideTransaction` and update, the hooks see the original `args`, an
   * update is never given an empty set, and nothing is destroyed.
   */
  lemma UpdateTraceWellFormed(db: Database, options: UpdateOptions, modelName: string, args: UpdateArgs)
    ensures var t := UpdateRun(db, options, modelName, args).trace;
            && InStageOrder(t)
            && TransactionBracketed(t)
            && HooksGetArgs(t, args)
            && UpdatesNonEmpty(t)
            && Destroy !in t
  {
    var load := [Load(modelName, args.id, NoCache)];
    if FoundModel(db, modelName, args.id) {
      var instance := db.dbInstanceById(modelName, args.id, NoCache).value;
      var apply := ApplyRun(db, options, args, instance);
      ApplyRunFacts(db, options, args, instance);
      OrderedConcat(load, apply.trace, 0);
      assert forall e :: e in load + apply.trace ==> e == load[0] || e in apply.trace;
    }
  }

  /**
   * The update resolver, step by step: each awaited call appends its event to
   * the trace, and the resolver settles exactly as UpdateRun says.
   */
  method UpdateInstanceById(db: Database, options: UpdateOptions, modelName: string, args: UpdateArgs)
    returns (result: Result<Instance, Error>, trace: seq<Event>)
    ensures Run(result, trace) == UpdateRun(db, options, modelName, args)
  {
    trace := [Load(modelName, args.id, NoCache)];
    var found := db.dbInstanceById(modelName, args.id, NoCache);
    if found.None? || !db.isInstanceOf(found.value, modelName) {
      return Failure(NotFound), trace;
    }
    var instance := found.value;
    var input := args.input;
    if options.preprocessInputData.Some? {
      trace := trace + [Preprocess(args)];
      var out := options.preprocessInputData.value(instance, args);
      if out.Threw? {
        return Failure(Rethrown(out.reason)), trace;
      }
      input := out.value.input;
    }
    var updates := RemoveUndefinedValues(input);
    if |updates| == 0 {
      return Success(instance), trace;
    }
    if options.beforeTransaction.Some? {
      trace := trace + [Before(args)];
      var out := options.beforeTransaction.value(args, instance);
      if out.Threw? {
        return Failure(Rethrown(out.reason)), trace;
      }
    }
    // wrapInTransaction: the body runs between BeginTx and EndTx
    trace := trace + [BeginTx];
    var body: Outcome<()> := Returned(());
    if options.insideTransaction.Some? {
      trace := trace + [Inside(args)];
      body := options.insideTransaction.value(args, instance);
    }
    if body.Returned? {
      trace := trace + [Update(updates)];
      body := db.update(instance, updates);
    }
    trace := trace + [EndTx];
    if body.Threw? {
      return Failure(Rethrown(body.reason)), trace;
    }
    return Success(instance), trace;
  }

  /** What `preprocessInputData` hands on: its result when present, else the original `args`. */
  function Preprocessed(options: UpdateOptions, instance: Instance, args: UpdateArgs): Outcome<UpdateArgs>
  {
    match options.preprocessInputData
    case None => Returned(args)
    case Some(preprocessInputData) => preprocessInputData(instance, args)
  }

  /** The lookup found an instance of the requested model. */
  predicate FoundModel(db: Database, modelName: string, id: string) {
    var found := db.dbInstanceById(modelName, id, NoCache);
    found.Some? && db.isInstanceOf(found.value, modelName)
  }

  /** A missing instance, or one of another model, rejects with 404 right after the lookup: nothing else runs. */
  lemma UpdateNotFound(db: Database, options: UpdateOptions, modelName: string, args: UpdateArgs)
    requires !FoundModel(db, modelName, args.id)
    ensures UpdateRun(db, options, modelName, args) == Run(Failure(NotFound), [Load(modelName, args.id, NoCache)])
  {
  }

  /**
   * When the (possibly preprocessed) input holds nothing but `undefined`, the
   * loaded instance is returned at once: no `beforeTransaction`, no
   * transaction, no `insideTransaction`, no update.
   */
  lemma UpdateEmptySetShortCircuits(db: Database, options: UpdateOptions, modelName: string, args: UpdateArgs)
    requires FoundModel(db, modelName, args.id)
    requires var out := Preprocessed(options, db.dbInstanceById(modelName, args.id, NoCache).value, args);
             out.Returned? && DefinedEntries(out.value.input) == []
    ensures var run := UpdateRun(db, options, modelName, args);
            && run.result == Success(db.dbInstanceById(modelName, args.id, NoCache).value)
            && run.trace == [Load(modelName, args.id, NoCache)]
                            + (if options.preprocessInputData.Some? then [Preprocess(args)] else [])
  {
  }

  /**
   * When every step resolves and the update set is not empty, the steps are:
   * lookup, preprocess (if present), `beforeTransaction` (if present), then one
   * transaction holding `insideTransaction` (if present) and exactly one
   * update with the filtered input; the loaded instance is returned.
   */
  lemma UpdateFullPath(db: Database, options: UpdateOptions, modelName: string, args: UpdateArgs)
    requires FoundModel(db, modelName, args.id)
    requires var instance := db.dbInstanceById(modelName, args.id, NoCache).value;
             var out := Preprocessed(options, instance, args);
             && out.Returned? && DefinedEntries(out.value.input) != []
             && (options.beforeTransaction.Some? ==> options.beforeTransaction.value(args, instance).Returned?)
             && (options.insideTransaction.Some? ==> options.insideTransaction.value(args, instance).Returned?)
             && db.update(instance, DefinedEntries(out.value.input)).Returned?
    ensures var instance := db.dbInstanceById(modelName, args.id, NoCache).value;
            var updates := DefinedEntries(Preprocessed(options, instance, args).value.input);
            var run := UpdateRun(db, options, modelName, args);
            && run.result == Success(instance)
            && run.trace == [Load(modelName, args.id, NoCache)]
                            + (if options.preprocessInputData.Some? then [Preprocess(args)] else [])
                            + (if options.beforeTransaction.Some? then [Before(args)] else [])
                            + [BeginTx]
                            + (if options.insideTransaction.Some? then [Inside(args)] else [])
                            + [Update(updates), EndTx]
  {
  }

  /** A throwing `beforeTransaction` rejects with its error, and the transaction is never opened. */
  lemma UpdateBeforeThrows(db: Database, options: UpdateOptions, modelName: string, args: UpdateArgs)
    requires FoundModel(db, modelName, args.id)
    requires var instance := db.dbInstanceById(modelName, args.id, NoCache).value;
             var out := Preprocessed(options, instance, args);
             && out.Returned? && DefinedEntries(out.value.input) != []
             && options.beforeTransaction.Some? && options.beforeTransaction.value(args, instance).Threw?
    ensures var instance := db.dbInstanceById(modelName, args.id, NoCache).value;
            var run := UpdateRun(db, options, modelName, args);
            && run.result == Failure(Rethrown(options.beforeTransaction.value(args, instance).reason))
            && BeginTx !in run.trace && run.trace[|run.trace| - 1] == Before(args)
  {
  }

  /** A throwing `insideTransaction` leaves the transaction without any update and rejects with its error. */
  lemma UpdateInsideThrows(db: Database, options: UpdateOptions, modelName: string, args: UpdateArgs)
    requires FoundModel(db, modelName, args.id)
    requires var instance := db.dbInstanceById(modelName, args.id, NoCache).value;
             var out := Preprocessed(options, instance, args);
             && out.Returned? && DefinedEntries(out.value.input) != []
             && (options.beforeTransaction.Some? ==> options.beforeTransaction.value(args, instance).Returned?)
             && options.insideTransaction.Some? && options.insideTransaction.value(args, instance).Threw?
    ensures var instance := db.dbInstanceById(modelName, args.id, NoCache).value;
            var run := UpdateRun(db, options, modelName, args);
            && run.result == Failure(Rethrown(options.insideTransaction.value(args, instance).reason))
            && (forall e :: e in run.trace ==> !e.Update?)
            && run.trace[|run.trace| - 3..] == [BeginTx, Inside(args), EndTx]
  {
  }

  /**
   * A throwing `preprocessInputData` rejects with its error right after it ran:
   * no update set is computed and no hook, transaction or update follows.
   */
  lemma UpdatePreprocessThrows(db: Database, options: UpdateOptions, modelName: string, args: UpdateArgs)
    requires FoundModel(db, modelName, args.id)
    requires options.preprocessInputData.Some?
    requires options.preprocessInputData.value(db.dbInstanceById(modelName, args.id, NoCache).value, args).Threw?
    ensures var instance := db.dbInstanceById(modelName, args.id, NoCache).value;
            UpdateRun(db, options, modelName, args)
              == Run(Failure(Rethrown(options.preprocessInputData.value(instance, args).reason)),
                     [Load(modelName, args.id, NoCache), Preprocess(args)])
  {
  }

  /**
   * A throwing `instance.update` is not swallowed: the update rejects with its
   * error, and the transaction is left right after the update.
   */
  lemma UpdateWriteThrows(db: Database, options: UpdateOptions, modelName: string, args: UpdateArgs)
    requires FoundModel(db, modelName, args.id)
    requires var instance := db.dbInstanceById(modelName, args.id, NoCache).value;
             var out := Preprocessed(options, instance, args);
             && out.Returned? && DefinedEntries(out.value.input) != []
             && (options.beforeTransaction.Some? ==> options.beforeTransaction.value(args, instance).Returned?)
             && (options.insideTransaction.Some? ==> options.insideTransaction.value(args, instance).Returned?)
             && db.update(instance, DefinedEntries(out.value.input)).Threw?
    ensures var instance := db.dbInstanceById(modelName, args.id, NoCache).value;
            var updates := DefinedEntries(Preprocessed(options, instance, args).value.input);
            var run := UpdateRun(db, options, modelName, args);
            && run.result == Failure(Rethrown(db.update(instance, updates).reason))
            && |run.trace| >= 2 && run.trace[|run.trace| - 2..] == [Update(updates), EndTx]
  {
  }

  /**
   * What the destroy resolver does: load without cache, reject with 404 when
   * nothing comes back (there is no model check and there are no hooks), else
   * destroy the instance inside one transaction.
   */
  function DestroyRun(db: Database, modelName: string, id: string): (run: Run)
    ensures LoadsFreshFirst(run.trace, modelName, id)
    ensures InStageOrder(run.trace)
    ensures TransactionBracketed(run.trace)
    ensures forall e :: e in run.trace ==> e.Load? || e.BeginTx? || e.Destroy? || e.EndTx?
    ensures run.result.Success? ==> db.dbInstanceById(modelName, id, NoCache) == Some(run.result.value)
    ensures run.result == Failure(NotFound) <==> db.dbInstanceById(modelName, id, NoCache).None?
  {
    var load := [Load(modelName, id, NoCache)];
    match db.dbInstanceById(modelName, id, NoCache)
    case None => Run(Failure(NotFound), load)
    case Some(instance) => Run(Settle(db.destroy(instance), instance), load + [BeginTx, Destroy, EndTx])
  }

  /** The destroy resolver, step by step; it settles exactly as DestroyRun says. */
  method DestroyInstanceById(db: Database, modelName: string, id: string)
    returns (result: Result<Instance, Error>, trace: seq<Event>)
    ensures Run(result, trace) == DestroyRun(db, modelName, id)
  {
    trace := [Load(modelName, id, NoCache)];
    var found := db.dbInstanceById(modelName, id, NoCache);
    if found.None? {
      return Failure(NotFound), trace;
    }
    var instance := found.value;
    // wrapInTransaction: the body runs between BeginTx and EndTx
    trace := trace + [BeginTx, Destroy];
    var out := db.destroy(instance);
    trace := trace + [EndTx];
    if out.Threw? {
      return Failure(Rethrown(out.reason)), trace;
    }
    return Success(instance), trace;
  }

  /** A missing instance rejects with 404 right after the lookup, and no transaction is opened. */
  lemma DestroyNotFound(db: Database, modelName: string, id: string)
    requires db.dbInstanceById(modelName, id, NoCache).None?
    ensures DestroyRun(db, modelName, id) == Run(Failure(NotFound), [Load(modelName, id, NoCache)])
  {
  }

  /**
   * A found instance, of whatever model, is destroyed exactly once inside
   * exactly one transaction; the loaded instance is returned unless the
   * destroy threw.
   */
  lemma DestroyFoundInstance(db: Database, modelName: string, id: string)
    requires db.dbInstanceById(modelName, id, NoCache).Some?
    ensures var instance := db.dbInstanceById(modelName, id, NoCache).value;
            var run := DestroyRun(db, modelName, id);
            && run.trace == [Load(modelName, id, NoCache), BeginTx, Destroy, EndTx]
            && (db.destroy(instance).Returned? ==> run.result == Success(instance))
            && (db.destroy(instance).Threw? ==> run.result == Failure(Rethrown(db.destroy(instance).reason)))
  {
  }

  /** Every step of `t` has rank at most `r`. */
  predicate RanksAtMost(t: seq<Event>, r: int) {
    forall e :: e in t ==> Rank(e) <= r
  }

  /** Every step of `t` has rank above `r`. */
  predicate RanksAbove(t: seq<Event>, r: int) {
    forall e :: e in t ==> r < Rank(e)
  }

  /** Two ordered blocks, the second wholly after the first, make an ordered trace. */
  lemma OrderedConcat(a: seq<Event>, b: seq<Event>, r: int)
    requires InStageOrder(a) && InStageOrder(b)
    requires RanksAtMost(a, r) && RanksAbove(b, r)
    ensures InStageOrder(a + b)
  {
    var t := a + b;
    forall i, j | 0 <= i < j < |t| ensures Rank(t[i]) < Rank(t[j]) {
      if j < |a| {
        assert t[i] == a[i] && t[j] == a[j];
      } else if i >= |a| {
        assert t[i] == b[i - |a|] && t[j] == b[j - |a|];
      } else {
        assert t[i] == a[i] && a[i] in a;
        assert t[j] == b[j - |a|] && b[j - |a|] in b;
      }
    }
  }
}
