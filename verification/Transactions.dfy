/** The nested transaction helper: BEGIN, SAVEPOINT, RELEASE and ROLLBACK TO driven by a depth
    counter, against the plain meaning in which a transaction that throws contributes nothing. */
module Transactions {
  import opened Decimal
  import opened Wrappers

  /** What a callback may do: statements, loops over a list of statements, reads that decide, throws,
      catches and further transactions on the same connection. `closes` is false when SQLite refuses
      the COMMIT or RELEASE at a transaction's end. */
  datatype Callback<!DB> =
    | Write(update: DB -> DB)
    | Each(updates: seq<DB -> DB>)
    | Sequence(first: Callback<DB>, second: Callback<DB>)
    | Branch(condition: DB -> bool, yes: Callback<DB>, no: Callback<DB>)
    | Throw
    | Catch(body: Callback<DB>, handler: Callback<DB>)
    | Transaction(body: Callback<DB>, closes: bool)

  datatype Outcome<DB> = Outcome(database: DB, threw: bool)

  /** The updates of a loop, one after the other. */
  function Fold<DB>(updates: seq<DB -> DB>, database: DB): DB {
    if updates == [] then database else updates[|updates| - 1](Fold(updates[..|updates| - 1], database))
  }

  /** The plain meaning: no savepoints, no names, no counter. */
  function Meaning<DB>(callback: Callback<DB>, database: DB): Outcome<DB> {
    match callback
    case Write(update) => Outcome(update(database), false)
    case Each(updates) => Outcome(Fold(updates, database), false)
    case Sequence(first, second) =>
      var o := Meaning(first, database);
      if o.threw then o else Meaning(second, o.database)
    case Branch(condition, yes, no) =>
      if condition(database) then Meaning(yes, database) else Meaning(no, database)
    case Throw => Outcome(database, true)
    case Catch(body, handler) =>
      var o := Meaning(body, database);
      if o.threw then Meaning(handler, o.database) else o
    case Transaction(body, closes) =>
      var o := Meaning(body, database);
      if o.threw || !closes then Outcome(database, true) else o
  }

  // ---------- failing at any step ----------

  /** Statements and transactions only, each of them accepted. */
  predicate Straight<DB>(callback: Callback<DB>) {
    match callback
    case Write(_) => true
    case Each(_) => true
    case Sequence(first, second) => Straight(first) && Straight(second)
    case Transaction(body, closes) => closes && Straight(body)
    case _ => false
  }

  /** How many commands can fail: every statement, and the COMMIT or RELEASE of every transaction. */
  function StepCount<DB>(callback: Callback<DB>): nat {
    match callback
    case Write(_) => 1
    case Each(updates) => |updates|
    case Sequence(first, second) => StepCount(first) + StepCount(second)
    case Transaction(body, _) => StepCount(body) + 1
    case _ => 0
  }

  /** The same callback with a failure at one of its steps; at no step when there are fewer. */
  function Failing<DB>(callback: Callback<DB>, at: nat): Callback<DB> {
    match callback
    case Write(_) => if at == 0 then Throw else callback
    case Each(updates) => if at < |updates| then Sequence(Each(updates[..at]), Throw) else callback
    case Sequence(first, second) =>
      if at < StepCount(first) then Sequence(Failing(first, at), second)
      else Sequence(first, Failing(second, at - StepCount(first)))
    case Transaction(body, closes) => Transaction(Failing(body, at), closes && at != StepCount(body))
    case _ => callback
  }

  /** Whichever of its statements and closing commands fails, and at whatever depth, a transaction
      contributes nothing and throws; without a failure it contributes all of its callback. */
  lemma {:induction false} AllOrNothing<DB>(callback: Callback<DB>, at: nat, database: DB)
    requires Straight(callback)
    ensures !Meaning(callback, database).threw
    ensures var o := Meaning(Failing(callback, at), database);
            && o.threw == (at < StepCount(callback))
            && (!o.threw ==> o == Meaning(callback, database))
            && (o.threw && callback.Transaction? ==> o.database == database)
  {
    match callback
    case Write(_) =>
    case Each(_) =>
    case Sequence(first, second) =>
      AllOrNothing(first, at, database);
      if at >= StepCount(first) {
        AllOrNothing(second, at - StepCount(first), Meaning(first, database).database);
      } else {
        AllOrNothing(second, 0, Meaning(first, database).database);
      }
    case Transaction(body, _) =>
      AllOrNothing(body, at, database);
  }

  /** Without a failure the callback brings `database` to `after`. */
  ghost predicate Brings<DB>(callback: Callback<DB>, database: DB, after: DB) {
    Straight(callback) && Meaning(callback, database) == Outcome(after, false)
  }

  lemma WriteBrings<DB>(update: DB -> DB, database: DB)
    ensures Brings(Write(update), database, update(database))
  {
  }

  lemma EachBrings<DB>(updates: seq<DB -> DB>, database: DB)
    ensures Brings(Each(updates), database, Fold(updates, database))
  {
  }

  lemma SequenceBrings<DB>(first: Callback<DB>, second: Callback<DB>, database: DB, between: DB, after: DB)
    requires Brings(first, database, between) && Brings(second, between, after)
    ensures Brings(Sequence(first, second), database, after)
  {
  }

  lemma TransactionBrings<DB>(body: Callback<DB>, database: DB, after: DB)
    requires Brings(body, database, after)
    ensures Brings(Transaction(body, true), database, after)
  {
  }

  // ---------- the SQLite side ----------

  datatype Command =
    | BeginImmediate
    | Commit
    | Rollback
    | Savepoint(name: string)
    | Release(name: string)
    | RollbackTo(name: string)

  /** A savepoint and the database it was taken on. */
  datatype Frame<DB> = Frame(name: string, before: DB)

  /** `current` is what statements see, `durable` what a crash would leave. */
  datatype Sql<DB> = Sql(current: DB, durable: DB, begun: bool, frames: seq<Frame<DB>>)

  /** One past the position of the most recent savepoint of that name; 0 when there is none. */
  function Find<DB>(frames: seq<Frame<DB>>, name: string): (k: nat)
    ensures k <= |frames|
    ensures k > 0 ==> frames[k - 1].name == name
    ensures forall i :: k <= i < |frames| ==> frames[i].name != name
  {
    if frames == [] then 0
    else if frames[|frames| - 1].name == name then |frames|
    else Find(frames[..|frames| - 1], name)
  }

  /** The effect of a command, or `None` where SQLite refuses it whatever happens. */
  function Effect<DB>(sql: Sql<DB>, command: Command): Option<Sql<DB>> {
    match command
    case BeginImmediate => if sql.begun then None else Some(sql.(begun := true, frames := []))
    case Commit => if sql.begun then Some(Sql(sql.current, sql.current, false, [])) else None
    case Rollback => if sql.begun then Some(Sql(sql.durable, sql.durable, false, [])) else None
    case Savepoint(name) =>
      if sql.begun then Some(sql.(frames := sql.frames + [Frame(name, sql.current)])) else None
    case Release(name) =>
      var k := Find(sql.frames, name);
      if k == 0 then None else Some(sql.(frames := sql.frames[..k - 1]))
    case RollbackTo(name) =>
      var k := Find(sql.frames, name);
      if k == 0 then None else Some(sql.(current := sql.frames[k - 1].before, frames := sql.frames[..k]))
  }

  function SavepointName(depth: nat): string {
    "rayzen_tx_" + Print(depth)
  }

  /** Names differ at different depths, so RELEASE and ROLLBACK TO always find their own savepoint. */
  lemma SavepointNamesDistinct(a: nat, b: nat)
    requires SavepointName(a) == SavepointName(b)
    ensures a == b
  {
    assert SavepointName(a)[10..] == Print(a);
    assert SavepointName(b)[10..] == Print(b);
    PrintInjective(a, b);
  }

  class Connection<DB> {
    var sql: Sql<DB>
    var depth: Option<nat>               // the connection's entry in TRANSACTION_DEPTH
    ghost var crashImages: set<DB>       // every durable database seen so far

    /** Inside a transaction of depth d the frames are the savepoints of depths 2..d. */
    ghost predicate Valid()
      reads this
    {
      && (depth.None? ==> !sql.begun && sql.frames == [] && sql.durable == sql.current)
      && (depth.Some? ==> depth.value >= 1 && sql.begun && |sql.frames| == depth.value - 1)
      && (forall i :: 0 <= i < |sql.frames| ==> sql.frames[i].name == SavepointName(i + 2))
      && sql.durable in crashImages
    }

    constructor (database: DB)
      ensures Valid() && depth == None && sql.current == database
    {
      sql := Sql(database, database, false, []);
      depth := None;
      crashImages := {database};
    }

    /** In every valid state the savepoint names on the stack are pairwise distinct. */
    lemma StackNamesDistinct(i: nat, j: nat)
      requires Valid() && i < j < |sql.frames|
      ensures sql.frames[i].name != sql.frames[j].name
    {
      if sql.frames[i].name == sql.frames[j].name {
        SavepointNamesDistinct(i + 2, j + 2);
      }
    }

    /** A command that succeeds unless SQLite refuses it or it fails for a reason of its own. */
    method Exec(command: Command, fails: bool) returns (accepted: bool)
      modifies this`sql, this`crashImages
      ensures accepted == (!fails && Effect(old(sql), command).Some?)
      ensures sql == if accepted then Effect(old(sql), command).value else old(sql)
      ensures crashImages == old(crashImages) + {sql.durable}
    {
      var effect := Effect(sql, command);
      accepted := !fails && effect.Some?;
      if accepted {
        sql := effect.value;
      }
      crashImages := crashImages + {sql.durable};
    }

    /** A statement outside BEGIN commits by itself. */
    method Statement(update: DB -> DB)
      requires Valid()
      modifies this`sql, this`crashImages
      ensures Valid()
      ensures sql.current == update(old(sql.current))
      ensures sql.durable == if depth.None? then sql.current else old(sql.durable)
      ensures sql.frames == old(sql.frames)
      ensures crashImages == old(crashImages) + {sql.durable}
    {
      sql := sql.(current := update(sql.current));
      if !sql.begun {
        sql := sql.(durable := sql.current);
      }
      crashImages := crashImages + {sql.durable};
    }

    /** The loop over a list of statements. */
    method Statements(updates: seq<DB -> DB>)
      requires Valid()
      modifies this`sql, this`crashImages
      ensures Valid() && sql.frames == old(sql.frames) && sql.current == Fold(updates, old(sql.current))
      ensures depth.Some? ==> sql.durable == old(sql.durable) && crashImages == old(crashImages)
    {
      for i := 0 to |updates|
        invariant Valid() && sql.frames == old(sql.frames) && sql.current == Fold(updates[..i], old(sql.current))
        invariant depth.Some? ==> sql.durable == old(sql.durable) && crashImages == old(crashImages)
      {
        hide SavepointName;
        assert updates[..i + 1][..i] == updates[..i];
        Statement(updates[i]);
      }
      assert updates[..|updates|] == updates;
    }

    /** Any callback ends in its plain meaning, with the caller's savepoints and depth as they
        were; inside a transaction nothing becomes durable. */
    method Run(callback: Callback<DB>) returns (threw: bool)
      requires Valid()
      modifies this
      ensures Valid() && depth == old(depth) && sql.frames == old(sql.frames)
      ensures Outcome(sql.current, threw) == Meaning(callback, old(sql.current))
      ensures depth.Some? ==> sql.durable == old(sql.durable) && crashImages == old(crashImages)
      decreases callback, 0
    {
      match callback
      case Write(update) =>
        Statement(update);
        threw := false;
      case Each(updates) =>
        Statements(updates);
        threw := false;
      case Sequence(first, second) =>
        threw := Run(first);
        if !threw {
          threw := Run(second);
        }
      case Branch(condition, yes, no) =>
        if condition(sql.current) {
          threw := Run(yes);
        } else {
          threw := Run(no);
        }
      case Throw =>
        threw := true;
      case Catch(body, handler) =>
        threw := Run(body);
        if threw {
          threw := Run(handler);
        }
      case Transaction(body, closes) =>
        threw := ExecuteTransaction(body, closes);
    }

    /** `executeTransaction`: all of the callback or none of it, at any depth. The outermost one
        exposes to a crash only the database before it and the database after it. */
    method ExecuteTransaction(callback: Callback<DB>, closes: bool) returns (threw: bool)
      requires Valid()
      modifies this
      ensures Valid() && depth == old(depth) && sql.frames == old(sql.frames)
      ensures Outcome(sql.current, threw) == Meaning(Transaction(callback, closes), old(sql.current))
      ensures depth.Some? ==> sql.durable == old(sql.durable) && crashImages == old(crashImages)
      ensures depth.None? ==> crashImages <= old(crashImages) + {old(sql.durable), sql.durable}
      decreases callback, 1
    {
      hide SavepointName, Effect, Find;
      var outer := depth.GetOr(0);
      var savepoint := SavepointName(outer + 1);
      Begin(outer, savepoint);
      var failed := Run(callback);
      if outer == 0 {
        threw := FinishOuter(failed, closes);
      } else {
        threw := FinishInner(outer, savepoint, failed, closes);
      }
    }

    /** The opening half of `executeTransaction`; SQLite accepts the command. */
    method Begin(outer: nat, savepoint: string)
      requires Valid() && outer == depth.GetOr(0) && savepoint == SavepointName(outer + 1)
      modifies this
      ensures Valid() && depth == Some(outer + 1)
      ensures sql.current == old(sql.current) && sql.durable == old(sql.durable) && crashImages == old(crashImages)
      ensures sql.frames == if outer == 0 then [] else old(sql.frames) + [Frame(savepoint, old(sql.current))]
    {
      hide SavepointName, Find;
      depth := Some(outer + 1);
      var accepted;
      if outer == 0 {
        accepted := Exec(BeginImmediate, false);
      } else {
        accepted := Exec(Savepoint(savepoint), false);
      }
      assert accepted;
    }

    /** The closing half at depth 1: a COMMIT that fails rolls back and throws. */
    method FinishOuter(failed: bool, closes: bool) returns (threw: bool)
      requires Valid() && depth == Some(1)
      modifies this
      ensures Valid() && depth.None? && sql.frames == [] && threw == (failed || !closes)
      ensures sql.current == if threw then old(sql.durable) else old(sql.current)
      ensures crashImages == old(crashImages) + {sql.durable}
    {
      hide SavepointName, Find;
      threw := failed;
      if !threw {
        var committed := Exec(Commit, !closes);
        threw := !committed;
      }
      if threw {
        var accepted := Exec(Rollback, false);
        assert accepted;
      }
      depth := None;
    }

    /** The closing half at a greater depth; RELEASE and ROLLBACK TO find this call's own savepoint, and a
        RELEASE that fails rolls back to it and throws. */
    method FinishInner(outer: nat, savepoint: string, failed: bool, closes: bool) returns (threw: bool)
      requires Valid() && outer > 0 && depth == Some(outer + 1) && savepoint == SavepointName(outer + 1)
      modifies this
      ensures Valid() && depth == Some(outer) && sql.frames == old(sql.frames)[..outer - 1] && threw == (failed || !closes)
      ensures sql.current == if threw then old(sql.frames)[outer - 1].before else old(sql.current)
      ensures sql.durable == old(sql.durable) && crashImages == old(crashImages)
    {
      hide SavepointName, Find;
      FindsLast(sql.frames, savepoint);
      threw := failed;
      if !threw {
        var released := Exec(Release(savepoint), !closes);
        threw := !released;
      }
      if threw {
        var accepted := Exec(RollbackTo(savepoint), false);
        assert accepted && sql.frames == old(sql.frames)[..outer];
        FindsLast(sql.frames, savepoint);
        accepted := Exec(Release(savepoint), false);
        assert accepted;
      }
      depth := Some(outer);
    }
  }

  lemma FindsLast<DB>(frames: seq<Frame<DB>>, name: string)
    requires frames != [] && frames[|frames| - 1].name == name
    ensures Find(frames, name) == |frames|
  {
  }
}
