/** The startup sequence of Program.cs: up to MaxRetries attempts to reach
    the database and provision its schema, with a fixed sleep between a
    failed attempt and the next one. The database is an oracle: for each
    attempt, what each of its calls returns or throws. */
module Startup {

  const MaxRetries: nat := 10
  const DelaySeconds: nat := 5

  /** What one database call does on one attempt. */
  datatype Call<T> = Returns(value: T) | Throws(message: string)

  /** The database as one attempt sees it. */
  datatype Database = Database(
    canConnect: Call<bool>,
    hasTables: Call<bool>,
    ensureCreated: Call<bool>,
    migrate: Call<()>)

  datatype DbCall = CanConnect | HasTables | EnsureCreated | Migrate

  /** Which provisioning path a successful attempt took. */
  datatype Provisioning = SchemaCreated | Migrated | MigrationFailed(message: string)

  datatype AttemptOutcome = Succeeded(path: Provisioning) | Failed(message: string)

  /** The calls one attempt made, in order, and how it ended. */
  datatype Attempt = Attempt(calls: seq<DbCall>, outcome: AttemptOutcome)

  /** Ready: startup goes on to serve requests. Fatal: the last exception is
      rethrown and the process stops. */
  datatype StartupResult =
    | Ready(attempts: nat, sleeps: nat, path: Provisioning)
    | Fatal(attempts: nat, sleeps: nat, error: string)

  /** The body of the `try` block: CanConnect (its result discarded), then
      HasTables, then EnsureCreated or Migrate. An exception from Migrate is
      caught on the spot; any other one ends the attempt as failed. */
  function RunAttempt(db: Database): (a: Attempt)
    ensures |a.calls| >= 1 && a.calls[0] == CanConnect
    ensures a.outcome.Failed? <==>
      db.canConnect.Throws? || db.hasTables.Throws?
      || (db.hasTables == Returns(false) && db.ensureCreated.Throws?)
    ensures a.outcome.Failed? ==> a.calls[|a.calls| - 1] != Migrate
    ensures a.outcome.Failed? ==>
      a.outcome.message == (if db.canConnect.Throws? then db.canConnect.message
                            else if db.hasTables.Throws? then db.hasTables.message
                            else db.ensureCreated.message)
    ensures !db.canConnect.Throws? ==> |a.calls| >= 2 && a.calls[1] == HasTables
    ensures EnsureCreated in a.calls <==> !db.canConnect.Throws? && db.hasTables == Returns(false)
    ensures Migrate in a.calls <==> !db.canConnect.Throws? && db.hasTables == Returns(true)
    ensures a.outcome == Succeeded(SchemaCreated) <==> EnsureCreated in a.calls && !db.ensureCreated.Throws?
    ensures a.outcome.Succeeded? && a.outcome.path != SchemaCreated ==>
      a.outcome.path == (if db.migrate.Throws? then MigrationFailed(db.migrate.message) else Migrated)
  {
    match db.canConnect
    case Throws(m) => Attempt([CanConnect], Failed(m))
    case Returns(_) =>
      match db.hasTables
      case Throws(m) => Attempt([CanConnect, HasTables], Failed(m))
      case Returns(tableExists) =>
        if !tableExists then
          var calls := [CanConnect, HasTables, EnsureCreated];
          match db.ensureCreated
          case Throws(m) => Attempt(calls, Failed(m))
          case Returns(_) => Attempt(calls, Succeeded(SchemaCreated))
        else
          var calls := [CanConnect, HasTables, Migrate];
          match db.migrate
          case Throws(m) => Attempt(calls, Succeeded(MigrationFailed(m)))
          case Returns(_) => Attempt(calls, Succeeded(Migrated))
  }

  predicate Fails(db: Database) {
    RunAttempt(db).outcome.Failed?
  }

  /** The retry loop from attempt `i` on, `sleeps` sleeps having been taken. */
  function Run(oracle: seq<Database>, i: nat, sleeps: nat): StartupResult
    requires |oracle| == MaxRetries && i < MaxRetries
    decreases MaxRetries - i
  {
    match RunAttempt(oracle[i]).outcome
    case Succeeded(p) => Ready(i + 1, sleeps, p)
    case Failed(m) =>
      if i == MaxRetries - 1 then Fatal(i + 1, sleeps, m)
      else Run(oracle, i + 1, sleeps + 1)
  }

  /** What startup does against a database behaving as `oracle` says. */
  function Retry(oracle: seq<Database>): StartupResult
    requires |oracle| == MaxRetries
  {
    Run(oracle, 0, 0)
  }

  /** Seconds spent in Thread.Sleep. */
  function Waited(r: StartupResult): nat {
    r.sleeps * DelaySeconds
  }

  /** The retry loop itself. */
  method StartUp(oracle: seq<Database>) returns (r: StartupResult)
    requires |oracle| == MaxRetries
    ensures r == Retry(oracle)
  {
    var i := 0;
    var sleeps := 0;
    var attempt := RunAttempt(oracle[i]);
    while attempt.outcome.Failed? && i != MaxRetries - 1
      invariant 0 <= i < MaxRetries
      invariant sleeps == i
      invariant attempt == RunAttempt(oracle[i])
      invariant Run(oracle, i, sleeps) == Retry(oracle)
      decreases MaxRetries - i
    {
      sleeps := sleeps + 1;  // Thread.Sleep(delay)
      i := i + 1;
      attempt := RunAttempt(oracle[i]);
    }
    match attempt.outcome
    case Succeeded(p) => r := Ready(i + 1, sleeps, p);
    case Failed(m) => r := Fatal(i + 1, sleeps, m);  // rethrown
  }

  /** Everything the loop guarantees from attempt `i` on. */
  lemma {:induction false} RunFacts(oracle: seq<Database>, i: nat, sleeps: nat)
    requires |oracle| == MaxRetries && i < MaxRetries
    ensures var r := Run(oracle, i, sleeps);
      && i < r.attempts <= MaxRetries
      && r.sleeps == sleeps + (r.attempts - 1 - i)
      && (forall k :: i <= k < r.attempts - 1 ==> Fails(oracle[k]))
      && (r.Ready? ==> RunAttempt(oracle[r.attempts - 1]).outcome == Succeeded(r.path))
      && (r.Fatal? ==> r.attempts == MaxRetries
                       && RunAttempt(oracle[MaxRetries - 1]).outcome == Failed(r.error))
    decreases MaxRetries - i
  {
    if Fails(oracle[i]) && i < MaxRetries - 1 {
      RunFacts(oracle, i + 1, sleeps + 1);
    }
  }

  /** At most MaxRetries attempts, and one sleep between each two of them. */
  lemma AttemptsBounded(oracle: seq<Database>)
    requires |oracle| == MaxRetries
    ensures 1 <= Retry(oracle).attempts <= MaxRetries
    ensures Retry(oracle).sleeps == Retry(oracle).attempts - 1
    ensures Waited(Retry(oracle)) == DelaySeconds * (Retry(oracle).attempts - 1)
  {
    RunFacts(oracle, 0, 0);
  }

  /** Startup becomes Ready exactly when some attempt succeeds, and then it
      stops at the first one that does. */
  lemma ReadyAtFirstSuccess(oracle: seq<Database>)
    requires |oracle| == MaxRetries
    ensures Retry(oracle).Ready? <==> exists k :: 0 <= k < MaxRetries && !Fails(oracle[k])
    ensures Retry(oracle).Ready? ==>
      var n := Retry(oracle).attempts;
      && RunAttempt(oracle[n - 1]).outcome == Succeeded(Retry(oracle).path)
      && forall k :: 0 <= k < n - 1 ==> Fails(oracle[k])
  {
    RunFacts(oracle, 0, 0);
    var r := Retry(oracle);
    if r.Fatal? {
      forall k | 0 <= k < MaxRetries ensures Fails(oracle[k]) {
        if k == MaxRetries - 1 {
          assert RunAttempt(oracle[k]).outcome == Failed(r.error);
        }
      }
    }
  }

  /** Ten failed attempts in a row make startup rethrow the last exception,
      after nine sleeps of DelaySeconds each. */
  lemma FatalAfterAllAttemptsFail(oracle: seq<Database>)
    requires |oracle| == MaxRetries
    ensures Retry(oracle).Fatal? <==> forall k :: 0 <= k < MaxRetries ==> Fails(oracle[k])
    ensures Retry(oracle).Fatal? ==>
      && Retry(oracle).attempts == MaxRetries
      && Retry(oracle).sleeps == MaxRetries - 1
      && Waited(Retry(oracle)) == 45
      && RunAttempt(oracle[MaxRetries - 1]).outcome == Failed(Retry(oracle).error)
  {
    RunFacts(oracle, 0, 0);
    ReadyAtFirstSuccess(oracle);
  }

  /** CanConnect's boolean answer is discarded: only an exception matters. */
  lemma CanConnectAnswerIgnored(db: Database, b: bool)
    requires db.canConnect.Returns?
    ensures RunAttempt(db.(canConnect := Returns(b))) == RunAttempt(db)
  {
  }

  /** An attempt that finds tables never fails, whatever Migrate does: the
      migration error is only recorded. */
  lemma MigrationFailureSwallowed(db: Database)
    requires !db.canConnect.Throws? && db.hasTables == Returns(true)
    ensures RunAttempt(db).outcome.Succeeded?
    ensures db.migrate.Throws? ==> RunAttempt(db).outcome.path == MigrationFailed(db.migrate.message)
    ensures EnsureCreated !in RunAttempt(db).calls
  {
  }

  /** A first attempt whose CanConnect answers false but whose other calls
      succeed ends startup at once, with no retry. */
  lemma CanConnectFalseDoesNotRetry(oracle: seq<Database>)
    requires |oracle| == MaxRetries
    requires oracle[0].canConnect == Returns(false)
    requires oracle[0].hasTables.Returns?
    requires oracle[0].ensureCreated.Returns?
    ensures Retry(oracle).Ready? && Retry(oracle).attempts == 1 && Retry(oracle).sleeps == 0
  {
  }
}
