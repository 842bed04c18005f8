/** Creating the actuator's storage: a lock file, a database file, one schema
    transaction and the switch to a write-ahead log, with a crash possible between
    any two durable writes, and the explicit resumption of what a crash left. */
module Creation {
  import opened Base
  import opened ActuationScope
  import opened ActuatorErrors
  import opened ActuatorTables

  const SCHEMA_VERSION: nat := 4

  datatype Journal = Rollback | WriteAhead | OtherJournal
  datatype Content = NoObjects | Ours(tables: Tables) | Foreign

  /** `Empty` is a file of no bytes; `Sqlite` has a header and a user version. */
  datatype Database = Missing | Empty | Sqlite(version: nat, journal: Journal, content: Content)

  datatype Disk = Disk(lock: bool, database: Database)

  const PRISTINE: Database := Sqlite(0, Rollback, NoObjects)
  const SCHEMA: Database := Sqlite(SCHEMA_VERSION, Rollback, Ours(EMPTY))
  const FINISHED: Database := Sqlite(SCHEMA_VERSION, WriteAhead, Ours(EMPTY))

  const BLANK: Disk := Disk(false, Missing)
  const READY: Disk := Disk(true, FINISHED)

  /** How an attempt ends: after that many durable writes the process dies. A rolled
      back schema transaction may leave a bare header, which counts as a write. */
  datatype Fate = Fate(dies: Option<nat>, header: bool)

  // ----- the three ways to open -----

  /** The writes that take a database to the finished state. */
  function Remaining(db: Database, header: bool): seq<Database> {
    match db
    case Missing => [Empty] + (if header then [PRISTINE] else []) + [SCHEMA, FINISHED]
    case Empty => (if header then [PRISTINE] else []) + [SCHEMA, FINISHED]
    case Sqlite(version, journal, content) =>
      if version == 0 && content.NoObjects? then [SCHEMA, FINISHED]
      else if journal.WriteAhead? then []
      else [db.(journal := WriteAhead)]
  }

  /** The disk after the writes that happen before the process dies, if it does. */
  function Perform(db: Database, writes: seq<Database>, dies: Option<nat>): (Disk, Result<Tables>) {
    var done := if dies.Some? && dies.value < |writes| then dies.value else |writes|;
    var after := if done == 0 then db else writes[done - 1];
    (Disk(true, after), if dies.Some? then Err(Storage) else Ok(EMPTY))
  }

  function Create(d: Disk, owner: Id, fate: Fate): (Disk, Result<Tables>) {
    if Zero(owner) then (d, Err(InvalidScope))
    else if d != BLANK then (d, Err(DatabasePresent))
    else if fate.dies == Some(0) then (d, Err(Storage))
    else Perform(Missing, Remaining(Missing, fate.header), if fate.dies.Some? then Some(fate.dies.value - 1) else None)
  }

  /** A database without a single economic row. */
  predicate NoEconomicState(t: Tables) {
    && t.clock.None? && t.lease.None? && t.participant.None? && |t.operations| == 0 && |t.attempts| == 0
    && |t.choices| == 0 && |t.funding| == 0 && |t.transcripts| == 0 && |t.journal| == 0
  }

  predicate SchemaSound(db: Database) {
    db.Sqlite? && db.version == SCHEMA_VERSION && db.content.Ours?
  }

  function LockError(d: Disk): Error {
    if d.database.Missing? then DatabaseMissing else InvalidStorageAuthority
  }

  /** Whether a database may be continued. */
  function Continuable(db: Database): Result<Unit> {
    match db
    case Missing => Ok(Unit)
    case Empty => Ok(Unit)
    case Sqlite(version, journal, content) =>
      if version == 0 && content.NoObjects? then Check(journal.Rollback?, CorruptState)
      else Check(SchemaSound(db) && NoEconomicState(content.tables) && !journal.OtherJournal?, CorruptState)
  }

  function Resume(d: Disk, owner: Id, fate: Fate): (Disk, Result<Tables>) {
    if Zero(owner) then (d, Err(InvalidScope))
    else if !d.lock then (d, Err(LockError(d)))
    else if Continuable(d.database).Err? then (d, Err(Continuable(d.database).error))
    else Perform(d.database, Remaining(d.database, fate.header), fate.dies)
  }

  function OpenExisting(d: Disk, owner: Id): Result<Tables> {
    if Zero(owner) then Err(InvalidScope)
    else if !d.lock then Err(LockError(d))
    else if !d.database.Sqlite? || d.database.version == 0 then Err(CreationIncomplete)
    else if !d.database.journal.WriteAhead? then Err(InvalidStorageAuthority)
    else if !SchemaSound(d.database) then Err(CorruptState)
    else Gate(d.database.content.tables)
  }

  // ----- attempts in any order, with any fates -----

  datatype Try = TryCreate(owner: Id, fate: Fate) | TryResume(owner: Id, fate: Fate) | TryOpen(owner: Id)

  function Attempt(d: Disk, try: Try): Disk {
    match try
    case TryCreate(owner, fate) => Create(d, owner, fate).0
    case TryResume(owner, fate) => Resume(d, owner, fate).0
    case TryOpen(_) => d
  }

  function Attempts(d: Disk, tries: seq<Try>): Disk
    decreases |tries|
  {
    if tries == [] then d else Attempts(Attempt(d, tries[0]), tries[1..])
  }

  /** What a crash can leave: a lock and a database on its way, without any state. */
  predicate Interrupted(d: Disk) {
    d.lock && (d.database.Missing? || d.database.Empty? || d.database == PRISTINE || d.database == SCHEMA
               || d.database == FINISHED)
  }

  lemma EmptyTables(t: Tables)
    ensures NoEconomicState(t) <==> t == EMPTY
  {
  }

  /** Every attempt moves along the creation path or changes nothing. */
  lemma AttemptAdvances(d: Disk, try: Try)
    ensures d == BLANK ==> Attempt(d, try) == BLANK || Interrupted(Attempt(d, try))
    ensures Interrupted(d) ==> Interrupted(Attempt(d, try))
    ensures d != BLANK && !Interrupted(d) ==> Attempt(d, try) == d
  {
    if d.database.Sqlite? && d.database.content.Ours? { EmptyTables(d.database.content.tables); }
  }

  lemma {:induction false} AttemptsAdvance(d: Disk, tries: seq<Try>)
    requires d == BLANK || Interrupted(d)
    ensures Attempts(d, tries) == BLANK || Interrupted(Attempts(d, tries))
    ensures Interrupted(d) ==> Interrupted(Attempts(d, tries))
    decreases |tries|
  {
    hide Attempt, Interrupted;
    if tries != [] {
      AttemptAdvances(d, tries[0]);
      AttemptsAdvance(Attempt(d, tries[0]), tries[1..]);
    }
  }

  /** Whatever sequence of interrupted attempts came before, one undisturbed call
      reaches the same empty authority: creation if nothing was published,
      resumption once the lock exists. */
  lemma RestartReachesReady(tries: seq<Try>, owner: Id, header: bool)
    requires !Zero(owner)
    ensures var d := Attempts(BLANK, tries);
            && (d == BLANK <==> !d.lock)
            && (!d.lock ==> Create(d, owner, Fate(None, header)) == (READY, Ok(EMPTY)))
            && (d.lock ==>
                  Resume(d, owner, Fate(None, header)) == (READY, Ok(EMPTY))
                    && Create(d, owner, Fate(None, header)) == (d, Err(DatabasePresent)))
    ensures OpenExisting(READY, owner) == Ok(EMPTY)
  {
    AttemptsAdvance(BLANK, tries);
    EmptyTables(EMPTY);
  }

  /** Only a finished write-ahead database of ours that passes the audit is opened. */
  lemma OpensOnlyFinished(d: Disk, owner: Id)
    ensures OpenExisting(d, owner).Ok? <==>
              && !Zero(owner) && d.lock && d.database.Sqlite? && d.database.version == SCHEMA_VERSION
              && d.database.journal.WriteAhead? && d.database.content.Ours? && Audit(d.database.content.tables)
    ensures OpenExisting(d, owner).Ok? ==> OpenExisting(d, owner).value == d.database.content.tables
    ensures !Zero(owner) && Interrupted(d) && d != READY ==> OpenExisting(d, owner).Err?
  {
    hide Audit;
  }

  /** A resumption succeeds exactly on what a crash of creation leaves. */
  lemma ResumesOnlyInterrupted(d: Disk, owner: Id, header: bool)
    ensures Resume(d, owner, Fate(None, header)).1.Ok? <==> !Zero(owner) && Interrupted(d)
    ensures !Interrupted(d) ==> forall fate :: Resume(d, owner, fate).0 == d && Resume(d, owner, fate).1.Err?
  {
    if d.database.Sqlite? && d.database.content.Ours? { EmptyTables(d.database.content.tables); }
  }

  /** A store with any state is never touched again by creation or resumption. */
  lemma {:induction false} StateIsNeverOverwritten(d: Disk, tries: seq<Try>)
    requires SchemaSound(d.database) && !NoEconomicState(d.database.content.tables)
    ensures Attempts(d, tries) == d
    decreases |tries|
  {
    if tries != [] {
      EmptyTables(d.database.content.tables);
      AttemptAdvances(d, tries[0]);
      StateIsNeverOverwritten(d, tries[1..]);
    }
  }

  // ----- the storage as an object -----

  class AuthorityFiles {
    var disk: Disk
    /** Durable writes left before the process dies. */
    var left: Option<nat>

    constructor (disk: Disk, dies: Option<nat>)
      ensures this.disk == disk && left == dies
    {
      this.disk := disk;
      left := dies;
    }

    /** One durable write, unless the process is dead by then. */
    method Write(next: Disk) returns (alive: bool)
      modifies this
      ensures alive == (old(left) != Some(0))
      ensures disk == if alive then next else old(disk)
      ensures left == if old(left).Some? && alive then Some(old(left).value - 1) else old(left)
    {
      if left == Some(0) { return false; }
      if left.Some? { left := Some(left.value - 1); }
      disk := next;
      return true;
    }

    method CreateStore(owner: Id, header: bool) returns (r: Result<Tables>)
      modifies this
      ensures (disk, r) == Create(old(disk), owner, Fate(old(left), header))
    {
      if Zero(owner) { return Err(InvalidScope); }
      if disk.lock || !disk.database.Missing? { return Err(DatabasePresent); }
      var alive := Write(Disk(true, Missing));
      if !alive { return Err(Storage); }
      r := Finish(header);
    }

    method ResumeStore(owner: Id, header: bool) returns (r: Result<Tables>)
      modifies this
      ensures (disk, r) == Resume(old(disk), owner, Fate(old(left), header))
    {
      if Zero(owner) { return Err(InvalidScope); }
      if !disk.lock { return Err(LockError(disk)); }
      var _ :- Continuable(disk.database);
      r := Finish(header);
    }

    /** Database file, schema transaction, write-ahead switch: what is still missing. */
    method Finish(header: bool) returns (r: Result<Tables>)
      requires disk.lock && Continuable(disk.database).Ok?
      modifies this
      ensures (disk, r) == Perform(old(disk).database, Remaining(old(disk).database, header), old(left))
    {
      var alive := true;
      if disk.database.Missing? {
        alive := Write(Disk(true, Empty));
        if !alive { return Err(Storage); }
      }
      if disk.database.Empty? && header {
        alive := Write(Disk(true, PRISTINE));
        if !alive { return Err(Storage); }
      }
      if disk.database.Empty? || disk.database == PRISTINE {
        alive := Write(Disk(true, SCHEMA));
        if !alive { return Err(Storage); }
      }
      if !disk.database.journal.WriteAhead? {
        alive := Write(Disk(true, disk.database.(journal := WriteAhead)));
        if !alive { return Err(Storage); }
      }
      if left.Some? { return Err(Storage); }
      EmptyTables(disk.database.content.tables);
      return Ok(disk.database.content.tables);
    }
  }
}
