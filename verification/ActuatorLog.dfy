/** The history of a store and its tables agree after every call: what was sent,
    answered, returned and committed is still what the tables say. */
module ActuatorLog {
  import opened Base
  import opened ActuationScope
  import opened ActuatorErrors
  import opened FeeReplacement
  import opened ActuatorTables
  import opened ActuatorCalls
  import opened ActuatorInvariant
  import opened ActuatorTransactions
  import Outcomes = PortCallOutcome

  // ----- the log against the tables -----

  /** The chain has shown the exact transaction. */
  predicate Observed(answer: Reconciliation) {
    answer.ExactMempool? || answer.ExactConfirmed? || answer.ExactFinal?
  }

  predicate Touched(t: Tables, e: Id) {
    e in t.operations && !Untouched(t.operations[e])
  }

  predicate FundingTouched(t: Tables, e: Id) {
    e in t.funding && !t.funding[e].seen.stage.Prepared?
  }

  predicate SentSound(t: Tables, event: Event)
    requires event.TerminalSent?
  {
    && Touched(t, event.effectId) && Chosen(t, event.routeId, event.leg, event.action, event.effectId)
    && (event.effectId, event.generation as nat) in t.attempts
    && t.attempts[(event.effectId, event.generation as nat)].exact.raw == event.raw
  }

  predicate ReturnSound(t: Tables, event: Event)
    requires event.NonceReturned? || event.PartialReturned? || event.PreSignatureReturned?
  {
    && event.effectId in t.transcripts
    && var c := t.transcripts[event.effectId];
       match event
       case NonceReturned(_, nonce) => c.localNonce == Some(nonce)
       case PartialReturned(_, digest, parity, partial) =>
         c.localPartial == Some(partial) && c.transcriptDigest == Some(digest) && c.parity == Some(parity)
       case PreSignatureReturned(_, nonce, partial, digest, parity) =>
         && c.verified && c.remoteNonce == Some(nonce) && c.remotePartial == Some(partial)
         && c.transcriptDigest == Some(digest) && c.parity == Some(parity)
  }

  predicate OutcomeSound(t: Tables, event: Event)
    requires event.OutcomeReturned?
  {
    var k := (event.kind, event.attemptId);
    && k in t.journal && Outcomes.ValidFor(event.kind, event.outcome)
    && t.journal[k].requestDigest == event.requestDigest && t.journal[k].locator == event.locator
    && t.journal[k].committed.Some? && t.journal[k].committed.value.outcome == event.outcome
  }

  predicate CommitSound(t: Tables, event: Event)
    requires event.Committed?
  {
    t.lease.Some? && event.epoch <= t.lease.value.epoch
      && (event.epoch == t.lease.value.epoch ==> event.owner == t.lease.value.owner)
  }

  predicate EventSound(t: Tables, event: Event) {
    match event
    case TerminalSent(_, _, _, _, _, _) => SentSound(t, event)
    case TerminalAnswered(e, answer) => Observed(answer) ==> Touched(t, e)
    case FundingSent(e) => FundingTouched(t, e)
    case FundingAnswered(e, answer) => Observed(answer) ==> FundingTouched(t, e)
    case NonceReturned(_, _) => ReturnSound(t, event)
    case PartialReturned(_, _, _, _) => ReturnSound(t, event)
    case PreSignatureReturned(_, _, _, _, _) => ReturnSound(t, event)
    case OutcomeReturned(_, _, _, _, _) => OutcomeSound(t, event)
    case Committed(_, _) => CommitSound(t, event)
  }

  lemma EventEvolves(a: Tables, b: Tables, event: Event)
    requires Evolves(a, b) && EventSound(a, event)
    ensures EventSound(b, event)
  {
    match event
    case TerminalSent(_, _, _, _, _, _) => hide FundingEvolves, TranscriptsEvolve, JournalEvolves;
    case TerminalAnswered(e, answer) => hide FundingEvolves, TranscriptsEvolve, JournalEvolves;
    case FundingSent(e) => hide OperationsEvolve, TranscriptsEvolve, JournalEvolves;
    case FundingAnswered(e, answer) => hide OperationsEvolve, TranscriptsEvolve, JournalEvolves;
    case NonceReturned(_, _) => hide OperationsEvolve, FundingEvolves, JournalEvolves;
    case PartialReturned(_, _, _, _) => hide OperationsEvolve, FundingEvolves, JournalEvolves;
    case PreSignatureReturned(_, _, _, _, _) => hide OperationsEvolve, FundingEvolves, JournalEvolves;
    case OutcomeReturned(_, _, _, _, _) => hide OperationsEvolve, FundingEvolves, TranscriptsEvolve;
    case Committed(_, _) => hide OperationsEvolve, FundingEvolves, TranscriptsEvolve, JournalEvolves;
  }

  /** How often an effect was handed to the broadcaster. */
  function Sends(log: seq<Event>, e: Id): nat {
    if log == [] then 0
    else
      var last := log[|log| - 1];
      Sends(log[..|log| - 1], e) + if last.TerminalSent? && last.effectId == e then 1 else 0
  }

  function FundingSends(log: seq<Event>, e: Id): nat {
    if log == [] then 0
    else
      var last := log[|log| - 1];
      FundingSends(log[..|log| - 1], e) + if last == FundingSent(e) then 1 else 0
  }

  function Attempted(t: Tables, e: Id): nat {
    if e in t.operations then t.operations[e].sendAttempts else 0
  }

  function FundingAttempted(t: Tables, e: Id): nat {
    if e in t.funding then t.funding[e].sendAttempts else 0
  }

  /** External sends never exceed the durable attempts. */
  ghost predicate SendsCounted(t: Tables, log: seq<Event>) {
    forall e :: Sends(log, e) <= Attempted(t, e) && FundingSends(log, e) <= FundingAttempted(t, e)
  }

  /** Commits come in the order of their epochs, and an epoch has one owner. */
  predicate EpochsOrdered(log: seq<Event>) {
    forall i, j :: 0 <= i < j < |log| && log[i].Committed? && log[j].Committed? ==>
      log[i].epoch <= log[j].epoch && (log[i].epoch == log[j].epoch ==> log[i].owner == log[j].owner)
  }

  predicate EventsSound(t: Tables, log: seq<Event>) {
    forall i :: 0 <= i < |log| ==> EventSound(t, log[i])
  }

  /** The lease was committed by its owner. */
  predicate LeaseLogged(t: Tables, log: seq<Event>) {
    t.lease.Some? ==> Committed(t.lease.value.epoch, t.lease.value.owner) in log
  }

  ghost predicate LogSound(t: Tables, log: seq<Event>) {
    EventsSound(t, log) && SendsCounted(t, log) && EpochsOrdered(log) && LeaseLogged(t, log)
  }

  /** The invariant of every run. */
  ghost predicate Safe(w: World) {
    Sound(w.tables) && Audit(w.tables) && LogSound(w.tables, w.log)
  }

  /** `b` is a safe world some commits and answers after `a`. */
  ghost predicate Follows(a: World, b: World) {
    Safe(b) && Evolves(a.tables, b.tables) && a.log <= b.log
  }

  /** The same under one owner and one lease. */
  ghost predicate Next(a: World, b: World) {
    Follows(a, b) && a.owner == b.owner && a.tables.lease == b.tables.lease
  }

  lemma EvolvesReflexive(t: Tables)
    ensures Evolves(t, t)
  {
  }

  lemma FollowsTransitive(a: World, b: World, c: World)
    requires Follows(a, b) && Follows(b, c)
    ensures Follows(a, c)
  {
    hide Safe, Evolves;
    EvolvesTransitive(a.tables, b.tables, c.tables);
  }

  lemma NextTransitive(a: World, b: World, c: World)
    requires Next(a, b) && Next(b, c)
    ensures Next(a, c)
  {
    hide Follows;
    FollowsTransitive(a, b, c);
  }

  lemma NextReflexive(w: World)
    requires Safe(w)
    ensures Next(w, w)
  {
    hide Safe, Evolves;
    EvolvesReflexive(w.tables);
  }

  // ----- one commit, one event -----

  lemma EventsEvolve(a: Tables, b: Tables, log: seq<Event>)
    requires Evolves(a, b) && EventsSound(a, log)
    ensures EventsSound(b, log)
  {
    hide Evolves, EventSound;
    forall i | 0 <= i < |log|
      ensures EventSound(b, log[i])
    {
      EventEvolves(a, b, log[i]);
    }
  }

  lemma SendsEvolve(a: Tables, b: Tables, log: seq<Event>)
    requires Evolves(a, b) && SendsCounted(a, log)
    ensures SendsCounted(b, log)
  {
    hide TranscriptsEvolve, JournalEvolves, SameFamily, SameExceptFence;
    forall e
      ensures Sends(log, e) <= Attempted(b, e) && FundingSends(log, e) <= FundingAttempted(b, e)
    {
      assert Attempted(a, e) <= Attempted(b, e);
    }
  }

  /** Appending an event that the tables bear out. */
  lemma Append(t: Tables, log: seq<Event>, event: Event)
    requires EventsSound(t, log) && EventSound(t, event) && SendsCounted(t, log) && EpochsOrdered(log)
    requires event.TerminalSent? ==> Sends(log, event.effectId) < Attempted(t, event.effectId)
    requires event.FundingSent? ==> FundingSends(log, event.effectId) < FundingAttempted(t, event.effectId)
    requires event.Committed? ==>
               t.lease.Some? && event.epoch == t.lease.value.epoch && event.owner == t.lease.value.owner
    ensures EventsSound(t, log + [event]) && SendsCounted(t, log + [event]) && EpochsOrdered(log + [event])
  {
    var longer := log + [event];
    assert longer[..|longer| - 1] == log;
    assert EpochsOrdered(longer) by {
      forall i | 0 <= i < |log| && log[i].Committed?
        ensures CommitSound(t, log[i])
      {
        assert EventSound(t, log[i]);
      }
    }
    assert EventsSound(t, longer) by {
      hide EventSound;
    }
    hide EventsSound, EpochsOrdered;
  }

  lemma EmitNext(w: World, event: Event)
    requires Safe(w) && EventSound(w.tables, event) && !event.Committed?
    requires event.TerminalSent? ==> Sends(w.log, event.effectId) < Attempted(w.tables, event.effectId)
    requires event.FundingSent? ==> FundingSends(w.log, event.effectId) < FundingAttempted(w.tables, event.effectId)
    ensures Next(w, Emit(w, event))
  {
    hide Sound, Audit, Evolves, EventsSound, SendsCounted, EpochsOrdered, EventSound;
    EvolvesReflexive(w.tables);
    Append(w.tables, w.log, event);
  }

  /** A commit by the holder of the lease, audited. */
  lemma CommitFollows(w: World, body: Result<Tables>, epoch: U64)
    requires Safe(w)
    requires body.Ok? ==> Sound(body.value) && Evolves(w.tables, body.value) && Held(body.value, w.owner, epoch)
    ensures Follows(w, Commit(w, body, epoch).0)
    ensures body.Ok? ==> forall e :: Sends(Commit(w, body, epoch).0.log, e) == Sends(w.log, e)
    ensures body.Ok? ==> forall e :: FundingSends(Commit(w, body, epoch).0.log, e) == FundingSends(w.log, e)
  {
    hide Sound, Audit, Evolves, EventsSound, SendsCounted, EpochsOrdered;
    EvolvesReflexive(w.tables);
    if Commit(w, body, epoch).1.Ok? {
      EventsEvolve(w.tables, body.value, w.log);
      SendsEvolve(w.tables, body.value, w.log);
      Append(body.value, w.log, Committed(epoch, w.owner));
      var longer := w.log + [Committed(epoch, w.owner)];
      assert longer[..|longer| - 1] == w.log;
    }
  }

  lemma CommitNext(w: World, body: Result<Tables>, epoch: U64)
    requires Safe(w) && Transacts(w.tables, body, w.owner, epoch)
    ensures Next(w, Commit(w, body, epoch).0)
    ensures body.Ok? ==> forall e :: Sends(Commit(w, body, epoch).0.log, e) == Sends(w.log, e)
    ensures body.Ok? ==> forall e :: FundingSends(Commit(w, body, epoch).0.log, e) == FundingSends(w.log, e)
  {
    hide Safe, Sound, Evolves, Audit, Follows;
    CommitFollows(w, body, epoch);
  }
}
