/** Outcomes of coordinator port calls and their 66-byte canonical form. */
module PortCallOutcome {
  import opened Base

  datatype CallKind = Dispatch | Reconciliation | Observation

  datatype Outcome =
    | Externalized(evidence: Bytes32, firstExposure: Option<Bytes32>)
    | RetryableBeforeExternalization(evidence: Bytes32)
    | Unknown(evidence: Bytes32)
    | ProvenNotExternalized(evidence: Bytes32)
    | Pending(evidence: Bytes32)
    | Final(evidence: Bytes32)
    | FinalityInvalidated(priorFinality: Bytes32, reorg: Bytes32)

  const OUTCOME_BYTES: nat := 66

  function Tag(o: Outcome): Byte {
    match o
    case Externalized(_, _) => 1
    case RetryableBeforeExternalization(_) => 2
    case Unknown(_) => 3
    case ProvenNotExternalized(_) => 4
    case Pending(_) => 5
    case Final(_) => 6
    case FinalityInvalidated(_, _) => 7
  }

  function Primary(o: Outcome): Bytes32 {
    if o.FinalityInvalidated? then o.priorFinality else o.evidence
  }

  function Secondary(o: Outcome): Option<Bytes32> {
    match o
    case Externalized(_, firstExposure) => firstExposure
    case FinalityInvalidated(_, reorg) => Some(reorg)
    case _ => None
  }

  function CanonicalBytes(o: Outcome): (r: Bytes)
    ensures |r| == OUTCOME_BYTES
  {
    [Tag(o)] + Primary(o) + (match Secondary(o) case Some(s) => [1] + s case None => [0] + Zeros(32))
  }

  function Build(tag: Byte, flag: Byte, primary: Bytes32, secondary: Bytes32): (r: Option<Outcome>) {
    var zero := secondary == Zeros(32);
    if tag == 1 && flag == 0 && zero then Some(Externalized(primary, None))
    else if tag == 1 && flag == 1 && !zero then Some(Externalized(primary, Some(secondary)))
    else if tag == 2 && flag == 0 && zero then Some(RetryableBeforeExternalization(primary))
    else if tag == 3 && flag == 0 && zero then Some(Unknown(primary))
    else if tag == 4 && flag == 0 && zero then Some(ProvenNotExternalized(primary))
    else if tag == 5 && flag == 0 && zero then Some(Pending(primary))
    else if tag == 6 && flag == 0 && zero then Some(Final(primary))
    else if tag == 7 && flag == 1 && !zero then Some(FinalityInvalidated(primary, secondary))
    else None
  }

  /** Every refusal is the one corrupt-state error. */
  function Decode(bytes: Bytes): (r: Option<Outcome>) {
    if |bytes| != OUTCOME_BYTES || bytes[1..33] == Zeros(32) || bytes[33] > 1 then None
    else match Build(bytes[0], bytes[33], bytes[1..33], bytes[34..66])
      case None => None
      case Some(o) => if CanonicalBytes(o) == bytes then Some(o) else None
  }

  /** Zero never stands for a commitment. */
  predicate Committing(o: Outcome) {
    Primary(o) != Zeros(32) && (Secondary(o).Some? ==> Secondary(o).value != Zeros(32))
  }

  lemma Parts(o: Outcome)
    ensures var b := CanonicalBytes(o);
            && b[0] == Tag(o) && b[1..33] == Primary(o)
            && b[33] == (if Secondary(o).Some? then 1 else 0)
            && b[34..66] == (if Secondary(o).Some? then Secondary(o).value else Zeros(32))
  {
    var b := CanonicalBytes(o);
    var flag: Byte := if Secondary(o).Some? then 1 else 0;
    var tail := if Secondary(o).Some? then Secondary(o).value else Zeros(32);
    assert b == [Tag(o)] + Primary(o) + ([flag] + tail);
    assert b[1..33] == Primary(o);
    assert b[34..66] == tail;
  }

  /** Decoding inverts encoding exactly on outcomes whose commitments are nonzero. */
  lemma DecodeCanonical(o: Outcome)
    ensures Decode(CanonicalBytes(o)) == Some(o) <==> Committing(o)
    ensures Decode(CanonicalBytes(o)).Some? ==> Committing(o)
  {
    Parts(o);
  }

  /** Parsed bytes always re-encode to themselves, so an outcome has one accepted
      form only. */
  lemma DecodeInverts(bytes: Bytes)
    requires |bytes| == OUTCOME_BYTES && bytes[1..33] != Zeros(32) && bytes[33] <= 1
    requires Build(bytes[0], bytes[33], bytes[1..33], bytes[34..66]).Some?
    ensures var o := Build(bytes[0], bytes[33], bytes[1..33], bytes[34..66]).value;
            CanonicalBytes(o) == bytes && Committing(o) && Decode(bytes) == Some(o)
  {
    var o := Build(bytes[0], bytes[33], bytes[1..33], bytes[34..66]).value;
    Parts(o);
    assert bytes == [bytes[0]] + bytes[1..33] + ([bytes[33]] + bytes[34..66]);
  }

  /** Which outcomes answer which class of call. */
  predicate ValidFor(kind: CallKind, o: Outcome) {
    match kind
    case Dispatch => o.Externalized? || o.RetryableBeforeExternalization? || o.Unknown?
    case Reconciliation => o.Externalized? || o.ProvenNotExternalized? || o.Unknown?
    case Observation => o.Pending? || o.Final? || o.FinalityInvalidated?
  }
}
