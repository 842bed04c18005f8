/** The durable registry: one current row, a history by manifest digest, and the
    monotonic installation of signed manifests. */
module RegistryStore {
  import opened Base
  import opened RegistryWire
  import opened ManifestCodec
  import opened SignedRegistry

  const MAX_HISTORY_ROWS: nat := 4096

  datatype Row = Row(epoch: U64, digest: Bytes32, networkId: Bytes32, signed: Bytes, installedAt: U64)
  datatype Store = Store(current: Option<Row>, history: map<Bytes32, Row>)

  const FRESH: Store := Store(None, map[])

  /** What a store is opened with: rules, backend, authority set and network. */
  datatype Trust = Trust(rules: Validation, crypto: Crypto, authorities: AuthoritySet, networkId: Bytes32)

  datatype Outcome = Installed | AlreadyCurrent
  datatype Request = Request(signed: Signed, now: U64, minimumEpoch: U64)

  // ----- reading rows -----

  /** The envelope of a row, authenticated, and equal to the row's index columns. */
  function Retained(t: Trust, row: Row): Result<Resolved> {
    match DecodeSigned(t.rules, row.signed)
    case Err(_) => Err(CorruptState)
    case Ok(s) =>
      match VerifyAuthenticity(t.rules, t.crypto, t.authorities, s, t.networkId)
      case Err(_) => Err(CorruptState)
      case Ok(r) =>
        var _ :- Check(r.manifest.epoch == row.epoch && r.digest == row.digest
                       && r.manifest.networkId == row.networkId, CorruptState);
        Ok(r)
  }

  predicate RowSound(t: Trust, row: Row) {
    Retained(t, row).Ok?
  }

  predicate EpochsDistinct(history: map<Bytes32, Row>) {
    forall d, e :: d in history && e in history && history[d].epoch == history[e].epoch ==> d == e
  }

  /** Every row is filed under its digest, authenticated, and no epoch has two digests. */
  predicate HistorySound(t: Trust, history: map<Bytes32, Row>) {
    && (forall d :: d in history ==> history[d].digest == d && RowSound(t, history[d]))
    && EpochsDistinct(history)
  }

  predicate Newest(history: map<Bytes32, Row>, epoch: U64, digest: Bytes32) {
    digest in history && history[digest].epoch == epoch && forall d :: d in history ==> history[d].epoch <= epoch
  }

  predicate BlobsBounded(st: Store) {
    && (st.current.Some? ==> |st.current.value.signed| <= MAX_SIGNED_BYTES)
    && (forall d :: d in st.history ==> |st.history[d].signed| <= MAX_SIGNED_BYTES)
  }

  // ----- installing -----

  function Write(st: Store, row: Row): Store {
    Store(Some(row), if row.digest in st.history then st.history else st.history[row.digest := row])
  }

  function Install(t: Trust, st: Store, q: Request): (Store, Result<(Outcome, Resolved)>) {
    match Verify(t.rules, t.crypto, t.authorities, q.signed, Policy(q.now, t.networkId, q.minimumEpoch))
    case Err(e) => (st, Err(e))
    case Ok(resolved) =>
      match CanonicalSigned(t.rules, q.signed)
      case Err(e) => (st, Err(e))
      case Ok(bytes) =>
        var row := Row(resolved.manifest.epoch, resolved.digest, resolved.manifest.networkId, bytes, q.now);
        match Admission(t, st, row)
        case Err(e) => (st, Err(e))
        case Ok(Installed) => (Write(st, row), Ok((Installed, resolved)))
        case Ok(AlreadyCurrent) => (st, Ok((AlreadyCurrent, resolved)))
  }

  /** Whether an authentic row replaces the current one. */
  function Admission(t: Trust, st: Store, row: Row): Result<Outcome> {
    var _ :- Check(BlobsBounded(st), CorruptState);
    var _ :- Check(|st.history| <= MAX_HISTORY_ROWS, BoundExceeded);
    var _ :- Check(HistorySound(t, st.history), CorruptState);
    match st.current
    case None =>
      var _ :- Check(st.history == map[], CorruptState);
      Ok(Installed)
    case Some(current) =>
      var _ :- Retained(t, current);
      var _ :- Check(Newest(st.history, current.epoch, current.digest), CorruptState);
      var _ :- Check(!(row.epoch < current.epoch || (row.epoch == current.epoch && row.digest != current.digest)),
                     Rollback);
      if row.epoch == current.epoch then
        var _ :- Check(row.networkId == current.networkId, CorruptState);
        Ok(AlreadyCurrent)
      else Ok(Installed)
  }

  function LoadCurrent(t: Trust, st: Store, now: U64, minimumEpoch: U64): Result<Option<Resolved>> {
    match st.current
    case None => Ok(None)
    case Some(row) =>
      var s :- DecodeSigned(t.rules, row.signed);
      var r :- Verify(t.rules, t.crypto, t.authorities, s, Policy(now, t.networkId, minimumEpoch));
      var _ :- Check(r.manifest.epoch == row.epoch && r.digest == row.digest
                     && r.manifest.networkId == row.networkId, CorruptState);
      Ok(Some(r))
  }

  function LoadPinned(t: Trust, st: Store, digest: Bytes32): Result<Option<Resolved>> {
    var _ :- Check(digest != Zeros(32) && t.networkId != Zeros(32), ZeroField);
    if digest !in st.history then Ok(None)
    else
      var row := st.history[digest];
      var _ :- Check(|row.signed| <= MAX_SIGNED_BYTES, CorruptState);
      var r :- Retained(t, row.(digest := digest));
      Ok(Some(r))
  }

  // ----- the invariant of a store -----

  /** The manifest bytes inside a row's envelope. */
  function ManifestOf(t: Trust, row: Row): Bytes {
    match DecodeSigned(t.rules, row.signed) case Ok(s) => s.manifest case Err(_) => []
  }

  /** Installed manifests come from `known`, on which the digest has no collision. */
  ghost predicate CollisionFree(crypto: Crypto, known: set<Bytes>) {
    forall a, b :: a in known && b in known && crypto.digest(a) == crypto.digest(b) ==> a == b
  }

  ghost predicate From(t: Trust, st: Store, known: set<Bytes>) {
    forall d :: d in st.history ==> ManifestOf(t, st.history[d]) in known
  }

  /** The current row is the history row of the highest epoch. */
  ghost predicate StoreSound(t: Trust, st: Store) {
    && HistorySound(t, st.history) && BlobsBounded(st)
    && match st.current
       case None => st.history == map[]
       case Some(row) => Newest(st.history, row.epoch, row.digest) && st.history[row.digest] == row
  }

  function CurrentEpoch(st: Store): nat {
    if st.current.Some? then st.current.value.epoch else 0
  }

  /** No row is lost or changed, and the current epoch does not fall. */
  ghost predicate Grows(a: Store, b: Store) {
    (forall d :: d in a.history ==> d in b.history && b.history[d] == a.history[d])
      && CurrentEpoch(a) <= CurrentEpoch(b)
  }

  /** The row of an accepted request is authentic, and its digest is its manifest's. */
  lemma AcceptedRow(t: Trust, q: Request, resolved: Resolved, bytes: Bytes)
    requires Verify(t.rules, t.crypto, t.authorities, q.signed, Policy(q.now, t.networkId, q.minimumEpoch)) ==
             Ok(resolved)
    requires CanonicalSigned(t.rules, q.signed) == Ok(bytes)
    ensures var row := Row(resolved.manifest.epoch, resolved.digest, resolved.manifest.networkId, bytes, q.now);
            Retained(t, row) == Ok(resolved) && ManifestOf(t, row) == q.signed.manifest && |bytes| <= MAX_SIGNED_BYTES
  {
    hide DecodeSigned, VerifyAuthenticity, PutSigned, Decode, Shape;
    SignedCodec(t.rules, bytes, q.signed);
  }

  lemma DigestOfRow(t: Trust, row: Row)
    requires RowSound(t, row)
    ensures row.digest == t.crypto.digest(ManifestOf(t, row)) && Decode(t.rules, ManifestOf(t, row)).Ok?
    ensures Decode(t.rules, ManifestOf(t, row)).value == Retained(t, row).value.manifest
  {
    hide DecodeSigned, DecodeManifest, EncodeManifest, Shape, KeysValid;
  }

  /** In a sound store a new row has a new digest, or the digest has a collision. */
  lemma NewRowIsNew(t: Trust, st: Store, row: Row, known: set<Bytes>)
    requires StoreSound(t, st) && RowSound(t, row) && CurrentEpoch(st) < row.epoch
    requires From(t, st, known) && ManifestOf(t, row) in known && CollisionFree(t.crypto, known)
    ensures row.digest !in st.history
  {
    hide Retained, ManifestOf;
    if row.digest in st.history {
      var kept := st.history[row.digest];
      DigestOfRow(t, row);
      DigestOfRow(t, kept);
      assert ManifestOf(t, kept) == ManifestOf(t, row);
      SameManifestSameEpoch(t, kept, row);
      assert false;
    }
  }

  lemma SameManifestSameEpoch(t: Trust, a: Row, b: Row)
    requires RowSound(t, a) && RowSound(t, b) && ManifestOf(t, a) == ManifestOf(t, b)
    ensures a.epoch == b.epoch
  {
    DigestOfRow(t, a);
    DigestOfRow(t, b);
    hide DecodeSigned, VerifyAuthenticity, ManifestOf, Decode;
  }

  /** Writing a newer row keeps the store sound exactly when its digest is new. */
  lemma WriteKeeps(t: Trust, st: Store, row: Row)
    requires StoreSound(t, st) && RowSound(t, row) && (st.current.Some? ==> CurrentEpoch(st) < row.epoch)
             && |row.signed| <= MAX_SIGNED_BYTES
    ensures StoreSound(t, Write(st, row)) <==> row.digest !in st.history
    ensures row.digest !in st.history ==> Grows(st, Write(st, row))
  {
    hide RowSound;
    var after := Write(st, row);
    if row.digest in st.history {
      assert after.history[row.digest].epoch <= CurrentEpoch(st);
    }
  }

  /** An installation keeps the invariant, loses nothing and never lowers the epoch. */
  lemma InstallKeeps(t: Trust, st: Store, q: Request, known: set<Bytes>)
    requires StoreSound(t, st) && From(t, st, known) && q.signed.manifest in known && CollisionFree(t.crypto, known)
    ensures var after := Install(t, st, q).0;
            StoreSound(t, after) && From(t, after, known) && Grows(st, after)
  {
    hide Verify, CanonicalSigned, Retained, RowSound, ManifestOf, HistorySound, BlobsBounded, Newest, CollisionFree;
    var verified := Verify(t.rules, t.crypto, t.authorities, q.signed, Policy(q.now, t.networkId, q.minimumEpoch));
    var encoded := CanonicalSigned(t.rules, q.signed);
    if verified.Ok? && encoded.Ok? {
      var r := verified.value;
      AcceptedRow(t, q, r, encoded.value);
      var row := Row(r.manifest.epoch, r.digest, r.manifest.networkId, encoded.value, q.now);
      assert RowSound(t, row) by { SoundRow(t, row); }
      if Admission(t, st, row) == Ok(Installed) {
        if st.current.Some? { NewRowIsNew(t, st, row, known); }
        WriteKeeps(t, st, row);
      }
    }
  }

  lemma SoundRow(t: Trust, row: Row)
    requires Retained(t, row).Ok?
    ensures RowSound(t, row)
  {
    hide Retained;
  }

  // ----- every sequence of installations -----

  function Installs(t: Trust, st: Store, qs: seq<Request>): Store
    decreases |qs|
  {
    if qs == [] then st else Installs(t, Install(t, st, qs[0]).0, qs[1..])
  }

  ghost predicate Offered(qs: seq<Request>, known: set<Bytes>) {
    forall i :: 0 <= i < |qs| ==> qs[i].signed.manifest in known
  }

  lemma GrowsTransitive(a: Store, b: Store, c: Store)
    requires Grows(a, b) && Grows(b, c)
    ensures Grows(a, c)
  {
  }

  lemma {:induction false} InstallsKeep(t: Trust, st: Store, qs: seq<Request>, known: set<Bytes>)
    requires StoreSound(t, st) && From(t, st, known) && Offered(qs, known) && CollisionFree(t.crypto, known)
    ensures var after := Installs(t, st, qs);
            StoreSound(t, after) && From(t, after, known) && Grows(st, after)
    decreases |qs|
  {
    hide Install, StoreSound, From, CollisionFree, Grows;
    if qs == [] {
      GrowsReflexive(st);
    } else {
      var next := Install(t, st, qs[0]).0;
      InstallKeeps(t, st, qs[0], known);
      InstallsKeep(t, next, qs[1..], known);
      GrowsTransitive(st, next, Installs(t, next, qs[1..]));
    }
  }

  lemma GrowsReflexive(st: Store)
    ensures Grows(st, st)
  {
  }

  /** The stores before and after further installations on a fresh store: the current
      row is the history's highest epoch, no epoch has two digests, no row is ever
      lost, and the current epoch never falls. */
  lemma RegistryIsMonotonic(t: Trust, qs: seq<Request>, more: seq<Request>, known: set<Bytes>)
    requires Offered(qs, known) && Offered(more, known) && CollisionFree(t.crypto, known)
    ensures var a := Installs(t, FRESH, qs);
            var b := Installs(t, a, more);
            StoreSound(t, a) && StoreSound(t, b) && Grows(a, b)
  {
    hide Installs, CollisionFree, Grows, RowSound;
    InstallsKeep(t, FRESH, qs, known);
    InstallsKeep(t, Installs(t, FRESH, qs), more, known);
  }

  /** An accepted request is filed under its digest. */
  lemma AcceptedIsFiled(t: Trust, st: Store, q: Request, known: set<Bytes>)
    requires StoreSound(t, st) && From(t, st, known) && q.signed.manifest in known && CollisionFree(t.crypto, known)
    requires Install(t, st, q).1.Ok?
    ensures var (after, r) := Install(t, st, q);
            && r.value.1.digest in after.history
            && Retained(t, after.history[r.value.1.digest]) == Ok(r.value.1)
  {
    hide Verify, CanonicalSigned, ManifestOf, BlobsBounded, CollisionFree, DecodeSigned, VerifyAuthenticity;
    var resolved := Install(t, st, q).1.value.1;
    var bytes := CanonicalSigned(t.rules, q.signed).value;
    AcceptedRow(t, q, resolved, bytes);
    var row := Row(resolved.manifest.epoch, resolved.digest, resolved.manifest.networkId, bytes, q.now);
    if Admission(t, st, row) == Ok(Installed) {
      if st.current.Some? { NewRowIsNew(t, st, row, known); }
    } else {
      CurrentIsSame(t, st, row, known);
    }
  }

  /** Two authentic rows of one digest hold one manifest. */
  lemma CurrentIsSame(t: Trust, st: Store, row: Row, known: set<Bytes>)
    requires HistorySound(t, st.history) && From(t, st, known) && row.digest in st.history
    requires RowSound(t, row) && ManifestOf(t, row) in known && CollisionFree(t.crypto, known)
    ensures Retained(t, st.history[row.digest]) == Retained(t, row)
  {
    hide DecodeSigned, VerifyAuthenticity, ManifestOf, Decode;
    DigestOfRow(t, row);
    DigestOfRow(t, st.history[row.digest]);
  }

  /** A filed manifest stays loadable by its digest, whatever is installed later, and
      was signed by at least the threshold of pairwise distinct keys. */
  lemma PinnedForever(t: Trust, qs: seq<Request>, more: seq<Request>, known: set<Bytes>, d: Bytes32)
    requires Offered(qs, known) && Offered(more, known) && CollisionFree(t.crypto, known)
             && AuthoritySound(t.authorities)
    requires d in Installs(t, FRESH, qs).history && d != Zeros(32) && t.networkId != Zeros(32)
    ensures var a := Installs(t, FRESH, qs);
            var b := Installs(t, a, more);
            var loaded := LoadPinned(t, b, d);
            && loaded == LoadPinned(t, a, d) && loaded.Ok? && loaded.value.Some? && loaded.value.value.digest == d
            && SignedByThreshold(t, a.history[d])
  {
    hide Installs, CollisionFree, Retained, SignedByThreshold, Newest, EpochsDistinct;
    RegistryIsMonotonic(t, qs, more, known);
    var row := Installs(t, FRESH, qs).history[d];
    RetainedDigest(t, row);
    RowIsSigned(t, row);
  }

  /** Installing one more request after some. */
  lemma {:induction false} InstallsAppend(t: Trust, st: Store, qs: seq<Request>, more: seq<Request>)
    ensures Installs(t, st, qs + more) == Installs(t, Installs(t, st, qs), more)
    decreases |qs|
  {
    hide Install;
    if qs == [] {
      assert qs + more == more;
    } else {
      assert (qs + more)[1..] == qs[1..] + more;
      InstallsAppend(t, Install(t, st, qs[0]).0, qs[1..], more);
    }
  }

  lemma FiledIsPinned(t: Trust, a: Store, b: Store, r: Resolved)
    requires StoreSound(t, a) && Grows(a, b) && r.digest in a.history && Retained(t, a.history[r.digest]) == Ok(r)
    ensures LoadPinned(t, b, r.digest) ==
            if r.digest == Zeros(32) || t.networkId == Zeros(32) then Err(ZeroField) else Ok(Some(r))
  {
    hide Retained, Newest, EpochsDistinct;
  }

  /** In every run of installations, an accepted request stays loadable by its digest:
      whatever is installed later, the load yields the manifest it was accepted with. */
  lemma AcceptedIsPinned(t: Trust, qs: seq<Request>, q: Request, more: seq<Request>, known: set<Bytes>)
    requires Offered(qs, known) && q.signed.manifest in known && Offered(more, known) && CollisionFree(t.crypto, known)
    requires Install(t, Installs(t, FRESH, qs), q).1.Ok?
    ensures var r := Install(t, Installs(t, FRESH, qs), q).1.value.1;
            LoadPinned(t, Installs(t, FRESH, qs + [q] + more), r.digest) ==
            if r.digest == Zeros(32) || t.networkId == Zeros(32) then Err(ZeroField) else Ok(Some(r))
  {
    hide Install, StoreSound, From, CollisionFree, Grows, Retained, LoadPinned;
    var a := Installs(t, FRESH, qs);
    var b := Install(t, a, q).0;
    assert StoreSound(t, FRESH) && From(t, FRESH, known) by { FreshIsSound(t, known); }
    InstallsKeep(t, FRESH, qs, known);
    InstallKeeps(t, a, q, known);
    AcceptedIsFiled(t, a, q, known);
    InstallsKeep(t, b, more, known);
    InstallsAppend(t, FRESH, qs + [q], more);
    InstallsAppend(t, FRESH, qs, [q]);
    assert Installs(t, a, [q]) == Installs(t, b, []) == b;
    FiledIsPinned(t, b, Installs(t, b, more), Install(t, a, q).1.value.1);
  }

  lemma FreshIsSound(t: Trust, known: set<Bytes>)
    ensures StoreSound(t, FRESH) && From(t, FRESH, known)
  {
  }

  lemma RetainedDigest(t: Trust, row: Row)
    requires RowSound(t, row)
    ensures Retained(t, row).value.digest == row.digest
  {
    hide DecodeSigned, VerifyAuthenticity;
  }

  ghost predicate SignedByThreshold(t: Trust, row: Row) {
    exists s ::
      && DecodeSigned(t.rules, row.signed) == Ok(s)
      && (forall i :: 0 <= i < |s.signatures| ==> s.signatures[i].signer < |t.authorities.keys|)
      && |Signers(t.authorities, s.signatures)| >= t.authorities.threshold
      && (forall k :: k in Signers(t.authorities, s.signatures) ==>
            k in t.authorities.keys && exists sig :: sig in s.signatures && t.crypto.verify(k, row.digest, sig.bytes))
  }

  lemma RowIsSigned(t: Trust, row: Row)
    requires RowSound(t, row) && AuthoritySound(t.authorities)
    ensures SignedByThreshold(t, row)
  {
    hide DecodeSigned, VerifyAuthenticity, Decode, AuthoritySound;
    var s := DecodeSigned(t.rules, row.signed).value;
    ThresholdSigned(t.rules, t.crypto, t.authorities, s, t.networkId);
  }

  /** The current registry loads exactly while the policy admits it. */
  lemma CurrentLoads(t: Trust, st: Store, now: U64, minimumEpoch: U64)
    requires StoreSound(t, st) && st.current.Some?
    ensures var m := Retained(t, st.current.value);
            && m.Ok?
            && (LoadCurrent(t, st, now, minimumEpoch) == Ok(Some(m.value)) <==>
                m.value.manifest.epoch >= minimumEpoch
                  && m.value.manifest.validFrom <= now < m.value.manifest.expiresAt)
            && (LoadCurrent(t, st, now, minimumEpoch).Ok? ==>
                  LoadCurrent(t, st, now, minimumEpoch) == Ok(Some(m.value)))
  {
    hide DecodeSigned, EpochsDistinct, DecodeManifest, EncodeManifest, Shape, KeysValid;
    var row := st.current.value;
    assert RowSound(t, row);
  }

  lemma NewestIsUnique(t: Trust, history: map<Bytes32, Row>, high: (U64, Bytes32), other: (U64, Bytes32))
    requires HistorySound(t, history) && Newest(history, high.0, high.1)
    ensures Newest(history, other.0, other.1) <==> other == high
  {
    hide RowSound;
  }

  // ----- the store as an object -----

  /** What reading the rows outside `left` has established. */
  ghost predicate Read(t: Trust, history: map<Bytes32, Row>, left: set<Bytes32>, epochs: map<U64, Bytes32>) {
    && (forall d :: d in history && d !in left ==>
          history[d].digest == d && RowSound(t, history[d]) && history[d].epoch in epochs
            && epochs[history[d].epoch] == d)
    && (forall e :: e in epochs ==> epochs[e] in history && epochs[e] !in left && history[epochs[e]].epoch == e)
  }

  lemma ReadNone(t: Trust, history: map<Bytes32, Row>)
    ensures Read(t, history, history.Keys, map[])
  {
  }

  lemma ReadOne(t: Trust, history: map<Bytes32, Row>, left: set<Bytes32>, epochs: map<U64, Bytes32>, d: Bytes32)
    requires Read(t, history, left, epochs) && d in left && d in history && history[d].digest == d
             && RowSound(t, history[d])
    ensures history[d].epoch in epochs ==> epochs[history[d].epoch] != d && !EpochsDistinct(history)
    ensures history[d].epoch !in epochs ==> Read(t, history, left - {d}, epochs[history[d].epoch := d])
  {
    hide RowSound;
  }

  lemma ReadAll(t: Trust, history: map<Bytes32, Row>, epochs: map<U64, Bytes32>)
    requires Read(t, history, {}, epochs)
    ensures HistorySound(t, history)
  {
    hide RowSound;
  }

  class Registry {
    const trust: Trust
    var current: Option<Row>
    var history: map<Bytes32, Row>

    function Contents(): Store
      reads this
    {
      Store(current, history)
    }

    constructor (trust: Trust)
      ensures this.trust == trust && Contents() == FRESH
    {
      this.trust := trust;
      current := None;
      history := map[];
    }

    /** Re-authenticates every history row and finds the highest epoch. */
    method AuthenticateHistory() returns (r: Result<Option<(U64, Bytes32)>>)
      ensures |history| > MAX_HISTORY_ROWS ==> r == Err(BoundExceeded)
      ensures |history| <= MAX_HISTORY_ROWS ==> if HistorySound(trust, history) then r.Ok? else r == Err(CorruptState)
      ensures r.Ok? ==> if r.value.Some? then Newest(history, r.value.value.0, r.value.value.1) else history == map[]
    {
      hide RowSound, Read, EpochsDistinct;
      if |history| > MAX_HISTORY_ROWS { return Err(BoundExceeded); }
      var left := history.Keys;
      var epochs: map<U64, Bytes32> := map[];
      var high: Option<(U64, Bytes32)> := None;
      assert Read(trust, history, left, epochs) by { ReadNone(trust, history); }
      while left != {}
        invariant left <= history.Keys && Read(trust, history, left, epochs)
        invariant forall d :: d in history && d !in left ==> high.Some? && history[d].epoch <= high.value.0
        invariant high.Some? ==> high.value.1 in history && history[high.value.1].epoch == high.value.0
        decreases |left|
      {
        var d :| d in left;
        var row := history[d];
        if row.digest != d || !RowSound(trust, row) { return Err(CorruptState); }
        ReadOne(trust, history, left, epochs, d);
        if row.epoch in epochs && epochs[row.epoch] != d { return Err(CorruptState); }
        epochs := epochs[row.epoch := d];
        if high.None? || high.value.0 < row.epoch { high := Some((row.epoch, d)); }
        left := left - {d};
      }
      ReadAll(trust, history, epochs);
      return Ok(high);
    }

    method InstallRegistry(q: Request) returns (r: Result<(Outcome, Resolved)>)
      modifies this
      ensures (Contents(), r) == Install(trust, old(Contents()), q)
    {
      hide Verify, CanonicalSigned, Retained, HistorySound, BlobsBounded;
      var resolved :- Verify(trust.rules, trust.crypto, trust.authorities, q.signed,
                             Policy(q.now, trust.networkId, q.minimumEpoch));
      var bytes :- CanonicalSigned(trust.rules, q.signed);
      var row := Row(resolved.manifest.epoch, resolved.digest, resolved.manifest.networkId, bytes, q.now);
      var _ :- Check(BlobsBounded(Contents()), CorruptState);
      var high :- AuthenticateHistory();
      if current.Some? {
        var _ :- Retained(trust, current.value);
        var held := current.value;
        if high.Some? { NewestIsUnique(trust, history, high.value, (held.epoch, held.digest)); }
        if high.None? || high.value != (held.epoch, held.digest) { return Err(CorruptState); }
        if row.epoch < held.epoch || (row.epoch == held.epoch && row.digest != held.digest) { return Err(Rollback); }
        if row.epoch == held.epoch {
          if row.networkId != held.networkId { return Err(CorruptState); }
          return Ok((AlreadyCurrent, resolved));
        }
      } else if high.Some? {
        return Err(CorruptState);
      }
      if row.digest !in history { history := history[row.digest := row]; }
      current := Some(row);
      return Ok((Installed, resolved));
    }
  }
}
