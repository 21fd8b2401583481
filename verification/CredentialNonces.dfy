/** Which key and nonce seal which field: in one row, after a store, in a rotation, and over any history of both. */
module CredentialNonces {
  import opened Routing
  import opened Wrappers
  import opened Credentials

  // ---------------------------------------------------------------- one row

  datatype Field = ApiKey | ApiSecret | Passphrase

  function PlainOf(s: Secrets, f: Field): Bytes {
    match f
    case ApiKey => s.apiKey
    case ApiSecret => s.apiSecret
    case Passphrase => s.passphrase
  }

  function SealedOf(row: Row, f: Field): Bytes {
    match f
    case ApiKey => row.apiKey
    case ApiSecret => row.apiSecret
    case Passphrase => row.passphrase
  }

  function DrawnFor(w: World, f: Field): Option<Nonce> {
    match f
    case ApiKey => w.keyNonce
    case ApiSecret => w.secretNonce
    case Passphrase => w.passphraseNonce
  }

  /** The twelve bytes of the row's nonce column that belong to a field. */
  function PartOf(row: Row, f: Field): Bytes {
    match f
    case ApiKey => if |row.nonce| < 12 then [] else row.nonce[0..12]
    case ApiSecret => if |row.nonce| < 24 then [] else row.nonce[12..24]
    case Passphrase => if |row.nonce| < 36 then [] else row.nonce[24..36]
  }

  /** A passphrase is sealed only if there is one; the other fields always are. */
  predicate Seals(s: Secrets, f: Field) {
    f == Passphrase ==> s.passphrase != []
  }

  /** The row seals the field under the key derived from its own salt and under the field's own part of the nonce
      column, which is what was drawn for that field. */
  ghost predicate SealsOwn(c: Crypto, passphrase: Bytes, s: Secrets, row: Row, w: World, f: Field) {
    && DrawnFor(w, f).Some? && PartOf(row, f) == DrawnFor(w, f).value
    && SealedOf(row, f) == c.seal(c.derive(passphrase, row.salt), DrawnFor(w, f).value, PlainOf(s, f))
  }

  ghost predicate WellSealed(c: Crypto, passphrase: Bytes, s: Secrets, row: Row, w: World) {
    && w.salt == Some(row.salt)
    && (forall f | Seals(s, f) :: SealsOwn(c, passphrase, s, row, w, f))
    && (s.passphrase == [] ==> row.passphrase == []) && |row.nonce| == (if s.passphrase == [] then 24 else 36)
  }

  /** No two fields of the row have the same nonce. */
  ghost predicate PartsDiffer(s: Secrets, row: Row) {
    forall f, g | f != g && Seals(s, f) && Seals(s, g) :: PartOf(row, f) != PartOf(row, g)
  }

  lemma LockSeals(c: Crypto, passphrase: Bytes, s: Secrets, createdAt: int, w: World)
    requires Random(w, s)
    ensures forall created ::
      WellSealed(c, passphrase, s, Lock(c, passphrase, s, createdAt, w).(createdAt := created), w)
    ensures WellSealed(c, passphrase, s, Lock(c, passphrase, s, createdAt, w), w)
  {
    var own: Bytes := if s.passphrase == [] then [] else w.passphraseNonce.value;
    UnpackedNonces(w.keyNonce.value, w.secretNonce.value, own);
    var nonce := w.keyNonce.value + w.secretNonce.value + own;
    assert s.passphrase != [] ==> nonce[24..36] == nonce[24..];
  }

  lemma StoredSeals(
      c: Crypto, passphrase: Bytes, rows: map<VenueId, Row>, venue: VenueId, s: Secrets, createdAt: int, w: World)
    requires Stored(c, passphrase, rows, venue, s, createdAt, w).Success?
    ensures var rows' := Stored(c, passphrase, rows, venue, s, createdAt, w).value;
      && venue in rows' && rows' == rows[venue := rows'[venue]]
      && WellSealed(c, passphrase, s, rows'[venue], w)
  {
    LockSeals(c, passphrase, s, createdAt, w);
  }

  /** The nonces drawn for one credential are pairwise different. */
  ghost predicate DrawsDiffer(w: World) {
    forall f, g | f != g && DrawnFor(w, f).Some? && DrawnFor(w, g).Some? :: DrawnFor(w, f) != DrawnFor(w, g)
  }

  /** After a store: the row holds, in this order, the nonces drawn for its fields; each field is sealed under its
      own; and if the draws differ, so do the parts of the row. */
  lemma {:induction false} StoreSealsEachFieldUnderItsOwn(
      c: Crypto, passphrase: Bytes, rows: map<VenueId, Row>, venue: VenueId, s: Secrets, w: World)
    requires Stored(c, passphrase, rows, venue, s, w.now, w).Success?
    ensures var rows' := Stored(c, passphrase, rows, venue, s, w.now, w).value;
      && venue in rows' && WellSealed(c, passphrase, s, rows'[venue], w)
      && (DrawsDiffer(w) ==> PartsDiffer(s, rows'[venue]))
  {
    StoredSeals(c, passphrase, rows, venue, s, w.now, w);
  }

  // ---------------------------------------------------------------- a rotation

  /** What the row opens to. */
  function Opened(c: Crypto, passphrase: Bytes, venue: VenueId, row: Row): Secrets {
    match Unlock(c, passphrase, venue, row)
    case Success(cred) => cred.secrets
    case Failure(_) => Secrets([], [], [])
  }

  /** Each venue done is sealed anew, with the draws made for it. */
  ghost predicate Resealed(
      c: Crypto, old_: Bytes, new_: Bytes, rows: map<VenueId, Row>, ids: seq<VenueId>, world: VenueId -> World,
      r: Rotation)
  {
    && r.done <= |ids|
    && forall j | 0 <= j < r.done ::
         && ids[j] in rows && ids[j] in r.rows
         && WellSealed(c, new_, Opened(c, old_, ids[j], rows[ids[j]]), r.rows[ids[j]], world(ids[j]))
  }

  lemma RekeySeals(c: Crypto, old_: Bytes, new_: Bytes, rows: map<VenueId, Row>, venue: VenueId, w: World)
    requires venue in rows && Rekeyed(c, old_, new_, rows, venue, w).Success?
    ensures var rows' := Rekeyed(c, old_, new_, rows, venue, w).value;
      && venue in rows' && rows' == rows[venue := rows'[venue]]
      && WellSealed(c, new_, Opened(c, old_, venue, rows[venue]), rows'[venue], w)
  {
    var cred := Unlock(c, old_, venue, rows[venue]).value;
    StoredSeals(c, new_, rows, venue, cred.secrets, cred.createdAt, w);
  }

  lemma OneMoreResealed(
      c: Crypto, old_: Bytes, new_: Bytes, rows: map<VenueId, Row>, ids: seq<VenueId>, world: VenueId -> World,
      r: Rotation, row: Row)
    requires Distinct(ids) && ids != [] && r.done == |ids| - 1 && ids[|ids| - 1] in rows
    requires Resealed(c, old_, new_, rows, ids[..|ids| - 1], world, r)
    requires var v := ids[|ids| - 1]; WellSealed(c, new_, Opened(c, old_, v, rows[v]), row, world(v))
    ensures Resealed(c, old_, new_, rows, ids, world, Rotation(r.rows[ids[|ids| - 1] := row], |ids|, None))
  {
    forall j | 0 <= j < |ids| - 1 ensures ids[..|ids| - 1][j] == ids[j] && ids[j] != ids[|ids| - 1] {}
  }

  /** In a rotation, at every point and after an error too: each venue done is sealed under the new passphrase with
      the salt and the nonces drawn for it, each field under its own; if the draws differ, so do the parts of the
      row. */
  lemma RotationSealsEachFieldUnderItsOwn(
      c: Crypto, old_: Bytes, new_: Bytes, rows: map<VenueId, Row>, ids: seq<VenueId>, world: VenueId -> World)
    requires Lawful(c) && Distinct(ids) && forall v | v in ids :: v in rows
    ensures var r := Rotated(c, old_, new_, rows, ids, world);
      && Resealed(c, old_, new_, rows, ids, world, r)
      && forall j | 0 <= j < r.done && DrawsDiffer(world(ids[j])) ::
           PartsDiffer(Opened(c, old_, ids[j], rows[ids[j]]), r.rows[ids[j]])
  {
    RotationReseals(c, old_, new_, rows, ids, world);
    var r := Rotated(c, old_, new_, rows, ids, world);
    forall j | 0 <= j < r.done && DrawsDiffer(world(ids[j]))
      ensures PartsDiffer(Opened(c, old_, ids[j], rows[ids[j]]), r.rows[ids[j]])
    {
      OwnPartsDiffer(c, new_, Opened(c, old_, ids[j], rows[ids[j]]), r.rows[ids[j]], world(ids[j]));
    }
  }

  lemma OwnPartsDiffer(c: Crypto, passphrase: Bytes, s: Secrets, row: Row, w: World)
    requires WellSealed(c, passphrase, s, row, w) && DrawsDiffer(w)
    ensures PartsDiffer(s, row)
  {}

  lemma {:induction false} RotationReseals(
      c: Crypto, old_: Bytes, new_: Bytes, rows: map<VenueId, Row>, ids: seq<VenueId>, world: VenueId -> World)
    requires Lawful(c) && Distinct(ids) && forall v | v in ids :: v in rows
    ensures Resealed(c, old_, new_, rows, ids, world, Rotated(c, old_, new_, rows, ids, world))
  {
    if ids != [] {
      var last := |ids| - 1;
      var r := Rotated(c, old_, new_, rows, ids[..last], world);
      RotationReseals(c, old_, new_, rows, ids[..last], world);
      RotationKeepsEveryPlaintext(c, old_, new_, rows, ids[..last], world);
      assert ids[last] in ids;
      if r.error.None? && Rekeyed(c, old_, new_, r.rows, ids[last], world(ids[last])).Success? {
        LastUntouched(c, old_, new_, rows, ids, r);
        RekeySeals(c, old_, new_, r.rows, ids[last], world(ids[last]));
        OneMoreResealed(c, old_, new_, rows, ids, world, r,
                        Rekeyed(c, old_, new_, r.rows, ids[last], world(ids[last])).value[ids[last]]);
      } else {
        assert forall j | 0 <= j < r.done :: ids[..last][j] == ids[j];
      }
    }
  }

  // ---------------------------------------------------------------- any history of stores and rotations

  datatype Operation =
    | Storing(venue: VenueId, secrets: Secrets, w: World)
    | Rotating(old_: Bytes, new_: Bytes, ids: seq<VenueId>, world: VenueId -> World)

  /** One row written: by which operation, for which venue, under which passphrase, from which secrets. */
  datatype Written = Written(op: nat, venue: VenueId, passphrase: Bytes, secrets: Secrets, row: Row)

  datatype Vault = Vault(rows: map<VenueId, Row>, passphrase: Bytes, log: seq<Written>)

  /** What the operation draws for a venue it writes. */
  function DrawsOf(op: Operation, v: VenueId): World {
    match op
    case Storing(_, _, w) => w
    case Rotating(_, _, _, world) => world(v)
  }

  predicate Writes(op: Operation, v: VenueId) {
    match op
    case Storing(venue, _, _) => v == venue
    case Rotating(_, _, ids, _) => v in ids
  }

  /** A rotation goes through the stored venues, each once. */
  ghost predicate Lists(rows: map<VenueId, Row>, op: Operation) {
    op.Rotating? ==> Distinct(op.ids) && forall v :: v in op.ids <==> v in rows
  }

  function WrittenBy(
      c: Crypto, k: nat, op: Operation, rows: map<VenueId, Row>, r: Rotation): seq<Written>
    requires op.Rotating? && r.done <= |op.ids|
    requires forall j | 0 <= j < r.done :: op.ids[j] in rows && op.ids[j] in r.rows
  {
    seq(r.done, j requires 0 <= j < r.done =>
      var v := op.ids[j]; Written(k, v, op.new_, Opened(c, op.old_, v, rows[v]), r.rows[v]))
  }

  ghost function StoreInto(c: Crypto, vault: Vault, k: nat, op: Operation): Vault
    requires op.Storing?
  {
    match Stored(c, vault.passphrase, vault.rows, op.venue, op.secrets, op.w.now, op.w)
    case Failure(_) => vault
    case Success(rows) =>
      Vault(rows, vault.passphrase,
            vault.log + [Written(k, op.venue, vault.passphrase, op.secrets, rows[op.venue])])
  }

  /** What the operation with number k does. An operation that its vault refuses changes nothing. */
  ghost function After(c: Crypto, vault: Vault, k: nat, op: Operation): Vault
    requires Lawful(c)
  {
    match op
    case Storing(venue, secrets, w) => if venue == "" then vault else StoreInto(c, vault, k, op)
    case Rotating(old_, new_, ids, world) =>
      if old_ != vault.passphrase || new_ == [] || !Lists(vault.rows, op) then vault
      else
        var r := Rotated(c, old_, new_, vault.rows, ids, world);
        RotationReseals(c, old_, new_, vault.rows, ids, world);
        Vault(r.rows, LeftWith(old_, new_, r), vault.log + WrittenBy(c, k, op, vault.rows, r))
  }

  ghost function History(c: Crypto, passphrase: Bytes, ops: seq<Operation>): Vault
    requires Lawful(c)
  {
    if ops == [] then Vault(map[], passphrase, [])
    else After(c, History(c, passphrase, ops[..|ops| - 1]), |ops| - 1, ops[|ops| - 1])
  }

  /** The log entry is sealed with what its operation drew for its venue. */
  ghost predicate Traced(c: Crypto, ops: seq<Operation>, e: Written) {
    && e.op < |ops| && Writes(ops[e.op], e.venue)
    && WellSealed(c, e.passphrase, e.secrets, e.row, DrawsOf(ops[e.op], e.venue))
  }

  ghost predicate LogTraced(c: Crypto, ops: seq<Operation>, log: seq<Written>) {
    && (forall e | e in log :: Traced(c, ops, e))
    && (forall i, j | 0 <= i < j < |log| :: log[i].op != log[j].op || log[i].venue != log[j].venue)
  }

  /** Every stored row was written by some entry of the log. */
  ghost predicate Logged(rows: map<VenueId, Row>, log: seq<Written>) {
    forall v | v in rows :: exists e :: e in log && e.venue == v && e.row == rows[v]
  }

  lemma TracedLater(c: Crypto, ops: seq<Operation>, log: seq<Written>)
    requires ops != [] && LogTraced(c, ops[..|ops| - 1], log)
    ensures LogTraced(c, ops, log) && forall e | e in log :: e.op < |ops| - 1
  {
    forall e | e in log ensures Traced(c, ops, e) && e.op < |ops| - 1 {
      assert Traced(c, ops[..|ops| - 1], e);
    }
  }

  lemma TracedConcat(c: Crypto, ops: seq<Operation>, log: seq<Written>, more: seq<Written>)
    requires LogTraced(c, ops, log) && LogTraced(c, ops, more)
    requires forall e, e' | e in log && e' in more :: e.op != e'.op
    ensures LogTraced(c, ops, log + more)
  {}

  lemma LoggedMore(rows: map<VenueId, Row>, rows': map<VenueId, Row>, log: seq<Written>, more: seq<Written>)
    requires Logged(rows, log)
    requires forall v | v in rows' ::
      (v in rows && rows'[v] == rows[v]) || exists e :: e in more && e.venue == v && e.row == rows'[v]
    ensures Logged(rows', log + more)
  {
    forall v | v in rows' ensures exists e :: e in log + more && e.venue == v && e.row == rows'[v] {
      if v in rows && rows'[v] == rows[v] {
        var e :| e in log && e.venue == v && e.row == rows[v];
        assert e in log + more;
      } else {
        var e :| e in more && e.venue == v && e.row == rows'[v];
        assert e in log + more;
      }
    }
  }

  lemma StoreIsLogged(c: Crypto, vault: Vault, ops: seq<Operation>)
    requires Lawful(c) && ops != [] && ops[|ops| - 1].Storing?
    requires LogTraced(c, ops[..|ops| - 1], vault.log) && Logged(vault.rows, vault.log)
    ensures var after := StoreInto(c, vault, |ops| - 1, ops[|ops| - 1]);
      LogTraced(c, ops, after.log) && Logged(after.rows, after.log)
  {
    var op := ops[|ops| - 1];
    TracedLater(c, ops, vault.log);
    var stored := Stored(c, vault.passphrase, vault.rows, op.venue, op.secrets, op.w.now, op.w);
    if stored.Success? {
      StoredSeals(c, vault.passphrase, vault.rows, op.venue, op.secrets, op.w.now, op.w);
      var e := Written(|ops| - 1, op.venue, vault.passphrase, op.secrets, stored.value[op.venue]);
      assert Traced(c, ops, e);
      TracedConcat(c, ops, vault.log, [e]);
      assert e in [e];
      LoggedMore(vault.rows, stored.value, vault.log, [e]);
    }
  }

  lemma RotationIsLogged(c: Crypto, vault: Vault, ops: seq<Operation>)
    requires Lawful(c) && ops != [] && ops[|ops| - 1].Rotating? && Lists(vault.rows, ops[|ops| - 1])
    requires LogTraced(c, ops[..|ops| - 1], vault.log) && Logged(vault.rows, vault.log)
    ensures var op := ops[|ops| - 1];
      var r := Rotated(c, op.old_, op.new_, vault.rows, op.ids, op.world);
      && Resealed(c, op.old_, op.new_, vault.rows, op.ids, op.world, r)
      && var log := vault.log + WrittenBy(c, |ops| - 1, op, vault.rows, r);
      LogTraced(c, ops, log) && Logged(r.rows, log)
  {
    var op := ops[|ops| - 1];
    var r := Rotated(c, op.old_, op.new_, vault.rows, op.ids, op.world);
    RotationReseals(c, op.old_, op.new_, vault.rows, op.ids, op.world);
    RotationKeepsEveryPlaintext(c, op.old_, op.new_, vault.rows, op.ids, op.world);
    TracedLater(c, ops, vault.log);
    var more := WrittenBy(c, |ops| - 1, op, vault.rows, r);
    WrittenTraced(c, ops, vault.rows, r);
    TracedConcat(c, ops, vault.log, more);
    forall v | v in r.rows
      ensures (v in vault.rows && r.rows[v] == vault.rows[v])
              || exists e :: e in more && e.venue == v && e.row == r.rows[v]
    {
      if v in op.ids[..r.done] {
        var j :| 0 <= j < r.done && op.ids[j] == v;
        assert more[j] in more;
      }
    }
    LoggedMore(vault.rows, r.rows, vault.log, more);
  }

  lemma WrittenTraced(c: Crypto, ops: seq<Operation>, rows: map<VenueId, Row>, r: Rotation)
    requires ops != [] && ops[|ops| - 1].Rotating? && Distinct(ops[|ops| - 1].ids)
    requires var op := ops[|ops| - 1]; Resealed(c, op.old_, op.new_, rows, op.ids, op.world, r)
    ensures LogTraced(c, ops, WrittenBy(c, |ops| - 1, ops[|ops| - 1], rows, r))
    ensures forall e | e in WrittenBy(c, |ops| - 1, ops[|ops| - 1], rows, r) :: e.op == |ops| - 1
  {
    var op := ops[|ops| - 1];
    var more := WrittenBy(c, |ops| - 1, op, rows, r);
    forall e | e in more ensures Traced(c, ops, e) {
      var j :| 0 <= j < r.done && more[j] == e;
      assert op.ids[j] in op.ids;
    }
  }

  lemma {:induction false} HistoryIsLogged(c: Crypto, passphrase: Bytes, ops: seq<Operation>)
    requires Lawful(c)
    ensures LogTraced(c, ops, History(c, passphrase, ops).log)
    ensures Logged(History(c, passphrase, ops).rows, History(c, passphrase, ops).log)
  {
    if ops != [] {
      var before, op := ops[..|ops| - 1], ops[|ops| - 1];
      var vault := History(c, passphrase, before);
      HistoryIsLogged(c, passphrase, before);
      TracedLater(c, ops, vault.log);
      if op.Storing? {
        StoreIsLogged(c, vault, ops);
      } else if Lists(vault.rows, op) {
        RotationIsLogged(c, vault, ops);
      }
    }
  }

  /** No nonce is drawn twice, for whichever field, venue and operation. */
  ghost predicate DrawnOnce(ops: seq<Operation>) {
    forall k, v, f, l, u, g ::
      0 <= k < |ops| && 0 <= l < |ops| && Writes(ops[k], v) && Writes(ops[l], u) && (k != l || v != u || f != g)
      && DrawnFor(DrawsOf(ops[k], v), f).Some? && DrawnFor(DrawsOf(ops[l], u), g).Some? ==>
        DrawnFor(DrawsOf(ops[k], v), f) != DrawnFor(DrawsOf(ops[l], u), g)
  }

  /** Over any history of stores and rotations, failed and repeated ones included, that draws no nonce twice: every
      field of every row ever written is sealed under the key of that row's salt and its own nonce, no two fields
      under the same key and nonce, and the rows in the store are among these. */
  lemma {:induction false} NoKeyAndNonceSealsTwice(c: Crypto, passphrase: Bytes, ops: seq<Operation>)
    requires Lawful(c) && DrawnOnce(ops)
    ensures var vault := History(c, passphrase, ops);
      && Logged(vault.rows, vault.log)
      && (forall e, f | e in vault.log && Seals(e.secrets, f) ::
           |PartOf(e.row, f)| == 12
           && SealedOf(e.row, f)
              == c.seal(c.derive(e.passphrase, e.row.salt), PartOf(e.row, f), PlainOf(e.secrets, f)))
      && forall i, f, j, g ::
           0 <= i < |vault.log| && 0 <= j < |vault.log| && (i != j || f != g)
           && Seals(vault.log[i].secrets, f) && Seals(vault.log[j].secrets, g) ==>
             (c.derive(vault.log[i].passphrase, vault.log[i].row.salt), PartOf(vault.log[i].row, f))
             != (c.derive(vault.log[j].passphrase, vault.log[j].row.salt), PartOf(vault.log[j].row, g))
  {
    HistoryIsLogged(c, passphrase, ops);
    var log := History(c, passphrase, ops).log;
    forall e, f | e in log && Seals(e.secrets, f)
      ensures SealsOwn(c, e.passphrase, e.secrets, e.row, DrawsOf(ops[e.op], e.venue), f)
    {
      assert Traced(c, ops, e);
    }
    forall i, f, j, g |
      0 <= i < |log| && 0 <= j < |log| && (i != j || f != g) && Seals(log[i].secrets, f) && Seals(log[j].secrets, g)
      ensures PartOf(log[i].row, f) != PartOf(log[j].row, g)
    {
      assert log[i] in log && log[j] in log && Traced(c, ops, log[i]) && Traced(c, ops, log[j]);
      assert log[i].op != log[j].op || log[i].venue != log[j].venue || f != g;
    }
  }
}
