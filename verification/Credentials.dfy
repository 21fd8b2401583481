/** The credential manager of gateway/internal/credential/manager.go: one salted key per credential, one
    nonce per field packed into a single column, and passphrase rotation row by row. Encryption and key
    derivation are abstract; only their round trip is assumed. */
module Credentials {
  import opened Routing
  import opened Wrappers

  type Bytes = seq<bv8>

  const NONCE_LEN := 12

  type Nonce = n: Bytes | |n| == NONCE_LEN witness seq(NONCE_LEN, _ => 0)

  datatype Crypto = Crypto(
    derive: (Bytes, Bytes) -> Bytes, seal: (Bytes, Nonce, Bytes) -> Bytes, open: (Bytes, Bytes, Bytes) -> Option<Bytes>)

  /** Opening undoes sealing under the same key and nonce, and a sealed text carries a tag. */
  ghost predicate Lawful(c: Crypto) {
    forall key, nonce: Nonce, plain ::
      c.open(key, c.seal(key, nonce, plain), nonce) == Some(plain) && |c.seal(key, nonce, plain)| > 0
  }

  /** The key decides: a text opens under no other key, and other passphrases derive other keys. */
  ghost predicate Authentic(c: Crypto) {
    && (forall key, other, nonce: Nonce, plain | key != other :: c.open(other, c.seal(key, nonce, plain), nonce).None?)
    && (forall p, q, salt | p != q :: c.derive(p, salt) != c.derive(q, salt))
  }

  datatype Secrets = Secrets(apiKey: Bytes, apiSecret: Bytes, passphrase: Bytes)

  datatype Credential = Credential(venue: VenueId, secrets: Secrets, createdAt: int, updatedAt: int)

  datatype Row = Row(
    apiKey: Bytes, apiSecret: Bytes, passphrase: Bytes, salt: Bytes, nonce: Bytes, createdAt: int, updatedAt: int)

  datatype Error =
    EmptyVenue | EmptyPassphrase | PassphraseMismatch | NotFound | ShortNonce | Undecryptable | NoEntropy | StoreFailed

  /** What the outside answers while one credential is written: random bytes or none, the clock, and
      whether the store can be read and written. */
  datatype World = World(
    salt: Option<Bytes>, keyNonce: Option<Nonce>, secretNonce: Option<Nonce>, passphraseNonce: Option<Nonce>,
    now: int, loads: bool, stores: bool)

  predicate Random(w: World, s: Secrets) {
    w.salt.Some? && w.keyNonce.Some? && w.secretNonce.Some? && (s.passphrase != [] ==> w.passphraseNonce.Some?)
  }

  // ---------------------------------------------------------------- on values

  /** The row of a credential locked under a passphrase. */
  function Lock(c: Crypto, passphrase: Bytes, s: Secrets, createdAt: int, w: World): Row
    requires Random(w, s)
  {
    var key := c.derive(passphrase, w.salt.value);
    var sealedPassphrase := if s.passphrase == [] then [] else c.seal(key, w.passphraseNonce.value, s.passphrase);
    var passphraseNonce := if s.passphrase == [] then [] else w.passphraseNonce.value;
    Row(c.seal(key, w.keyNonce.value, s.apiKey), c.seal(key, w.secretNonce.value, s.apiSecret), sealedPassphrase,
        w.salt.value, w.keyNonce.value + w.secretNonce.value + passphraseNonce, createdAt, w.now)
  }

  function Unlock(c: Crypto, passphrase: Bytes, venue: VenueId, row: Row): Result<Credential, Error> {
    var key := c.derive(passphrase, row.salt);
    if |row.nonce| < NONCE_LEN * 2 then Failure(ShortNonce)
    else
      var apiKey := c.open(key, row.apiKey, row.nonce[..NONCE_LEN]);
      var apiSecret := c.open(key, row.apiSecret, row.nonce[NONCE_LEN..NONCE_LEN * 2]);
      if apiKey.None? || apiSecret.None? then Failure(Undecryptable)
      else if |row.passphrase| == 0 then
        Success(Credential(venue, Secrets(apiKey.value, apiSecret.value, []), row.createdAt, row.updatedAt))
      else if |row.nonce| < NONCE_LEN * 3 then Failure(ShortNonce)
      else
        var plain := c.open(key, row.passphrase, row.nonce[NONCE_LEN * 2..NONCE_LEN * 3]);
        if plain.None? then Failure(Undecryptable)
        else
          var secrets := Secrets(apiKey.value, apiSecret.value, plain.value);
          Success(Credential(venue, secrets, row.createdAt, row.updatedAt))
  }

  /** The upsert keeps the creation time of a row that is there. */
  function Upserted(rows: map<VenueId, Row>, venue: VenueId, row: Row): map<VenueId, Row> {
    rows[venue := if venue in rows then row.(createdAt := rows[venue].createdAt) else row]
  }

  function Loaded(
      c: Crypto, passphrase: Bytes, rows: map<VenueId, Row>, venue: VenueId, w: World): Result<Credential, Error> {
    if !w.loads then Failure(StoreFailed)
    else if venue !in rows then Failure(NotFound)
    else Unlock(c, passphrase, venue, rows[venue])
  }

  function Stored(
      c: Crypto, passphrase: Bytes, rows: map<VenueId, Row>, venue: VenueId, s: Secrets, createdAt: int, w: World)
    : Result<map<VenueId, Row>, Error>
  {
    if !Random(w, s) then Failure(NoEntropy)
    else if !w.stores then Failure(StoreFailed)
    else Success(Upserted(rows, venue, Lock(c, passphrase, s, createdAt, w)))
  }

  /** One step of a rotation. */
  function Rekeyed(c: Crypto, old_: Bytes, new_: Bytes, rows: map<VenueId, Row>, venue: VenueId, w: World)
    : Result<map<VenueId, Row>, Error>
  {
    match Loaded(c, old_, rows, venue, w)
    case Failure(e) => Failure(e)
    case Success(cred) => Stored(c, new_, rows, venue, cred.secrets, cred.createdAt, w)
  }

  /** A rotation after it has tried the first venues of its list: how many it did, and what stopped it. */
  datatype Rotation = Rotation(rows: map<VenueId, Row>, done: nat, error: Option<Error>)

  function Rotated(
      c: Crypto, old_: Bytes, new_: Bytes, rows: map<VenueId, Row>, ids: seq<VenueId>, world: VenueId -> World)
    : Rotation
  {
    if ids == [] then Rotation(rows, 0, None)
    else
      var last := |ids| - 1;
      var before := Rotated(c, old_, new_, rows, ids[..last], world);
      if before.error.Some? then before
      else
        match Rekeyed(c, old_, new_, before.rows, ids[last], world(ids[last]))
        case Failure(e) => before.(error := Some(e))
        case Success(rows') => Rotation(rows', |ids|, None)
  }

  // ---------------------------------------------------------------- the objects

  class CredentialStore {
    var rows: map<VenueId, Row>

    constructor ()
      ensures rows == map[]
    {
      rows := map[];
    }

    method StoreCredential(venue: VenueId, row: Row, w: World) returns (ok: bool)
      modifies this
      ensures ok == w.stores && rows == if ok then Upserted(old(rows), venue, row) else old(rows)
    {
      if !w.stores {
        return false;
      }
      var createdAt := if venue in rows then rows[venue].createdAt else row.createdAt;
      rows := rows[venue := row.(createdAt := createdAt)];
      return true;
    }

    /** Every venue once. */
    method ListVenueIDs() returns (ids: seq<VenueId>)
      ensures Distinct(ids) && forall v :: v in ids <==> v in rows
    {
      ids := [];
      var left := rows.Keys;
      while left != {}
        invariant left <= rows.Keys && Distinct(ids) && forall v :: v in ids <==> v in rows.Keys - left
        decreases |left|
      {
        var v :| v in left;
        assert v !in ids;
        ids, left := ids + [v], left - {v};
      }
    }
  }

  ghost predicate Distinct(ids: seq<VenueId>) {
    forall i, j | 0 <= i < j < |ids| :: ids[i] != ids[j]
  }

  class CredentialManager {
    const crypto: Crypto
    const store: CredentialStore
    var passphrase: Bytes

    constructor (crypto: Crypto, store: CredentialStore, passphrase: Bytes)
      requires passphrase != []
      ensures this.crypto == crypto && this.store == store && this.passphrase == passphrase
    {
      this.crypto, this.store, this.passphrase := crypto, store, passphrase;
    }

    /** Encrypts the fields under one derived key and packs their nonces. */
    method Seal(passphrase: Bytes, s: Secrets, createdAt: int, w: World) returns (row: Option<Row>)
      ensures row == if Random(w, s) then Some(Lock(crypto, passphrase, s, createdAt, w)) else None
    {
      if w.salt.None? {
        return None;
      }
      var key := crypto.derive(passphrase, w.salt.value);
      if w.keyNonce.None? || w.secretNonce.None? {
        return None;
      }
      var sealedKey := crypto.seal(key, w.keyNonce.value, s.apiKey);
      var sealedSecret := crypto.seal(key, w.secretNonce.value, s.apiSecret);
      var sealedPassphrase: Bytes := [];
      var combined: Bytes := [];
      combined := combined + w.keyNonce.value;
      combined := combined + w.secretNonce.value;
      if s.passphrase != [] {
        if w.passphraseNonce.None? {
          return None;
        }
        sealedPassphrase := crypto.seal(key, w.passphraseNonce.value, s.passphrase);
        combined := combined + w.passphraseNonce.value;
      }
      assert combined
          == w.keyNonce.value + w.secretNonce.value + if s.passphrase == [] then [] else w.passphraseNonce.value;
      return Some(Row(sealedKey, sealedSecret, sealedPassphrase, w.salt.value, combined, createdAt, w.now));
    }

    method Store(venue: VenueId, s: Secrets, w: World) returns (error: Option<Error>)
      modifies store
      ensures var r := if venue == "" then Failure(EmptyVenue)
                       else Stored(crypto, passphrase, old(store.rows), venue, s, w.now, w);
        match r
        case Success(rows) => error == None && store.rows == rows
        case Failure(e) => error == Some(e) && store.rows == old(store.rows)
    {
      if venue == "" {
        return Some(EmptyVenue);
      }
      var row := Seal(passphrase, s, w.now, w);
      if row.None? {
        return Some(NoEntropy);
      }
      var ok := store.StoreCredential(venue, row.value, w);
      return if ok then None else Some(StoreFailed);
    }

    method Retrieve(venue: VenueId, w: World) returns (r: Result<Credential, Error>)
      ensures r == Loaded(crypto, passphrase, store.rows, venue, w)
    {
      if !w.loads {
        return Failure(StoreFailed);
      }
      if venue !in store.rows {
        return Failure(NotFound);
      }
      var row := store.rows[venue];
      var key := crypto.derive(passphrase, row.salt);
      if |row.nonce| < NONCE_LEN * 2 {
        return Failure(ShortNonce);
      }
      var nonceKey := row.nonce[..NONCE_LEN];
      var nonceSecret := row.nonce[NONCE_LEN..NONCE_LEN * 2];
      var apiKey := crypto.open(key, row.apiKey, nonceKey);
      if apiKey.None? {
        return Failure(Undecryptable);
      }
      var apiSecret := crypto.open(key, row.apiSecret, nonceSecret);
      if apiSecret.None? {
        return Failure(Undecryptable);
      }
      var own: Bytes := [];
      if |row.passphrase| > 0 {
        if |row.nonce| < NONCE_LEN * 3 {
          return Failure(ShortNonce);
        }
        var plain := crypto.open(key, row.passphrase, row.nonce[NONCE_LEN * 2..NONCE_LEN * 3]);
        if plain.None? {
          return Failure(Undecryptable);
        }
        own := plain.value;
      }
      return Success(Credential(venue, Secrets(apiKey.value, apiSecret.value, own), row.createdAt, row.updatedAt));
    }

    method RotateCredential(venue: VenueId, newPassphrase: Bytes, w: World) returns (error: Option<Error>)
      modifies store
      ensures match Rekeyed(crypto, passphrase, newPassphrase, old(store.rows), venue, w)
        case Success(rows) => error == None && store.rows == rows
        case Failure(e) => error == Some(e) && store.rows == old(store.rows)
    {
      var r := Retrieve(venue, w);
      if r.Failure? {
        return Some(r.error);
      }
      var row := Seal(newPassphrase, r.value.secrets, r.value.createdAt, w);
      if row.None? {
        return Some(NoEntropy);
      }
      var ok := store.StoreCredential(venue, row.value, w);
      return if ok then None else Some(StoreFailed);
    }

    /** Rotates venue by venue, and takes the new passphrase only when all are done. `ids` is the list it
        worked through. */
    method RotatePassphrase(oldPassphrase: Bytes, newPassphrase: Bytes, lists: bool, world: VenueId -> World)
      returns (error: Option<Error>, ids: seq<VenueId>)
      modifies this, store
      ensures Distinct(ids) && (forall v | v in ids :: v in old(store.rows))
      ensures var refused := oldPassphrase != old(passphrase) || newPassphrase == [] || !lists;
        if refused then
          && error == Some(if oldPassphrase != old(passphrase) then PassphraseMismatch
                           else if newPassphrase == [] then EmptyPassphrase else StoreFailed)
          && store.rows == old(store.rows) && passphrase == old(passphrase)
        else
          var r := Rotated(crypto, oldPassphrase, newPassphrase, old(store.rows), ids, world);
          && (forall v :: v in ids <==> v in old(store.rows))
          && error == r.error && store.rows == r.rows
          && passphrase == if error.None? then newPassphrase else oldPassphrase
    {
      ids := [];
      if oldPassphrase != passphrase {
        return Some(PassphraseMismatch), ids;
      }
      if newPassphrase == [] {
        return Some(EmptyPassphrase), ids;
      }
      if !lists {
        return Some(StoreFailed), ids;
      }
      ghost var rows := store.rows;
      ids := store.ListVenueIDs();
      for k := 0 to |ids|
        invariant passphrase == oldPassphrase
        invariant Rotated(crypto, oldPassphrase, newPassphrase, rows, ids[..k], world) == Rotation(store.rows, k, None)
      {
        assert ids[..k + 1][..k] == ids[..k];
        error := RotateCredential(ids[k], newPassphrase, world(ids[k]));
        if error.Some? {
          StopsAt(crypto, oldPassphrase, newPassphrase, rows, ids, k, world);
          return error, ids;
        }
      }
      assert ids[..|ids|] == ids;
      passphrase := newPassphrase;
      return None, ids;
    }
  }

  // ---------------------------------------------------------------- rotation stops at its first error

  lemma {:induction false} StopsAt(
      c: Crypto, old_: Bytes, new_: Bytes, rows: map<VenueId, Row>, ids: seq<VenueId>, k: nat,
                                   world: VenueId -> World)
    requires k < |ids| && Rotated(c, old_, new_, rows, ids[..k + 1], world).error.Some?
    ensures Rotated(c, old_, new_, rows, ids, world) == Rotated(c, old_, new_, rows, ids[..k + 1], world)
    decreases |ids|
  {
    if k + 1 == |ids| {
      assert ids[..k + 1] == ids;
    } else {
      assert ids[..|ids| - 1][..k + 1] == ids[..k + 1];
      StopsAt(c, old_, new_, rows, ids[..|ids| - 1], k, world);
    }
  }

  // ---------------------------------------------------------------- round trips

  lemma UnpackedNonces(a: Bytes, b: Bytes, p: Bytes)
    requires |a| == |b| == NONCE_LEN
    ensures (a + b + p)[..NONCE_LEN] == a && (a + b + p)[NONCE_LEN..NONCE_LEN * 2] == b
    ensures (a + b + p)[NONCE_LEN * 2..] == p
  {}

  /** What is locked opens under the same passphrase to the same secrets, with or without a passphrase field. */
  lemma UnlockLock(c: Crypto, passphrase: Bytes, venue: VenueId, s: Secrets, createdAt: int, w: World)
    requires Lawful(c) && Random(w, s)
    ensures Unlock(c, passphrase, venue, Lock(c, passphrase, s, createdAt, w))
         == Success(Credential(venue, s, createdAt, w.now))
  {
    var own: Bytes := if s.passphrase == [] then [] else w.passphraseNonce.value;
    UnpackedNonces(w.keyNonce.value, w.secretNonce.value, own);
    var row := Lock(c, passphrase, s, createdAt, w);
    assert s.passphrase != [] ==> row.nonce[NONCE_LEN * 2..NONCE_LEN * 3] == row.nonce[NONCE_LEN * 2..];
  }

  /** A stored credential is retrieved with the same secrets; the first creation time stays, and no other
      venue is touched. */
  lemma StoreThenRetrieve(
      c: Crypto, passphrase: Bytes, rows: map<VenueId, Row>, venue: VenueId, s: Secrets, w: World, later: World)
    requires Lawful(c) && Stored(c, passphrase, rows, venue, s, w.now, w).Success? && later.loads
    ensures var after := Stored(c, passphrase, rows, venue, s, w.now, w).value;
      && Loaded(c, passphrase, after, venue, later)
         == Success(Credential(venue, s, if venue in rows then rows[venue].createdAt else w.now, w.now))
      && forall other | other != venue ::
        Loaded(c, passphrase, after, other, later) == Loaded(c, passphrase, rows, other, later)
  {
    UnlockLock(c, passphrase, venue, s, w.now, w);
  }

  // ---------------------------------------------------------------- rotation

  /** The row opens under `now` to what `before` opened to under `then_`, up to the time of the update. */
  ghost predicate SamePlaintext(c: Crypto, venue: VenueId, now: Bytes, row: Row, then_: Bytes, before: Row) {
    && Unlock(c, then_, venue, before).Success? && Unlock(c, now, venue, row).Success?
    && Unlock(c, now, venue, row).value.secrets == Unlock(c, then_, venue, before).value.secrets
    && Unlock(c, now, venue, row).value.createdAt == Unlock(c, then_, venue, before).value.createdAt
  }

  lemma RekeyKeepsPlaintext(c: Crypto, old_: Bytes, new_: Bytes, rows: map<VenueId, Row>, venue: VenueId, w: World)
    requires Lawful(c) && venue in rows && Rekeyed(c, old_, new_, rows, venue, w).Success?
    ensures var after := Rekeyed(c, old_, new_, rows, venue, w).value;
      after.Keys == rows.Keys && after == rows[venue := after[venue]]
      && SamePlaintext(c, venue, new_, after[venue], old_, rows[venue])
  {
    var cred := Unlock(c, old_, venue, rows[venue]).value;
    UnlockLock(c, new_, venue, cred.secrets, cred.createdAt, w);
  }

  /** The row opens under the new passphrase to what it opened to under the old one, and, with authentic
      encryption, no longer opens under the old one. */
  ghost predicate Moved(c: Crypto, old_: Bytes, new_: Bytes, venue: VenueId, row: Row, before: Row) {
    && SamePlaintext(c, venue, new_, row, old_, before)
    && (Authentic(c) && old_ != new_ ==> Unlock(c, old_, venue, row).Failure?)
  }

  /** The venues done have moved; the others are untouched. */
  ghost predicate Mixed(moved: (VenueId, Row, Row) -> bool, rows: map<VenueId, Row>, ids: seq<VenueId>, r: Rotation) {
    && r.done <= |ids| && r.rows.Keys == rows.Keys
    && forall v | v in rows :: if v in ids[..r.done] then moved(v, r.rows[v], rows[v]) else r.rows[v] == rows[v]
  }

  ghost predicate MixedKeys(
      c: Crypto, old_: Bytes, new_: Bytes, rows: map<VenueId, Row>, ids: seq<VenueId>, r: Rotation) {
    Mixed((v, row, before) => Moved(c, old_, new_, v, row, before), rows, ids, r)
  }

  /** With authentic encryption what has been rotated no longer opens under the old passphrase. */
  lemma {:induction false} RekeyShutsOutTheOld(
      c: Crypto, old_: Bytes, new_: Bytes, rows: map<VenueId, Row>, venue: VenueId, w: World)
    requires Lawful(c) && Authentic(c) && old_ != new_
    requires venue in rows && Rekeyed(c, old_, new_, rows, venue, w).Success?
    ensures Unlock(c, old_, venue, Rekeyed(c, old_, new_, rows, venue, w).value[venue]).Failure?
  {
    var s := Unlock(c, old_, venue, rows[venue]).value.secrets;
    var own: Bytes := if s.passphrase == [] then [] else w.passphraseNonce.value;
    UnpackedNonces(w.keyNonce.value, w.secretNonce.value, own);
  }

  lemma RekeyMoves(c: Crypto, old_: Bytes, new_: Bytes, rows: map<VenueId, Row>, venue: VenueId, w: World)
    requires Lawful(c) && venue in rows && Rekeyed(c, old_, new_, rows, venue, w).Success?
    ensures var after := Rekeyed(c, old_, new_, rows, venue, w).value;
      venue in after && after == rows[venue := after[venue]] && Moved(c, old_, new_, venue, after[venue], rows[venue])
  {
    RekeyKeepsPlaintext(c, old_, new_, rows, venue, w);
    if Authentic(c) && old_ != new_ {
      RekeyShutsOutTheOld(c, old_, new_, rows, venue, w);
    }
  }

  lemma OneMoreMoved(
      moved: (VenueId, Row, Row) -> bool, rows: map<VenueId, Row>, ids: seq<VenueId>, r: Rotation, row: Row)
    requires Distinct(ids) && ids != [] && ids[|ids| - 1] in rows && r.done == |ids| - 1
    requires Mixed(moved, rows, ids[..|ids| - 1], r) && moved(ids[|ids| - 1], row, rows[ids[|ids| - 1]])
    ensures Mixed(moved, rows, ids, Rotation(r.rows[ids[|ids| - 1] := row], |ids|, None))
  {
    var last := |ids| - 1;
    assert ids[..last][..last] == ids[..last] && ids[..|ids|] == ids[..last] + [ids[last]];
  }

  lemma RotationStep(
      c: Crypto, old_: Bytes, new_: Bytes, rows: map<VenueId, Row>, ids: seq<VenueId>, r: Rotation, w: World)
    requires Lawful(c) && Distinct(ids) && ids != [] && ids[|ids| - 1] in rows && r.done == |ids| - 1
    requires MixedKeys(c, old_, new_, rows, ids[..|ids| - 1], r)
    requires Rekeyed(c, old_, new_, r.rows, ids[|ids| - 1], w).Success?
    ensures var rows' := Rekeyed(c, old_, new_, r.rows, ids[|ids| - 1], w).value;
      MixedKeys(c, old_, new_, rows, ids, Rotation(rows', |ids|, None))
  {
    var venue := ids[|ids| - 1];
    assert venue !in ids[..|ids| - 1][..r.done];
    assert r.rows[venue] == rows[venue];
    RekeyMoves(c, old_, new_, r.rows, venue, w);
    OneMoreMoved(
      (v, row, before) => Moved(c, old_, new_, v, row, before), rows, ids, r,
      Rekeyed(c, old_, new_, r.rows, venue, w).value[venue]);
  }

  /** At every point of a rotation, an early error included, the venues done so far open under the new
      passphrase and the rest are as they were. Only a rotation of all venues ends without error. */
  lemma {:induction false} RotationKeepsEveryPlaintext(c: Crypto, old_: Bytes, new_: Bytes, rows: map<VenueId, Row>,
                                                       ids: seq<VenueId>, world: VenueId -> World)
    requires Lawful(c) && Distinct(ids) && forall v | v in ids :: v in rows
    ensures var r := Rotated(c, old_, new_, rows, ids, world);
      MixedKeys(c, old_, new_, rows, ids, r) && (r.error.None? <==> r.done == |ids|)
  {
    if ids != [] {
      var last := |ids| - 1;
      var r := Rotated(c, old_, new_, rows, ids[..last], world);
      RotationKeepsEveryPlaintext(c, old_, new_, rows, ids[..last], world);
      assert ids[last] in ids;
      if r.error.None? && Rekeyed(c, old_, new_, r.rows, ids[last], world(ids[last])).Success? {
        RotationStep(c, old_, new_, rows, ids, r, world(ids[last]));
      } else {
        SameDone(c, old_, new_, rows, ids, r);
      }
    }
  }

  lemma SameDone(c: Crypto, old_: Bytes, new_: Bytes, rows: map<VenueId, Row>, ids: seq<VenueId>, r: Rotation)
    requires ids != [] && MixedKeys(c, old_, new_, rows, ids[..|ids| - 1], r)
    ensures forall error :: MixedKeys(c, old_, new_, rows, ids, r.(error := error))
  {
    assert ids[..|ids| - 1][..r.done] == ids[..r.done];
  }

  /** A rotation of all stored venues that ends without error leaves every one of them readable under the
      new passphrase, with the same secrets. */
  lemma CompletedRotationMovesEveryVenue(c: Crypto, old_: Bytes, new_: Bytes, rows: map<VenueId, Row>,
                                         ids: seq<VenueId>, world: VenueId -> World)
    requires Lawful(c) && Distinct(ids) && forall v :: v in ids <==> v in rows
    requires Rotated(c, old_, new_, rows, ids, world).error.None?
    ensures var r := Rotated(c, old_, new_, rows, ids, world);
      r.rows.Keys == rows.Keys && forall v | v in rows :: SamePlaintext(c, v, new_, r.rows[v], old_, rows[v])
  {
    RotationKeepsEveryPlaintext(c, old_, new_, rows, ids, world);
    var r := Rotated(c, old_, new_, rows, ids, world);
    forall v | v in rows ensures SamePlaintext(c, v, new_, r.rows[v], old_, rows[v]) {
      var j :| 0 <= j < |ids| && ids[j] == v;
    }
  }

  /** A rotation fails at its first venue that cannot be opened, drawn for or stored, and at no other. */
  lemma {:induction false} RotationStopsOnlyOnFailure(c: Crypto, old_: Bytes, new_: Bytes, rows: map<VenueId, Row>,
                                                      ids: seq<VenueId>, world: VenueId -> World)
    requires Lawful(c) && Distinct(ids) && forall v | v in ids :: v in rows
    ensures var r := Rotated(c, old_, new_, rows, ids, world);
      r.error.Some? ==> r.done < |ids| && Rekeyed(c, old_, new_, rows, ids[r.done], world(ids[r.done])).Failure?
  {
    if ids != [] {
      var last := |ids| - 1;
      var r := Rotated(c, old_, new_, rows, ids[..last], world);
      RotationStopsOnlyOnFailure(c, old_, new_, rows, ids[..last], world);
      if r.error.None? {
        RotationKeepsEveryPlaintext(c, old_, new_, rows, ids[..last], world);
        LastUntouched(c, old_, new_, rows, ids, r);
        RekeyedAlike(c, old_, new_, rows, r.rows, ids[last], world(ids[last]));
      }
    }
  }

  // ---------------------------------------------------------------- what the manager can still read

  ghost function CanRekey(
      c: Crypto, old_: Bytes, new_: Bytes, rows: map<VenueId, Row>, world: VenueId -> World): VenueId -> bool {
    v => Rekeyed(c, old_, new_, rows, v, world(v)).Success?
  }

  ghost predicate HoldsFor(p: VenueId -> bool, ids: seq<VenueId>, n: nat) {
    n <= |ids| && forall j | 0 <= j < n :: p(ids[j])
  }

  lemma HoldsForMore(p: VenueId -> bool, ids: seq<VenueId>, n: nat)
    requires ids != [] && HoldsFor(p, ids[..|ids| - 1], n)
    ensures HoldsFor(p, ids, n)
    ensures n == |ids| - 1 && p(ids[n]) ==> HoldsFor(p, ids, n + 1)
  {
    assert forall j | 0 <= j < n :: ids[..|ids| - 1][j] == ids[j];
  }

  lemma {:induction false} DoneVenuesRekeyed(
      c: Crypto, old_: Bytes, new_: Bytes, rows: map<VenueId, Row>, ids: seq<VenueId>, world: VenueId -> World)
    requires Lawful(c) && Distinct(ids) && forall v | v in ids :: v in rows
    ensures HoldsFor(CanRekey(c, old_, new_, rows, world), ids, Rotated(c, old_, new_, rows, ids, world).done)
  {
    if ids != [] {
      var last := |ids| - 1;
      var r, can := Rotated(c, old_, new_, rows, ids[..last], world), CanRekey(c, old_, new_, rows, world);
      DoneVenuesRekeyed(c, old_, new_, rows, ids[..last], world);
      HoldsForMore(can, ids, r.done);
      if r.error.None? {
        RotationKeepsEveryPlaintext(c, old_, new_, rows, ids[..last], world);
        LastUntouched(c, old_, new_, rows, ids, r);
        RekeyedAlike(c, old_, new_, rows, r.rows, ids[last], world(ids[last]));
      }
    }
  }

  lemma LastUntouched(c: Crypto, old_: Bytes, new_: Bytes, rows: map<VenueId, Row>, ids: seq<VenueId>, r: Rotation)
    requires Distinct(ids) && ids != [] && ids[|ids| - 1] in rows && r.done == |ids| - 1
    requires MixedKeys(c, old_, new_, rows, ids[..|ids| - 1], r)
    ensures ids[|ids| - 1] in r.rows && r.rows[ids[|ids| - 1]] == rows[ids[|ids| - 1]]
  {
    assert ids[|ids| - 1] !in ids[..|ids| - 1][..r.done];
  }

  /** Whether a venue can be re-encrypted depends on its own row only. */
  lemma RekeyedAlike(
      c: Crypto, old_: Bytes, new_: Bytes, rows: map<VenueId, Row>, rows': map<VenueId, Row>, venue: VenueId, w: World)
    requires venue in rows && venue in rows' && rows[venue] == rows'[venue]
    ensures Rekeyed(c, old_, new_, rows, venue, w).Success? <==> Rekeyed(c, old_, new_, rows', venue, w).Success?
  {}

  /** The passphrase the manager is left with. */
  function LeftWith(old_: Bytes, new_: Bytes, r: Rotation): Bytes {
    if r.error.None? then new_ else old_
  }

  /** Every venue the manager could read before the rotation, it can read after it. */
  ghost predicate StillReads(c: Crypto, old_: Bytes, new_: Bytes, rows: map<VenueId, Row>, r: Rotation) {
    r.rows.Keys == rows.Keys
    && forall v | v in rows && Unlock(c, old_, v, rows[v]).Success? ::
         Unlock(c, LeftWith(old_, new_, r), v, r.rows[v]).Success?
  }

  lemma DoneVenueIsLost(c: Crypto, old_: Bytes, new_: Bytes, rows: map<VenueId, Row>, ids: seq<VenueId>, r: Rotation)
    requires Authentic(c) && old_ != new_ && MixedKeys(c, old_, new_, rows, ids, r)
    requires 0 < r.done && ids[0] in rows && r.error.Some?
    ensures !StillReads(c, old_, new_, rows, r)
  {
    var v := ids[0];
    assert v in ids[..r.done];
    assert Moved(c, old_, new_, v, r.rows[v], rows[v]);
  }

  lemma NothingDoneNothingLost(
      c: Crypto, old_: Bytes, new_: Bytes, rows: map<VenueId, Row>, ids: seq<VenueId>, r: Rotation)
    requires MixedKeys(c, old_, new_, rows, ids, r) && r.done == 0 && r.error.Some?
    ensures StillReads(c, old_, new_, rows, r)
  {
    assert ids[..0] == [];
  }

  lemma AllDoneAllRead(
      c: Crypto, old_: Bytes, new_: Bytes, rows: map<VenueId, Row>, ids: seq<VenueId>, world: VenueId -> World)
    requires Lawful(c) && Distinct(ids) && forall v :: v in ids <==> v in rows
    requires Rotated(c, old_, new_, rows, ids, world).error.None?
    ensures StillReads(c, old_, new_, rows, Rotated(c, old_, new_, rows, ids, world))
  {
    CompletedRotationMovesEveryVenue(c, old_, new_, rows, ids, world);
    var r := Rotated(c, old_, new_, rows, ids, world);
    forall v | v in rows ensures Unlock(c, new_, v, r.rows[v]).Success? {
      assert SamePlaintext(c, v, new_, r.rows[v], old_, rows[v]);
    }
  }

  /** With authentic encryption the manager can still read what it could read before exactly when every
      venue could be re-encrypted, or there was none, or the very first one could not. In every other case a
      venue already done is lost to it. */
  lemma ManagerStillReadsExactlyWhen(
      c: Crypto, old_: Bytes, new_: Bytes, rows: map<VenueId, Row>, ids: seq<VenueId>, world: VenueId -> World)
    requires Lawful(c) && Authentic(c) && old_ != new_
    requires Distinct(ids) && forall v :: v in ids <==> v in rows
    ensures StillReads(c, old_, new_, rows, Rotated(c, old_, new_, rows, ids, world))
       <==> || (forall j | 0 <= j < |ids| :: Rekeyed(c, old_, new_, rows, ids[j], world(ids[j])).Success?)
            || ids == []
            || Rekeyed(c, old_, new_, rows, ids[0], world(ids[0])).Failure?
  {
    var r := Rotated(c, old_, new_, rows, ids, world);
    RotationKeepsEveryPlaintext(c, old_, new_, rows, ids, world);
    RotationStopsOnlyOnFailure(c, old_, new_, rows, ids, world);
    DoneVenuesRekeyed(c, old_, new_, rows, ids, world);
    if r.error.None? {
      AllDoneAllRead(c, old_, new_, rows, ids, world);
    } else if r.done == 0 {
      NothingDoneNothingLost(c, old_, new_, rows, ids, r);
    } else {
      assert ids[0] in ids;
      DoneVenueIsLost(c, old_, new_, rows, ids, r);
    }
  }

  /** Two venues, of which the second cannot be stored: the rotation ends with an error, the manager keeps
      the old passphrase, and it can no longer read the first venue. */
  lemma SecondStoreFails(c: Crypto, old_: Bytes, new_: Bytes, s: Secrets, w: World)
    requires Lawful(c) && Authentic(c) && old_ != new_ && Random(w, s) && w.loads && w.stores
    ensures var rows := map["a" := Lock(c, old_, s, 0, w), "b" := Lock(c, old_, s, 0, w)];
      var r := Rotated(c, old_, new_, rows, ["a", "b"], v => if v == "b" then w.(stores := false) else w);
      && r.error == Some(StoreFailed) && r.done == 1 && LeftWith(old_, new_, r) == old_
      && Unlock(c, old_, "a", rows["a"]).Success? && "a" in r.rows && Unlock(c, old_, "a", r.rows["a"]).Failure?
      && "b" in r.rows && Unlock(c, old_, "b", r.rows["b"]).Success?
  {
    var row := Lock(c, old_, s, 0, w);
    var rows := map["a" := row, "b" := row];
    var world: VenueId -> World := v => if v == "b" then w.(stores := false) else w;
    UnlockLock(c, old_, "a", s, 0, w);
    UnlockLock(c, old_, "b", s, 0, w);
    assert ["a", "b"][..1] == ["a"] && ["a"][..0] == [];
    assert Rotated(c, old_, new_, rows, [], world) == Rotation(rows, 0, None);
    assert Rekeyed(c, old_, new_, rows, "a", w).Success?;
    RekeyShutsOutTheOld(c, old_, new_, rows, "a", w);
    var after := Rekeyed(c, old_, new_, rows, "a", w).value;
    assert after["b"] == row;
    assert Rotated(c, old_, new_, rows, ["a"], world) == Rotation(after, 1, None);
    assert Rekeyed(c, old_, new_, after, "b", world("b")) == Failure(StoreFailed);
  }

  // ---------------------------------------------------------------- the assumptions can be met

  /** A key written so that no other key's text starts with it. */
  function Tag(key: Bytes): Bytes {
    seq(|key|, _ => 1) + [0] + key
  }

  lemma TagsDiffer(a: Bytes, b: Bytes, plain: Bytes)
    requires Tag(a) <= Tag(b) + plain
    ensures a == b
  {
    var text := Tag(b) + plain;
    assert forall k | 0 <= k < |Tag(a)| :: text[k] == Tag(a)[k];
    assert forall k | 0 <= k < |Tag(b)| :: text[k] == Tag(b)[k];
    assert text[|a|] == 0 && forall k | 0 <= k < |a| :: text[k] == 1;
    assert text[|b|] == 0 && forall k | 0 <= k < |b| :: text[k] == 1;
    assert |a| == |b|;
    assert forall k | 0 <= k < |a| :: Tag(a)[|a| + 1 + k] == a[k] && Tag(b)[|b| + 1 + k] == b[k];
  }

  /** Sealing that prefixes the key keeps no secret, but it is lawful and authentic. */
  function Prefixing(): Crypto {
    Crypto((passphrase, _) => passphrase,
           (key, _, plain) => Tag(key) + plain,
           (key, text, _) => if Tag(key) <= text then Some(text[|Tag(key)|..]) else None)
  }

  lemma SomeCryptoIsAuthentic()
    ensures Lawful(Prefixing()) && Authentic(Prefixing())
  {
    var c := Prefixing();
    forall key, other, nonce: Nonce, plain | key != other
      ensures c.open(other, c.seal(key, nonce, plain), nonce).None?
    {
      if Tag(other) <= Tag(key) + plain {
        TagsDiffer(other, key, plain);
      }
    }
  }
}
