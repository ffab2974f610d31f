/** The stock reconciliation rule of the sortie handlers, as functions from one database state to the next. */
module Reconciliation {
  import opened Records
  import opened Rules

  /** The rows the handlers see: Quantite per material, the sorties by BonSortie, and the receptions
      (read, never written, here). */
  datatype Db = Db(stock: map<Code, int>, sorties: map<Bon, Sortie>, receptions: seq<Reception>)

  /** The permission gate: may this user exercise this ability on the sortie row stored under this BonSortie. */
  type Gate = (Ability, UserId, Bon, Sortie) -> bool

  /** The invariant the handlers keep: no Quantite is negative and every sortie took out at least one unit. */
  ghost predicate Consistent(db: Db)
  {
    && (forall c :: c in db.stock ==> db.stock[c] >= 0)
    && (forall b :: b in db.sorties ==> db.sorties[b].quantity >= MIN_QUANTITY)
  }

  /** The row store creates for `f` on behalf of `user`. */
  function NewSortie(f: SortieFields, user: UserId): Sortie
  {
    Sortie(f.code, f.quantity, f.recipient, f.date, user)
  }

  /** POST /sorties: validate, check the stock, decrement it and record the sortie. */
  function StoreStep(db: Db, f: SortieFields, user: UserId, now: Date): (res: (Outcome, Db))
    ensures res.0 != Ok ==> res.1 == db
    ensures res.0 != NotFound && res.0 != Forbidden
    ensures res.1.receptions == db.receptions
  {
    if !StoreRules(f, db.stock.Keys, db.sorties.Keys, db.receptions, now) then (Invalid, db)
    else if f.code !in db.stock then (NotFound, db)
    else if db.stock[f.code] < f.quantity then (InsufficientStock, db)
    else
      var quantite := db.stock[f.code] - f.quantity;
      (Ok, db.(stock := db.stock[f.code := quantite], sorties := db.sorties[f.bon := NewSortie(f, user)]))
  }

  /** PUT /sorties/{bon}: look up, ask the gate, validate, then credit the old quantity and debit the new
      one on the material the request names. */
  function UpdateStep(db: Db, bon: Bon, f: SortieFields, actor: UserId, allows: Gate): (res: (Outcome, Db))
    ensures res.0 != Ok ==> res.1 == db
    ensures res.1.receptions == db.receptions
  {
    if bon !in db.sorties then (NotFound, db)
    else
      var sortie := db.sorties[bon];
      if !allows(UpdateSortie, actor, bon, sortie) then (Forbidden, db)
      else if !UpdateRules(f, db.stock.Keys, db.sorties.Keys, bon) then (Invalid, db)
      else if f.code !in db.stock then (Ok, db)
      else
        var quantite := db.stock[f.code] + sortie.quantity - f.quantity;
        if quantite < 0 then (InsufficientStock, db)
        else
          var updated := Sortie(f.code, f.quantity, f.recipient, f.date, sortie.owner);
          (Ok, db.(stock := db.stock[f.code := quantite], sorties := (db.sorties - {bon})[f.bon := updated]))
  }

  /** DELETE /sorties/{bon}: look up, ask the gate, credit the quantity back if the material is still
      there, and remove the sortie. */
  function DestroyStep(db: Db, bon: Bon, actor: UserId, allows: Gate): (res: (Outcome, Db))
    ensures res.0 != Ok ==> res.1 == db
    ensures res.0 == Ok ==> bon !in res.1.sorties && res.1.sorties.Keys == db.sorties.Keys - {bon}
    ensures res.1.receptions == db.receptions
  {
    if bon !in db.sorties then (NotFound, db)
    else
      var sortie := db.sorties[bon];
      if !allows(DeleteSortie, actor, bon, sortie) then (Forbidden, db)
      else
        var stock := if sortie.code in db.stock
                     then db.stock[sortie.code := db.stock[sortie.code] + sortie.quantity]
                     else db.stock;
        (Ok, db.(stock := stock, sorties := db.sorties - {bon}))
  }

  /** GET /sorties/{bon}. */
  function ShowStep(db: Db, bon: Bon): (found: Option<Sortie>)
    ensures found.Some? <==> bon in db.sorties
    ensures found.Some? ==> found.value == db.sorties[bon]
  {
    if bon in db.sorties then Some(db.sorties[bon]) else None
  }

  // ---------------------------------------------------------------------------------------------
  // store

  /** Store answers Invalid exactly when a field rule fails, and then changes nothing. */
  lemma StoreRejectsInvalidFields(db: Db, f: SortieFields, user: UserId, now: Date)
    ensures StoreStep(db, f, user, now).0 == Invalid
        <==> !StoreRules(f, db.stock.Keys, db.sorties.Keys, db.receptions, now)
    ensures StoreStep(db, f, user, now).0 == Invalid ==> StoreStep(db, f, user, now).1 == db
  {
  }

  /** Asking for more than the stock holds is refused and changes nothing. */
  lemma StoreInsufficientStock(db: Db, f: SortieFields, user: UserId, now: Date)
    requires StoreRules(f, db.stock.Keys, db.sorties.Keys, db.receptions, now)
    requires f.quantity > db.stock[f.code]
    ensures StoreStep(db, f, user, now) == (InsufficientStock, db)
  {
  }

  /** A successful store leaves S - Q on the material, adds exactly the one new sortie, and
      changes no other material or sortie. */
  lemma StoreSuccess(db: Db, f: SortieFields, user: UserId, now: Date)
    requires StoreRules(f, db.stock.Keys, db.sorties.Keys, db.receptions, now)
    requires f.quantity <= db.stock[f.code]
    ensures var (r, db') := StoreStep(db, f, user, now);
      && r == Ok
      && db'.stock.Keys == db.stock.Keys
      && db'.stock[f.code] == db.stock[f.code] - f.quantity
      && (forall c :: c in db.stock && c != f.code ==> db'.stock[c] == db.stock[c])
      && f.bon !in db.sorties
      && db'.sorties.Keys == db.sorties.Keys + {f.bon}
      && |db'.sorties| == |db.sorties| + 1
      && db'.sorties[f.bon] == Sortie(f.code, f.quantity, f.recipient, f.date, user)
      && (forall b :: b in db.sorties ==> db'.sorties[b] == db.sorties[b])
  {
  }

  /** Store succeeds exactly when the fields pass and the stock covers the request. */
  lemma StoreSucceedsIff(db: Db, f: SortieFields, user: UserId, now: Date)
    ensures StoreStep(db, f, user, now).0 == Ok <==>
      && StoreRules(f, db.stock.Keys, db.sorties.Keys, db.receptions, now)
      && f.quantity <= db.stock[f.code]
  {
  }

  /** Quantite stays non-negative, and every sortie keeps a positive quantity, across store. */
  lemma StorePreservesConsistent(db: Db, f: SortieFields, user: UserId, now: Date)
    requires Consistent(db)
    ensures Consistent(StoreStep(db, f, user, now).1)
  {
  }

  // ---------------------------------------------------------------------------------------------
  // update

  /** An unknown BonSortie is answered 404 whatever the gate says, before anything else. */
  lemma UpdateUnknownIsNotFound(db: Db, bon: Bon, f: SortieFields, actor: UserId, allows: Gate)
    requires bon !in db.sorties
    ensures UpdateStep(db, bon, f, actor, allows) == (NotFound, db)
  {
  }

  /** A refused permission is answered 403 before the fields are even looked at. */
  lemma UpdateDeniedIsForbidden(db: Db, bon: Bon, f: SortieFields, actor: UserId, allows: Gate)
    requires bon in db.sorties && !allows(UpdateSortie, actor, bon, db.sorties[bon])
    ensures UpdateStep(db, bon, f, actor, allows) == (Forbidden, db)
  {
  }

  /** Once the sortie is found and the gate allows it, update answers Invalid exactly when a field rule
      fails (BonSortie may keep its own value), and then changes nothing. */
  lemma UpdateRejectsInvalidFields(db: Db, bon: Bon, f: SortieFields, actor: UserId, allows: Gate)
    requires bon in db.sorties && allows(UpdateSortie, actor, bon, db.sorties[bon])
    ensures UpdateStep(db, bon, f, actor, allows).0 == Invalid
        <==> !UpdateRules(f, db.stock.Keys, db.sorties.Keys, bon)
    ensures UpdateStep(db, bon, f, actor, allows).0 == Invalid ==> UpdateStep(db, bon, f, actor, allows).1 == db
  {
  }

  /** Past the lookup, the gate and the field rules, update turns stock S into S + Qo - Qn on the
      material the request names: refused with nothing persisted when that is negative, stored otherwise,
      with the sortie moved to its (possibly new) BonSortie and every other row untouched. */
  lemma UpdateArithmetic(db: Db, bon: Bon, f: SortieFields, actor: UserId, allows: Gate)
    requires bon in db.sorties && allows(UpdateSortie, actor, bon, db.sorties[bon])
    requires UpdateRules(f, db.stock.Keys, db.sorties.Keys, bon)
    ensures var (r, db') := UpdateStep(db, bon, f, actor, allows);
      var s := db.stock[f.code] + db.sorties[bon].quantity - f.quantity;
      && (r == InsufficientStock <==> s < 0)
      && (r == Ok <==> s >= 0)
      && (r == Ok ==>
        && db'.stock == db.stock[f.code := s]
        && db'.sorties.Keys == db.sorties.Keys - {bon} + {f.bon}
        && db'.sorties[f.bon] == Sortie(f.code, f.quantity, f.recipient, f.date, db.sorties[bon].owner)
        && (forall b :: b in db.sorties && b != bon ==> db'.sorties[b] == db.sorties[b]))
  {
  }

  /** The 200-without-change branch for a material that cannot be found is dead: the field rules
      already demand that the material exists. */
  lemma UpdateMaterialAlwaysFound(db: Db, bon: Bon, f: SortieFields, actor: UserId, allows: Gate)
    requires UpdateStep(db, bon, f, actor, allows).0 == Ok
    ensures f.code in db.stock
    ensures UpdateStep(db, bon, f, actor, allows).1.sorties[f.bon].code == f.code
  {
  }

  /** An update that keeps the material and the quantity always goes through and leaves stock as it was. */
  lemma UpdateSameMaterialAndQuantityKeepsStock(db: Db, bon: Bon, f: SortieFields, actor: UserId, allows: Gate)
    requires Consistent(db)
    requires bon in db.sorties && allows(UpdateSortie, actor, bon, db.sorties[bon])
    requires UpdateRules(f, db.stock.Keys, db.sorties.Keys, bon)
    requires f.code == db.sorties[bon].code && f.quantity == db.sorties[bon].quantity
    ensures UpdateStep(db, bon, f, actor, allows).0 == Ok
    ensures UpdateStep(db, bon, f, actor, allows).1.stock == db.stock
  {
  }

  /** Quantite stays non-negative, and every sortie keeps a positive quantity, across update. */
  lemma UpdatePreservesConsistent(db: Db, bon: Bon, f: SortieFields, actor: UserId, allows: Gate)
    requires Consistent(db)
    ensures Consistent(UpdateStep(db, bon, f, actor, allows).1)
  {
  }

  // ---------------------------------------------------------------------------------------------
  // destroy

  /** An unknown BonSortie is answered 404 whatever the gate says. */
  lemma DestroyUnknownIsNotFound(db: Db, bon: Bon, actor: UserId, allows: Gate)
    requires bon !in db.sorties
    ensures DestroyStep(db, bon, actor, allows) == (NotFound, db)
  {
  }

  /** A refused permission is answered 403 and changes nothing. */
  lemma DestroyDeniedIsForbidden(db: Db, bon: Bon, actor: UserId, allows: Gate)
    requires bon in db.sorties && !allows(DeleteSortie, actor, bon, db.sorties[bon])
    ensures DestroyStep(db, bon, actor, allows) == (Forbidden, db)
  {
  }

  /** A permitted destroy credits the sortie's quantity back to its material when that material still
      exists, leaves stock alone when it does not, and removes the sortie either way. */
  lemma DestroyCreditsBack(db: Db, bon: Bon, actor: UserId, allows: Gate)
    requires bon in db.sorties && allows(DeleteSortie, actor, bon, db.sorties[bon])
    ensures var (r, db') := DestroyStep(db, bon, actor, allows);
      var s := db.sorties[bon];
      && r == Ok
      && db'.sorties == db.sorties - {bon}
      && (s.code in db.stock ==> db'.stock == db.stock[s.code := db.stock[s.code] + s.quantity])
      && (s.code !in db.stock ==> db'.stock == db.stock)
  {
  }

  /** Quantite stays non-negative, and every sortie keeps a positive quantity, across destroy. */
  lemma DestroyPreservesConsistent(db: Db, bon: Bon, actor: UserId, allows: Gate)
    requires Consistent(db)
    ensures Consistent(DestroyStep(db, bon, actor, allows).1)
  {
  }

  // ---------------------------------------------------------------------------------------------
  // round trip

  /** Destroying the sortie a successful store just created, with permission, gives back the
      database exactly as it was before the store. */
  lemma {:induction false} StoreThenDestroyRestores(db: Db, f: SortieFields, user: UserId, now: Date, actor: UserId, allows: Gate)
    requires StoreStep(db, f, user, now).0 == Ok
    requires allows(DeleteSortie, actor, f.bon, NewSortie(f, user))
    ensures DestroyStep(StoreStep(db, f, user, now).1, f.bon, actor, allows) == (Ok, db)
  {
    var mid := StoreStep(db, f, user, now).1;
    var s := db.stock[f.code];
    assert mid.stock[f.code := mid.stock[f.code] + f.quantity] == db.stock[f.code := s];
    assert db.stock[f.code := s] == db.stock;
    assert mid.sorties - {f.bon} == db.sorties;
  }
}
