/** Conservation: for a material, Quantite plus what its outstanding sorties took out. */
module Conservation {
  import opened Records
  import opened Reconciliation

  /** What one sortie has taken out of material `code`. */
  function Taken(s: Sortie, code: Code): int
  {
    if s.code == code then s.quantity else 0
  }

  /** The total quantity the sorties in `sorties` have taken out of material `code`. */
  ghost function Outstanding(sorties: map<Bon, Sortie>, code: Code): int
    decreases |sorties|
  {
    if sorties == map[] then 0
    else
      var b :| b in sorties;
      assert |sorties - {b}| < |sorties| by { RemoveShrinks(sorties, b); }
      Taken(sorties[b], code) + Outstanding(sorties - {b}, code)
  }

  /** Removing a present key shrinks a map by one. */
  lemma RemoveShrinks(sorties: map<Bon, Sortie>, b: Bon)
    requires b in sorties
    ensures |sorties - {b}| == |sorties| - 1
  {
    assert (sorties - {b}).Keys == sorties.Keys - {b};
  }

  /** The sum does not depend on which sortie it takes first. */
  lemma {:induction false} OutstandingRemove(sorties: map<Bon, Sortie>, b: Bon, code: Code)
    requires b in sorties
    ensures Outstanding(sorties, code) == Taken(sorties[b], code) + Outstanding(sorties - {b}, code)
    decreases |sorties|
  {
    var first :| first in sorties && Outstanding(sorties, code)
      == Taken(sorties[first], code) + Outstanding(sorties - {first}, code);
    if first != b {
      RemoveShrinks(sorties, first);
      RemoveShrinks(sorties, b);
      OutstandingRemove(sorties - {first}, b, code);
      OutstandingRemove(sorties - {b}, first, code);
      assert sorties - {first} - {b} == sorties - {b} - {first};
    }
  }

  /** Adding a sortie under a fresh key adds what it took. */
  lemma OutstandingAdd(sorties: map<Bon, Sortie>, b: Bon, s: Sortie, code: Code)
    requires b !in sorties
    ensures Outstanding(sorties[b := s], code) == Taken(s, code) + Outstanding(sorties, code)
  {
    OutstandingRemove(sorties[b := s], b, code);
    assert sorties[b := s] - {b} == sorties;
  }

  /** Quantite of a material, 0 when it is missing. */
  function OnHand(db: Db, code: Code): int
  {
    if code in db.stock then db.stock[code] else 0
  }

  /** Everything that came in for a material and has not been credited back: stock plus outstanding. */
  ghost function Total(db: Db, code: Code): int
  {
    OnHand(db, code) + Outstanding(db.sorties, code)
  }

  /** Store moves quantity from the stock into the new sortie: no material's total changes. */
  lemma StoreConserves(db: Db, f: SortieFields, user: UserId, now: Date, code: Code)
    ensures Total(StoreStep(db, f, user, now).1, code) == Total(db, code)
  {
    var (r, db') := StoreStep(db, f, user, now);
    if r == Ok {
      OutstandingAdd(db.sorties, f.bon, NewSortie(f, user), code);
    }
  }

  /** Destroy moves the quantity back into stock: no total changes as long as the material exists. */
  lemma DestroyConserves(db: Db, bon: Bon, actor: UserId, allows: Gate, code: Code)
    requires bon in db.sorties ==> db.sorties[bon].code in db.stock
    ensures Total(DestroyStep(db, bon, actor, allows).1, code) == Total(db, code)
  {
    var (r, db') := DestroyStep(db, bon, actor, allows);
    if r == Ok {
      OutstandingRemove(db.sorties, bon, code);
    }
  }

  /** When the material has disappeared, destroy still drops the sortie, so its quantity leaves the books. */
  lemma DestroyOfMissingMaterialLosesQuantity(db: Db, bon: Bon, actor: UserId, allows: Gate)
    requires bon in db.sorties && db.sorties[bon].code !in db.stock
    requires allows(DeleteSortie, actor, bon, db.sorties[bon])
    ensures var code := db.sorties[bon].code;
      Total(DestroyStep(db, bon, actor, allows).1, code) == Total(db, code) - db.sorties[bon].quantity
  {
    OutstandingRemove(db.sorties, bon, db.sorties[bon].code);
  }

  /** Update over the sortie's own material keeps every total. */
  lemma UpdateSameMaterialConserves(db: Db, bon: Bon, f: SortieFields, actor: UserId, allows: Gate, code: Code)
    requires bon in db.sorties ==> f.code == db.sorties[bon].code
    ensures Total(UpdateStep(db, bon, f, actor, allows).1, code) == Total(db, code)
  {
    var (r, db') := UpdateStep(db, bon, f, actor, allows);
    if r == Ok && f.code in db.stock {
      UpdateOutstanding(db, bon, f, code);
    }
  }

  /** Update that names another material credits the old quantity Qo to the NEW material and never to the
      one the sortie was taken from: the new material's total grows by Qo and the old one's shrinks by Qo. */
  lemma UpdateOtherMaterialShiftsTotals(db: Db, bon: Bon, f: SortieFields, actor: UserId, allows: Gate)
    requires bon in db.sorties && f.code != db.sorties[bon].code
    requires UpdateStep(db, bon, f, actor, allows).0 == Ok
    ensures var db' := UpdateStep(db, bon, f, actor, allows).1;
      var prior := db.sorties[bon];
      && Total(db', f.code) == Total(db, f.code) + prior.quantity
      && Total(db', prior.code) == Total(db, prior.code) - prior.quantity
  {
    UpdateOutstanding(db, bon, f, f.code);
    UpdateOutstanding(db, bon, f, db.sorties[bon].code);
  }

  /** How a successful update changes what the sorties hold out of any material. */
  lemma UpdateOutstanding(db: Db, bon: Bon, f: SortieFields, code: Code)
    requires bon in db.sorties
    requires f.bon == bon || f.bon !in db.sorties
    ensures var s := db.sorties[bon];
      var updated := Sortie(f.code, f.quantity, f.recipient, f.date, s.owner);
      Outstanding((db.sorties - {bon})[f.bon := updated], code)
        == Outstanding(db.sorties, code) - Taken(s, code) + Taken(updated, code)
  {
    var s := db.sorties[bon];
    var updated := Sortie(f.code, f.quantity, f.recipient, f.date, s.owner);
    OutstandingRemove(db.sorties, bon, code);
    OutstandingAdd(db.sorties - {bon}, f.bon, updated, code);
  }
}
