/** The sortie controller: handlers that read and rewrite the materiel and sortie tables in place. */
module Controller {
  import opened Records
  import opened Rules
  import opened Reconciliation

  class SortieController {
    /** Quantite of every materiel, by CodeMateriel. */
    var stock: map<Code, int>
    /** The sorties table, by BonSortie. */
    var sorties: map<Bon, Sortie>
    /** The receptions table, which these handlers only read. */
    const receptions: seq<Reception>

    /** The tables as one value. */
    function State(): Db
      reads this
    {
      Db(stock, sorties, receptions)
    }

    /** No Quantite is negative and every sortie took out at least one unit. */
    ghost predicate Valid()
      reads this
    {
      Consistent(State())
    }

    constructor (stock: map<Code, int>, sorties: map<Bon, Sortie>, receptions: seq<Reception>)
      ensures State() == Db(stock, sorties, receptions)
      ensures Consistent(Db(stock, sorties, receptions)) ==> Valid()
    {
      this.stock := stock;
      this.sorties := sorties;
      this.receptions := receptions;
    }

    /** POST /sorties, on behalf of the authenticated `user`; `now` is the clock reading. */
    method Store(f: SortieFields, user: UserId, now: Date) returns (r: Outcome)
      modifies this
      ensures (r, State()) == StoreStep(old(State()), f, user, now)
      ensures old(Valid()) ==> Valid()
    {
      if Valid() {
        StorePreservesConsistent(State(), f, user, now);
      }
      if !StoreRules(f, stock.Keys, sorties.Keys, receptions, now) {
        return Invalid;
      }
      if f.code !in stock {
        return NotFound;
      }
      var quantite := stock[f.code];
      if quantite < f.quantity {
        return InsufficientStock;
      }
      quantite := quantite - f.quantity;
      stock := stock[f.code := quantite];
      sorties := sorties[f.bon := NewSortie(f, user)];
      r := Ok;
    }

    /** GET /sorties/{bon}. */
    method Show(bon: Bon) returns (found: Option<Sortie>)
      ensures found.Some? <==> bon in sorties
      ensures found.Some? ==> found.value == sorties[bon]
    {
      if bon in sorties {
        found := Some(sorties[bon]);
      } else {
        found := None;
      }
    }

    /** PUT /sorties/{bon}, by `actor`, with `allows` standing for the permission gate. */
    method Update(bon: Bon, f: SortieFields, actor: UserId, allows: Gate) returns (r: Outcome)
      modifies this
      ensures (r, State()) == UpdateStep(old(State()), bon, f, actor, allows)
      ensures old(Valid()) ==> Valid()
    {
      if Valid() {
        UpdatePreservesConsistent(State(), bon, f, actor, allows);
      }
      if bon !in sorties {
        return NotFound;
      }
      var sortie := sorties[bon];
      if !allows(UpdateSortie, actor, bon, sortie) {
        return Forbidden;
      }
      if !UpdateRules(f, stock.Keys, sorties.Keys, bon) {
        return Invalid;
      }
      var oldQuantity := sortie.quantity;
      if f.code in stock {
        var quantite := stock[f.code];
        quantite := quantite + oldQuantity;
        quantite := quantite - f.quantity;
        if quantite < 0 {
          return InsufficientStock;
        }
        stock := stock[f.code := quantite];
        var updated := Sortie(f.code, f.quantity, f.recipient, f.date, sortie.owner);
        sorties := (sorties - {bon})[f.bon := updated];
      }
      r := Ok;
    }

    /** DELETE /sorties/{bon}, by `actor`, with `allows` standing for the permission gate. */
    method Destroy(bon: Bon, actor: UserId, allows: Gate) returns (r: Outcome)
      modifies this
      ensures (r, State()) == DestroyStep(old(State()), bon, actor, allows)
      ensures old(Valid()) ==> Valid()
    {
      if Valid() {
        DestroyPreservesConsistent(State(), bon, actor, allows);
      }
      if bon !in sorties {
        return NotFound;
      }
      var sortie := sorties[bon];
      if !allows(DeleteSortie, actor, bon, sortie) {
        return Forbidden;
      }
      if sortie.code in stock {
        var quantite := stock[sortie.code];
        quantite := quantite + sortie.quantity;
        stock := stock[sortie.code := quantite];
      }
      sorties := sorties - {bon};
      r := Ok;
    }
  }

  /** A worked example: stock 100, take 30, raise the sortie to 50, delete it. */
  method WorkedExample()
  {
    var allows: Gate := (a, u, b, s) => true;
    assert Required("B1") && Required("M1") && Required("Atelier") by {
      assert !IsTrimmed("B1"[0]) && !IsTrimmed("M1"[0]) && !IsTrimmed("Atelier"[0]);
    }
    var c := new SortieController(map["M1" := 100], map[], []);
    var f := SortieFields("B1", "M1", 30, "Atelier", 10);
    var r := c.Store(f, 7, 10);
    assert r == Ok && c.stock["M1"] == 70;
    r := c.Update("B1", f.(quantity := 50), 7, allows);
    assert r == Ok && c.stock["M1"] == 50;
    r := c.Destroy("B1", 7, allows);
    assert r == Ok && c.stock["M1"] == 100 && c.sorties == map[];
  }
}
