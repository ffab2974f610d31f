# Sortie stock reconciliation

A Dafny model of the sortie (stock withdrawal) handlers of a stock-management backend. Each sortie
takes a quantity (`QuantiteSortant`) out of one material's on-hand quantity (`Quantite`). The
handlers must keep that quantity in step with the sorties:

- `store` validates the request and refuses a withdrawal larger than the stock. Otherwise it
  decrements the stock and records the sortie.
- `update` looks the sortie up and asks the permission gate. It then validates the request, adds the
  old quantity back and takes the new one out. A negative result is refused.
- `destroy` looks the sortie up and asks the gate. It credits the quantity back when the material
  still exists, and removes the sortie.
- `show` looks a sortie up.

Files:

- `records.dfy` (module `Records`): the sortie and reception rows, the request fields, and the
  outcomes (Ok, NotFound = 404, Forbidden = 403, Invalid = a failed field rule, InsufficientStock = 400).
- `rules.dfy` (module `Rules`): the field rules of store and update as predicates (`StoreRules`,
  `UpdateRules`). It also holds the latest reception date of a material, which bounds store's DateSortie.
- `reconciliation.dfy` (module `Reconciliation`): the database as a value `Db`, holding a
  `CodeMateriel -> Quantite` map, a `BonSortie -> Sortie` map and the receptions. Each handler is a
  function from one `Db` to an outcome and the next `Db`. The lemmas state the source's promises about
  these functions.
- `conservation.dfy` (module `Conservation`): for each material, stock plus the quantity its
  outstanding sorties hold (`Total`), and how each handler changes it.
- `controller.dfy` (module `Controller`): class `SortieController`. It holds the two tables as fields
  and has methods `Store`, `Show`, `Update` and `Destroy`. These mutate `Quantite` step by step, as the
  handlers do. Each method's postcondition ties its outcome and the new tables to the step function.
  Each method also keeps `Valid()`: no stock is negative, and every sortie holds at least one unit.

Dates are integers: a later day is a larger number. "Now" is a parameter. The permission gate
(`Gate::allows`) is a function parameter `Gate = (Ability, UserId, Bon, Sortie) -> bool`: it sees the
acting user and the whole sortie row, its BonSortie included.

Read naively, the rule S' = S + Qo − Qn applies to the material the sortie was taken from. The code
(app/Http/Controllers/SortieController.php:161-164) applies it to the material named in the
*request*. When an update changes `CodeMateriel`, the old quantity is credited to the new material,
and the material the sortie was really taken from is never restored. The model follows the code.
`Conservation.UpdateSameMaterialConserves` shows that totals are kept when the material is unchanged.
`Conservation.UpdateOtherMaterialShiftsTotals` shows that otherwise Qo moves from the old material's
total to the new one's.

Two branches of the source are unreachable. The `exists:materiels` rule (lines 49 and 136) already
rejects a missing material. So store's "Matériel non trouvé" 404 (line 95) cannot happen, and neither
can update's 200 reply without any change (line 173 with no material). Both are modelled as written.
`StoreStep`'s contract says it never answers NotFound. `UpdateMaterialAlwaysFound` says a successful
update always found its material.

## Model

| member | source | states |
|---|---|---|
| Rules.LatestReception | app/Http/Controllers/SortieController.php:42-44 | The result is None iff no reception has this CodeMateriel. Otherwise it is the date of one such reception, and no such reception is later. |
| Rules.EarliestSortieDateMeaning | app/Http/Controllers/SortieController.php:52-56 | A DateSortie passes `after_or_equal` iff it is no earlier than every reception of the material, and no earlier than now when there is none. |
| Reconciliation.StoreStep | app/Http/Controllers/SortieController.php:39-96 | Every non-Ok answer of store leaves the database unchanged. Store never answers 404 or 403. Receptions are never written. |
| Reconciliation.UpdateStep | app/Http/Controllers/SortieController.php:118-176 | Every non-Ok answer of update leaves the database unchanged. Receptions are never written. |
| Reconciliation.DestroyStep | app/Http/Controllers/SortieController.php:181-205 | A non-Ok answer leaves the database unchanged. An Ok answer removes exactly that BonSortie from the sorties. |
| Reconciliation.ShowStep | app/Http/Controllers/SortieController.php:105-113 | Returns the sortie iff its BonSortie is present, otherwise nothing (404). |
| Reconciliation.StoreRejectsInvalidFields | app/Http/Controllers/SortieController.php:47-56 | Store answers Invalid iff a field rule fails, and then changes nothing. The rules: BonSortie required, at most 20 characters and unused; CodeMateriel required and existing; Q ≥ 1; Destinataire required and at most 150 characters; DateSortie no earlier than the latest reception, or now. |
| Reconciliation.StoreInsufficientStock | app/Http/Controllers/SortieController.php:81-83 | For valid fields with Q > S, store answers InsufficientStock, and stock and sorties are unchanged. |
| Reconciliation.StoreSuccess | app/Http/Controllers/SortieController.php:86-90 | For valid fields with Q ≤ S, store succeeds. The material ends at S − Q and no other material changes. Exactly one sortie is added, under the new BonSortie, with the caller as owner. Every old sortie is unchanged. |
| Reconciliation.StoreSucceedsIff | app/Http/Controllers/SortieController.php:47-90 | Store succeeds iff the fields pass and Q ≤ S. |
| Reconciliation.StorePreservesConsistent | app/Http/Controllers/SortieController.php:81-87 | Store keeps every Quantite ≥ 0 and every sortie's quantity ≥ 1. |
| Reconciliation.UpdateUnknownIsNotFound | app/Http/Controllers/SortieController.php:120-124 | An unknown BonSortie gives 404 with no change, whatever the gate says. |
| Reconciliation.UpdateDeniedIsForbidden | app/Http/Controllers/SortieController.php:126-128 | A found sortie with update permission denied gives 403 with no change, whatever the fields. |
| Reconciliation.UpdateRejectsInvalidFields | app/Http/Controllers/SortieController.php:130-139 | Once found and permitted, update answers Invalid iff an update field rule fails, and then changes nothing. BonSortie may keep its own value or take an unused one. DateSortie is not bounded. |
| Reconciliation.UpdateArithmetic | app/Http/Controllers/SortieController.php:159-172 | Once found, permitted and valid, let S' = S + Qo − Qn on the requested material. Update is refused with nothing persisted iff S' < 0. Otherwise that material's stock becomes S' and the sortie moves to its new BonSortie with the new fields and the same owner. Other sorties are untouched. |
| Reconciliation.UpdateMaterialAlwaysFound | app/Http/Controllers/SortieController.php:161-173 | A successful update always found its material, so the "no material, reply 200" branch is dead. |
| Reconciliation.UpdateSameMaterialAndQuantityKeepsStock | app/Http/Controllers/SortieController.php:163-164 | On a consistent database, an update that keeps the material and the quantity succeeds and leaves stock unchanged. |
| Reconciliation.UpdatePreservesConsistent | app/Http/Controllers/SortieController.php:163-171 | Update keeps every Quantite ≥ 0 and every sortie's quantity ≥ 1. |
| Reconciliation.DestroyUnknownIsNotFound | app/Http/Controllers/SortieController.php:202-203 | An unknown BonSortie gives 404 with no change, whatever the gate says. |
| Reconciliation.DestroyDeniedIsForbidden | app/Http/Controllers/SortieController.php:186-201 | Delete permission denied gives 403 with no change. |
| Reconciliation.DestroyCreditsBack | app/Http/Controllers/SortieController.php:188-197 | A permitted destroy succeeds and removes the sortie. If the material exists, its stock rises by the sortie's quantity. If it is missing, stock is untouched. |
| Reconciliation.DestroyPreservesConsistent | app/Http/Controllers/SortieController.php:190-193 | Destroy keeps every Quantite ≥ 0 and every sortie's quantity ≥ 1. |
| Reconciliation.StoreThenDestroyRestores | app/Http/Controllers/SortieController.php:86-90 | A permitted destroy of the sortie that a successful store just created gives back the exact original database: stock and sorties. |
| Conservation.StoreConserves | app/Http/Controllers/SortieController.php:86-90 | For every material, stock plus outstanding sortie quantity is the same after store, on every outcome. |
| Conservation.DestroyConserves | app/Http/Controllers/SortieController.php:188-197 | When the sortie's material exists, that total is the same after destroy for every material. |
| Conservation.DestroyOfMissingMaterialLosesQuantity | app/Http/Controllers/SortieController.php:190-197 | When the material is missing, destroy still drops the sortie, so that material's total falls by its quantity. |
| Conservation.UpdateSameMaterialConserves | app/Http/Controllers/SortieController.php:159-172 | An update that keeps CodeMateriel leaves every material's total unchanged. |
| Conservation.UpdateOtherMaterialShiftsTotals | app/Http/Controllers/SortieController.php:161-164 | A successful update that changes CodeMateriel raises the new material's total by Qo and lowers the old material's total by Qo. |
| Controller.SortieController.Store | app/Http/Controllers/SortieController.php:39-96 | Validate, compare, decrement, record. Outcome and new tables equal `StoreStep` of the old tables. `Valid()` is kept. |
| Controller.SortieController.Show | app/Http/Controllers/SortieController.php:105-113 | Returns the stored sortie iff its BonSortie exists. |
| Controller.SortieController.Update | app/Http/Controllers/SortieController.php:118-176 | Look up, gate, validate, then `+= Qo` and `-= Qn` on a local copy that is saved only when not negative. Outcome and new tables equal `UpdateStep`. `Valid()` is kept. |
| Controller.SortieController.Destroy | app/Http/Controllers/SortieController.php:181-205 | Look up, gate, `+= Q` when the material exists, delete the sortie. Outcome and new tables equal `DestroyStep`. `Valid()` is kept. |

## Left out

- HTTP responses, status-code plumbing and the French messages: outcomes are the `Outcome` datatype. Validation failures are one `Invalid` value; the model does not say which field failed.
- The `auth:sanctum` middleware (lines 16-21) and the gate policies: foreign framework code. The authenticated user is a parameter, and the gate is an arbitrary function of the ability, the user and the sortie row (key and fields).
- `index` (lines 29-33): a read-only listing with no logic.
- ORM querying: the latest reception is a function over the list of receptions, and "find by key" is map lookup.
- Laravel's global request middleware that trims strings and turns empty strings into null: inputs are taken as they reach the handler. `required` is modelled as "not only characters PHP's trim() strips".
- Absent or non-integer QuantiteSortant and unparsable dates: fields are typed (`int` quantity, `int` date), so the `integer` and `date` rules always hold.
- Dates are integers, and "now" is compared at the same resolution. The time of day that `after_or_equal:now` also compares is not modelled.
- Concurrency and the missing transaction around the read-modify-write: the model is sequential. Database writes are assumed to succeed: stock is saved before the sortie is written (lines 87 then 90, 171 then 172, 193 then 197), and a failure of the second write, which would leave stock changed without the matching sortie change, is not modelled.
- The receptions table schema only shapes the `Reception` record. Receptions are never written by these handlers.
