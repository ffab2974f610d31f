/** The rows and requests the sortie (stock withdrawal) endpoints work on. */
module Records {

  /** CodeMateriel: the business key of a material. */
  type Code = string
  /** BonSortie / BonReception: a human-assigned document number. */
  type Bon = string
  /** The id of an authenticated user. */
  type UserId = nat
  /** A calendar date as an ordinal: a later day is a larger number. */
  type Date = int

  datatype Option<+T> = None | Some(value: T)

  /** A stored sortie row (its key, BonSortie, is the key of the map that holds it). */
  datatype Sortie = Sortie(code: Code, quantity: int, recipient: string, date: Date, owner: UserId)

  /** A stored reception row: stock that came in for one material. */
  datatype Reception = Reception(bon: Bon, code: Code, quantityReceived: int, date: Date)

  /** The request fields that store and update validate and persist. */
  datatype SortieFields = SortieFields(bon: Bon, code: Code, quantity: int, recipient: string, date: Date)

  /** What a handler answers: success, 404, 403, a rejected field (validation) or 400 for too little stock. */
  datatype Outcome = Ok | NotFound | Forbidden | Invalid | InsufficientStock

  /** The two permissions the gate is asked about. */
  datatype Ability = UpdateSortie | DeleteSortie
}
