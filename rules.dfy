/** The field rules store and update check before touching any row. */
module Rules {
  import opened Records

  const MAX_BON_LENGTH := 20
  const MAX_RECIPIENT_LENGTH := 150
  const MIN_QUANTITY := 1

  /** The characters PHP's trim() strips by default. */
  predicate IsTrimmed(ch: char)
  {
    ch == ' ' || ch == '\t' || ch == '\n' || ch == '\r' || ch == '\0' || ch == '\U{B}'
  }

  /** The `required` rule on a string: something is left once it is trimmed. */
  predicate Required(s: string)
  {
    exists i :: 0 <= i < |s| && !IsTrimmed(s[i])
  }

  /** The latest DateReception recorded for `code`, or None when it has never been received. */
  function LatestReception(receptions: seq<Reception>, code: Code): (latest: Option<Date>)
    ensures latest.None? <==> forall i :: 0 <= i < |receptions| ==> receptions[i].code != code
    ensures latest.Some? ==>
      exists i :: 0 <= i < |receptions| && receptions[i].code == code && receptions[i].date == latest.value
    ensures latest.Some? ==>
      forall i :: 0 <= i < |receptions| && receptions[i].code == code ==> receptions[i].date <= latest.value
  {
    if receptions == [] then None
    else
      var rest := LatestReception(receptions[1..], code);
      assert forall i :: 1 <= i < |receptions| ==> receptions[i] == receptions[1..][i - 1];
      if receptions[0].code != code then rest
      else if rest.Some? && receptions[0].date < rest.value then rest
      else Some(receptions[0].date)
  }

  /** The bound of the `after_or_equal` rule: the latest reception of the material, else now. */
  function EarliestSortieDate(receptions: seq<Reception>, code: Code, now: Date): Date
  {
    match LatestReception(receptions, code)
    case Some(d) => d
    case None => now
  }

  /** The rules both handlers share: CodeMateriel, QuantiteSortant, Destinataire and the length of BonSortie. */
  predicate FieldRules(f: SortieFields, materials: set<Code>)
  {
    && Required(f.bon) && |f.bon| <= MAX_BON_LENGTH
    && Required(f.code) && f.code in materials
    && f.quantity >= MIN_QUANTITY
    && Required(f.recipient) && |f.recipient| <= MAX_RECIPIENT_LENGTH
  }

  /** What store accepts: a fresh BonSortie and a DateSortie no earlier than the material's last reception. */
  predicate StoreRules(f: SortieFields, materials: set<Code>, bons: set<Bon>, receptions: seq<Reception>, now: Date)
  {
    && FieldRules(f, materials)
    && f.bon !in bons
    && f.date >= EarliestSortieDate(receptions, f.code, now)
  }

  /** What update accepts: BonSortie may keep its current value or take an unused one; any DateSortie. */
  predicate UpdateRules(f: SortieFields, materials: set<Code>, bons: set<Bon>, current: Bon)
  {
    && FieldRules(f, materials)
    && (f.bon == current || f.bon !in bons)
  }

  /** The date rule of store, read without LatestReception: no earlier than every reception of the
      material, and no earlier than now when there is none. */
  lemma EarliestSortieDateMeaning(receptions: seq<Reception>, code: Code, now: Date, date: Date)
    ensures date >= EarliestSortieDate(receptions, code, now) <==>
      && (forall i :: 0 <= i < |receptions| && receptions[i].code == code ==> receptions[i].date <= date)
      && ((forall i :: 0 <= i < |receptions| ==> receptions[i].code != code) ==> now <= date)
  {
  }
}
