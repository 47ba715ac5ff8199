/**
 * The asset form dialog (components/assets/AssetFormModal.tsx): editing the
 * original amount or the exchange rate, and the loan-balance preview.
 */
module AssetForm {

  import opened Text
  import opened Dates
  import opened Records
  import opened Finance
  import AssetsView

  /** The two numeric inputs whose edits go through the conversion. */
  datatype AmountKey = OriginalAmountKey | ExchangeRateKey

  /**
   * The TWD amount of a foreign-currency holding: original × rate rounded,
   * a missing original read as 0 and a missing or zero rate as 1.
   */
  function Converted(originalAmount: Option<real>, exchangeRate: Option<real>): (r: real)
    ensures var x := OrElse(originalAmount, 0.0) * OrElse(exchangeRate, 1.0);
      x - 0.5 < r <= x + 0.5 && r.Floor as real == r
    ensures exchangeRate.None? || exchangeRate.value == 0.0 ==> r == Round(OrElse(originalAmount, 0.0)) as real
  {
    Round(OrElse(originalAmount, 0.0) * OrElse(exchangeRate, 1.0)) as real
  }

  /**
   * handleAmountChange: store the edited number (NaN, written None, as 0),
   * then recompute the TWD amount. A foreign currency converts
   * original × rate, rounded; in TWD an edit of the original amount is the
   * amount itself, except for a debt, whose amount the loan logic owns.
   */
  method HandleAmountChange(formData: AssetDraft, key: AmountKey, value: Option<real>) returns (newData: AssetDraft)
    ensures var safeVal := if value.Some? then value.value else 0.0;
      (key == OriginalAmountKey ==> newData.originalAmount == Some(safeVal) && newData.exchangeRate == formData.exchangeRate) &&
      (key == ExchangeRateKey ==> newData.exchangeRate == Some(safeVal) && newData.originalAmount == formData.originalAmount)
    ensures newData.currency != Some(TWD) ==>
      newData.amount == Some(Converted(newData.originalAmount, newData.exchangeRate))
    ensures newData.currency == Some(TWD) && key == OriginalAmountKey && formData.kind != Some(Debt) ==>
      newData.amount == newData.originalAmount
    ensures newData.currency == Some(TWD) && (key == ExchangeRateKey || formData.kind == Some(Debt)) ==>
      newData.amount == formData.amount
    ensures newData.(amount := formData.amount, originalAmount := formData.originalAmount,
                     exchangeRate := formData.exchangeRate) == formData
  {
    newData := formData;
    var safeVal := if value.Some? then value.value else 0.0;
    if key == OriginalAmountKey {
      newData := newData.(originalAmount := Some(safeVal));
    } else {
      newData := newData.(exchangeRate := Some(safeVal));
    }
    if newData.currency != Some(TWD) {
      newData := newData.(amount := Some(Converted(newData.originalAmount, newData.exchangeRate)));
    } else if key == OriginalAmountKey {
      if formData.kind != Some(Debt) {
        newData := newData.(amount := Some(safeVal));
      }
    }
  }

  /** The preview shows the loan balance exactly when the form is a debt with a start date and a truthy principal. */
  function CalculatedPreview(formData: AssetDraft, today: CalDate): (r: Option<real>)
    ensures r.Some? <==> formData.kind == Some(Debt) && formData.startDate.Some? && Truthy(formData.originalAmount)
    ensures r.Some? ==> Amortizes(formData.kind, formData.startDate, formData.originalAmount)
  {
    if formData.kind == Some(Debt) && formData.startDate.Some? && Truthy(formData.originalAmount)
    then Some(CalculateLoanBalance(formData, today))
    else None
  }

  /**
   * The preview is what submitting the form stores, and for a whole-unit
   * principal it lies between 0 and that principal.
   */
  lemma PreviewIsSubmitted(formData: AssetDraft, editingId: Option<string>, newId: string, now: int, today: CalDate, whole: nat)
    requires CalculatedPreview(formData, today).Some? && TruthyStr(formData.name)
    requires formData.originalAmount == Some(whole as real)
    ensures var r := AssetsView.SubmitAsset(formData, editingId, newId, now, today);
      !r.Ignored? && r.asset.amount == CalculatedPreview(formData, today).value
    ensures 0.0 <= CalculatedPreview(formData, today).value <= whole as real
  {
    LoanBalanceBounds(formData, today, whole);
  }
}
