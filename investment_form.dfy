/**
 * The analysis form's state transformations, shared by
 * frontend/src/components/InvestmentForm/index.jsx and the older
 * frontend/src/components/InvestmentForm.jsx, whose handlers are the same:
 * the initial form, an input change, the selected-symbol override (the newer
 * form only) and the submitted record, whose two percentages are divided
 * by 100.
 */
module InvestmentForm {
  import opened Wrappers
  import opened Text
  import opened JsNumber
  import InvestmentModels

  /** A form field holds a JavaScript number or a string. */
  datatype FormValue = NumberValue(n: Num) | TextValue(s: string)

  /** The form state: a JavaScript object from field names to values. */
  type FormData = map<string, FormValue>

  const ThresholdField: string := "threshold_percent"
  const CommissionField: string := "commission_rate"

  /**
   * `useState({...})`: the defaults, the percentages in percent; the two
   * dates are the formatted "now minus 30 days" and "now".
   */
  function InitialFormData(startDate: string, endDate: string): (r: FormData)
    ensures r.Keys == {"initial_balance", "trade_amount", ThresholdField, CommissionField, "start_date", "end_date", "symbol", "interval"}
  {
    map[
      "initial_balance" := NumberValue(Fin(10000.0)),
      "trade_amount" := NumberValue(Fin(1000.0)),
      ThresholdField := NumberValue(Fin(5.0)),
      CommissionField := NumberValue(Fin(0.075)),
      "start_date" := TextValue(startDate),
      "end_date" := TextValue(endDate),
      "symbol" := TextValue("ETHUSDT"),
      "interval" := TextValue("1h")]
  }

  /** Names containing "percent" or "rate" hold numbers. */
  predicate IsNumericField(name: string) {
    Includes(name, "percent") || Includes(name, "rate")
  }

  /**
   * `handleInputChange`: the named field takes the input's value, through
   * `parseFloat` for a numeric field; every other field is kept.
   */
  function HandleInputChange(form: FormData, name: string, value: string, parseFloat: string -> Num): (r: FormData)
    ensures r.Keys == form.Keys + {name}
    ensures forall k :: k in form && k != name ==> r[k] == form[k]
    ensures IsNumericField(name) ==> r[name] == NumberValue(parseFloat(value))
    ensures !IsNumericField(name) ==> r[name] == TextValue(value)
  {
    form[name := if IsNumericField(name) then NumberValue(parseFloat(value)) else TextValue(value)]
  }

  /** The effect keyed on `selectedSymbol`: a truthy selection replaces only `symbol`. */
  function SyncSelectedSymbol(form: FormData, selectedSymbol: Option<string>): (r: FormData)
    ensures selectedSymbol.None? || selectedSymbol.value == "" ==> r == form
    ensures selectedSymbol.Some? && selectedSymbol.value != "" ==>
      r.Keys == form.Keys + {"symbol"} && r["symbol"] == TextValue(selectedSymbol.value)
    ensures forall k :: k in form && k != "symbol" ==> r[k] == form[k]
  {
    match selectedSymbol
    case Some(symbol) => if symbol != "" then form["symbol" := TextValue(symbol)] else form
    case None => form
  }

  /**
   * `x / 100` on a field value: a number is divided; a string is first
   * converted with `Number`; a missing field is `undefined`, which gives NaN.
   */
  function Percent(v: Option<FormValue>, toNumber: string -> Num): (r: FormValue)
    ensures r.NumberValue?
    ensures v.Some? && v.value.NumberValue? ==> r == NumberValue(Over(v.value.n, 100.0))
  {
    match v
    case Some(NumberValue(n)) => NumberValue(Over(n, 100.0))
    case Some(TextValue(s)) => NumberValue(Over(toNumber(s), 100.0))
    case None => NumberValue(NaN)
  }

  function Field(form: FormData, name: string): Option<FormValue> {
    if name in form then Some(form[name]) else None
  }

  /** `handleSubmit`'s `submitData`: the form with the two percentages divided by 100. */
  function HandleSubmit(form: FormData, toNumber: string -> Num): (r: FormData)
    ensures r.Keys == form.Keys + {ThresholdField, CommissionField}
    ensures forall k :: k in form && k != ThresholdField && k != CommissionField ==> r[k] == form[k]
  {
    form[ThresholdField := Percent(Field(form, ThresholdField), toNumber)]
        [CommissionField := Percent(Field(form, CommissionField), toNumber)]
  }

  /** The two percentage fields hold numbers. */
  predicate PercentagesAreNumbers(form: FormData) {
    && ThresholdField in form && form[ThresholdField].NumberValue?
    && CommissionField in form && form[CommissionField].NumberValue?
  }

  /**
   * The percentage fields always hold numbers: so from the start, and after
   * any input change and any symbol selection, because both their names are
   * numeric fields.
   */
  lemma PercentagesStayNumbers(startDate: string, endDate: string, form: FormData, name: string, value: string,
                               parseFloat: string -> Num, selectedSymbol: Option<string>)
    ensures PercentagesAreNumbers(InitialFormData(startDate, endDate))
    ensures PercentagesAreNumbers(form) ==> PercentagesAreNumbers(HandleInputChange(form, name, value, parseFloat))
    ensures PercentagesAreNumbers(form) ==> PercentagesAreNumbers(SyncSelectedSymbol(form, selectedSymbol))
  {
    assert OccursAt("percent", ThresholdField, 10);
    IncludesIffOccurs(ThresholdField, "percent");
    assert OccursAt("rate", CommissionField, 11);
    IncludesIffOccurs(CommissionField, "rate");
    if name == ThresholdField || name == CommissionField {
      assert IsNumericField(name);
    }
  }

  /** On such a form, the submitted percentages are the form's numbers over 100. */
  lemma SubmitDividesPercentages(form: FormData, toNumber: string -> Num)
    requires PercentagesAreNumbers(form)
    ensures HandleSubmit(form, toNumber).Keys == form.Keys
    ensures HandleSubmit(form, toNumber)[ThresholdField] == NumberValue(Over(form[ThresholdField].n, 100.0))
    ensures HandleSubmit(form, toNumber)[CommissionField] == NumberValue(Over(form[CommissionField].n, 100.0))
  {
  }

  /**
   * Submitting the untouched form sends 0.05 and 0.00075: the backend's own
   * default threshold and commission.
   */
  lemma DefaultsMatchBackend(startDate: string, endDate: string, toNumber: string -> Num)
    ensures var sent := HandleSubmit(InitialFormData(startDate, endDate), toNumber);
      && sent[ThresholdField] == NumberValue(Fin(InvestmentModels.DefaultThresholdPercent))
      && sent[CommissionField] == NumberValue(Fin(InvestmentModels.DefaultCommissionRate))
      && sent["initial_balance"] == NumberValue(Fin(InvestmentModels.DefaultInitialBalance))
      && sent["trade_amount"] == NumberValue(Fin(InvestmentModels.DefaultTradeAmount))
      && sent["symbol"] == TextValue(InvestmentModels.DefaultSymbol)
      && sent["interval"] == TextValue(InvestmentModels.DefaultInterval)
  {
    var form := InitialFormData(startDate, endDate);
    assert Field(form, ThresholdField) == Some(NumberValue(Fin(5.0)));
    assert Field(form, CommissionField) == Some(NumberValue(Fin(0.075)));
  }
}
