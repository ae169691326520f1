/** The milk intake screen: the live rate preview, the payload the form
    submits, and the farmer picker's search. */
module IntakeForm {
  import opened Common
  import opened Entities
  import opened Pricing
  import opened Seqs
  import opened Text
  import Collections

  /** A form text box: empty, or typed text with what `parseFloat` makes of it. */
  datatype Field = Blank | Typed(parsed: Option<real>)
  {
    /** `parseFloat(text) || 0`. */
    function Number(): real {
      match this
      case Blank => 0.0
      case Typed(p) => OrZero(p)
    }
  }

  datatype Form = Form(quantity: Field, fat: Field, snf: Field, shift: string)

  datatype Preview = Preview(rate: real, total: real)

  datatype FormError = SelectFarmerFirst

  /** The preview shown under the form. With no farmer picked or nothing
      typed as quantity it shows zeros; otherwise the rule on the typed
      readings, times the typed quantity. */
  function LivePreview(farmer: Option<Farmer>, form: Form): (r: Preview)
    ensures farmer.None? || form.quantity.Blank? ==> r == Preview(0.0, 0.0)
    ensures farmer.Some? && form.quantity.Typed? ==>
              && r.rate == Rate(farmer.value, form.fat.Number(), form.snf.Number())
              && r.total == r.rate * form.quantity.Number()
  {
    if farmer.Some? && form.quantity.Typed? then
      var f := farmer.value;
      var rate :=
        if f.rateType == FatSnf then form.fat.Number() * f.fatRate + form.snf.Number() * f.snfRate
        else if f.rateType == FatOnly then form.fat.Number() * f.fatRate
        else f.fixedRate;
      Preview(rate, rate * form.quantity.Number())
    else Preview(0.0, 0.0)
  }

  /** The fat the form sends: zero for `FIXED` (the box is hidden). */
  function SentFat(f: Farmer, form: Form): (r: real)
    ensures f.rateType == Fixed ==> r == 0.0
    ensures f.rateType != Fixed ==> r == form.fat.Number()
  {
    if f.rateType != Fixed then form.fat.Number() else 0.0
  }

  /** The SNF the form sends: zero unless `FAT_SNF`. */
  function SentSnf(f: Farmer, form: Form): (r: real)
    ensures f.rateType == FatSnf ==> r == form.snf.Number()
    ensures f.rateType != FatSnf ==> r == 0.0
  {
    if f.rateType == FatSnf then form.snf.Number() else 0.0
  }

  /** `handleSubmit`: the request body posted to the intake handler. The
      numbers it sends always parse on the server. */
  function Payload(farmer: Option<Farmer>, form: Form): (r: Result<Collections.CollectionRequest, FormError>)
    ensures farmer.None? <==> r == Err(SelectFarmerFirst)
    ensures r.Ok? ==>
              && r.value.farmerId == farmer.value.id
              && r.value.quantity == Some(form.quantity.Number())
              && r.value.fat == Some(SentFat(farmer.value, form))
              && r.value.snf == Some(SentSnf(farmer.value, form))
              && r.value.shift == form.shift
  {
    if farmer.None? then Err(SelectFarmerFirst)
    else
      var f := farmer.value;
      Ok(Collections.CollectionRequest(
        f.id, Some(form.quantity.Number()), Some(SentFat(f, form)), Some(SentSnf(f, form)), form.shift))
  }

  /** Masking a reading the rate type does not read never changes the price. */
  lemma MaskingKeepsRate(f: Farmer, form: Form)
    ensures Rate(f, SentFat(f, form), SentSnf(f, form)) == Rate(f, form.fat.Number(), form.snf.Number())
  {
  }

  /** Submitting the form stores the intake at exactly the rate and amount
      the preview showed, provided the picked farmer is the stored one and a
      quantity was typed. */
  lemma {:induction false} SubmittedMatchesPreview(
    farmers: map<string, Farmer>, db: seq<Collection>, f: Farmer, form: Form, id: string, now: int)
    requires f.id in farmers && farmers[f.id] == f
    requires form.quantity.Typed?
    ensures var step := Collections.AddCollection(farmers, db, Payload(Some(f), form).value, id, now);
            var preview := LivePreview(Some(f), form);
            && step.response.Ok?
            && step.response.value.rate == preview.rate
            && step.response.value.totalAmount == preview.total
  {
    var req := Payload(Some(f), form).value;
    var step := Collections.AddCollection(farmers, db, req, id, now);
    MaskingKeepsRate(f, form);
    assert Collections.ReadingsParsed(f.rateType, req.fat, req.snf);
    var c := step.response.value;
    assert c.rate == Rate(f, SentFat(f, form), SentSnf(f, form));
    ProductCommutes(c.quantity, c.rate);
  }

  lemma ProductCommutes(a: real, b: real)
    ensures a * b == b * a
  {
  }

  /** The farmer picker: name case-insensitively or code exactly as typed. */
  predicate Picks(f: Farmer, term: string) {
    Contains(ToLower(f.name), ToLower(term)) || Contains(f.farmerCode, term)
  }

  function FilterFarmers(farmers: seq<Farmer>, term: string): (r: seq<Farmer>)
    ensures IsSubsequence(r, farmers)
    ensures forall i :: 0 <= i < |r| ==> Picks(r[i], term)
    ensures forall i :: 0 <= i < |farmers| && Picks(farmers[i], term) ==> farmers[i] in r
  {
    Filter(farmers, (f: Farmer) => Picks(f, term))
  }

  /** With nothing typed the picker lists every farmer. */
  lemma {:induction false} EmptySearchListsAll(farmers: seq<Farmer>)
    ensures FilterFarmers(farmers, "") == farmers
  {
    forall i | 0 <= i < |farmers|
      ensures Picks(farmers[i], "")
    {
      EmptyTermMatches(ToLower(farmers[i].name));
    }
    FilterAll(farmers, (f: Farmer) => Picks(f, ""));
  }

  /** A farmer is found by typing their code, or by their name in any case mix. */
  lemma FoundByCodeOrName(f: Farmer, typedName: string)
    requires ToLower(typedName) == ToLower(f.name)
    ensures Picks(f, f.farmerCode)
    ensures Picks(f, typedName)
  {
    ContainsSlice(f.farmerCode, 0, |f.farmerCode|);
    assert f.farmerCode[0..|f.farmerCode|] == f.farmerCode;
    ContainsSlice(ToLower(f.name), 0, |f.name|);
    assert ToLower(f.name)[0..|f.name|] == ToLower(f.name);
  }
}
