/** The milk intake handler and the recent-intake list. */
module Collections {
  import opened Common
  import opened Entities
  import opened Pricing
  import Seqs

  /** The request body after `parseFloat`: `None` is a field that did not parse (NaN). */
  datatype CollectionRequest = CollectionRequest(
    farmerId: string,
    quantity: Option<real>,
    fat: Option<real>,
    snf: Option<real>,
    shift: string)

  datatype IntakeError =
    | FarmerNotFound
      /** A NaN rate or amount reached the store, which refuses it; the
          handler's catch answers 500. */
    | StoreRejected
  {
    function Status(): int {
      match this
      case FarmerNotFound => 404
      case StoreRejected => 500
    }
  }

  /** How many collections the recent-intake list shows. */
  const RecentLimit: nat := 10

  /** Every reading the rate type's formula reads parsed as a number. */
  predicate ReadingsParsed(rateType: string, fat: Option<real>, snf: Option<real>) {
    && (UsesFat(rateType) ==> fat.Some?)
    && (UsesSnf(rateType) ==> snf.Some?)
  }

  /** The rate computed from the raw parses, NaN (`None`) when the formula
      reads an unparsable value; when it is a number, it is the rule applied
      to the readings that get stored. */
  function RawRate(f: Farmer, fat: Option<real>, snf: Option<real>): (r: Option<real>)
    ensures r.Some? <==> ReadingsParsed(f.rateType, fat, snf)
    ensures r.Some? ==> r.value == Rate(f, OrZero(fat), OrZero(snf))
  {
    if f.rateType == FatSnf then
      if fat.Some? && snf.Some? then Some(fat.value * f.fatRate + snf.value * f.snfRate) else None
    else if f.rateType == FatOnly then
      if fat.Some? then Some(fat.value * f.fatRate) else None
    else Some(f.fixedRate)
  }

  /** `addCollection`: look the farmer up, price the intake with the rule and
      store it with the readings defaulted to zero. */
  function AddCollection(
    farmers: map<string, Farmer>, db: seq<Collection>, req: CollectionRequest, id: string, now: int)
    : (r: Step<seq<Collection>, Collection, IntakeError>)
    ensures req.farmerId !in farmers ==> r.response == Err(FarmerNotFound)
    ensures r.response.Ok? <==>
              req.farmerId in farmers && req.quantity.Some?
              && ReadingsParsed(farmers[req.farmerId].rateType, req.fat, req.snf)
    ensures r.response.Err? ==> r.state == db
    ensures r.response.Ok? ==>
              var c := r.response.value;
              && r.state == db + [c]
              && c.farmerId == req.farmerId && c.id == id && c.date == now && c.shift == req.shift
              && c.quantity == req.quantity.value
              && c.fat == OrZero(req.fat) && c.snf == OrZero(req.snf)
              && PricedWith(c, farmers[req.farmerId])
  {
    if req.farmerId !in farmers then Step(db, Err(FarmerNotFound))
    else
      var f := farmers[req.farmerId];
      var rate := RawRate(f, req.fat, req.snf);
      if rate.None? || req.quantity.None? then Step(db, Err(StoreRejected))
      else
        var c := Collection(id, req.farmerId, now, req.shift, req.quantity.value,
                            OrZero(req.fat), OrZero(req.snf), rate.value, req.quantity.value * rate.value);
        Step(db + [c], Ok(c))
  }

  /** A reading the rate type ignores may be anything, even unparsable: the
      intake is still accepted and the reading is stored as zero. */
  lemma IgnoredReadingStoredAsZero(
    farmers: map<string, Farmer>, db: seq<Collection>, req: CollectionRequest, id: string, now: int)
    requires req.farmerId in farmers && req.quantity.Some?
    requires farmers[req.farmerId].rateType == FatOnly
    requires req.fat.Some? && req.snf.None?
    ensures AddCollection(farmers, db, req, id, now).response.Ok?
    ensures AddCollection(farmers, db, req, id, now).response.value.snf == 0.0
  {
  }

  /** `getRecentCollections`: the ten newest collections, newest first. */
  function RecentCollections(db: seq<Collection>): (r: seq<Collection>)
    ensures |r| == Min(RecentLimit, |db|)
    ensures forall i, j :: 0 <= i < j < |r| ==> r[i].date >= r[j].date
    ensures multiset(r) <= multiset(db)
    ensures forall i :: 0 <= i < |r| ==>
              forall c :: c in multiset(db) - multiset(r) ==> c.date <= r[i].date
  {
    Seqs.Newest(db, (c: Collection) => c.date, RecentLimit)
  }
}
