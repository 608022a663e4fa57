/**
 * The feature encoder of the churn dashboard: the form selections of one
 * customer become a record of named numeric features (binary flags,
 * drop-first one-hot indicators, tenure-bucket indicators and the derived
 * average charge), which is then aligned with the model's feature schema.
 */
module FeatureEncoder {
  import opened Alignment

  /**
   * The raw selections of the sidebar form. Categorical answers are the
   * strings the select boxes return, taken as they come: the encoder does
   * not check them against the options offered. The three sliders return
   * integers; tenure is a natural number because its slider starts at 0.
   */
  datatype RawInput = RawInput(
    gender: string,
    senior: string,
    partner: string,
    dependents: string,
    tenure: nat,
    monthly: int,
    total: int,
    contract: string,
    payment: string,
    paperless: string,
    internet: string,
    onlineSecurity: string,
    onlineBackup: string,
    deviceProtection: string,
    techSupport: string,
    streamingTv: string,
    streamingMovies: string,
    phoneService: string,
    multipleLines: string)

  // Options of the three multi-valued select boxes. The one-hot encoding
  // gives no column to "DSL", "Month-to-month" and "Bank transfer (automatic)".
  const InternetOptions: set<string> := {"DSL", "Fiber optic", "No"}
  const ContractOptions: set<string> := {"Month-to-month", "One year", "Two year"}
  const PaymentOptions: set<string> :=
    {"Electronic check", "Mailed check", "Credit card (automatic)", "Bank transfer (automatic)"}

  // Column names of the encoded record, spelled exactly as the dashboard writes them.
  const GenderCol := "gender"
  const SeniorCol := "SeniorCitizen"
  const PartnerCol := "Partner"
  const DependentsCol := "Dependents"
  const TenureCol := "tenure"
  const PhoneServiceCol := "PhoneService"
  const MultipleLinesCol := "MultipleLines"
  const OnlineSecurityCol := "OnlineSecurity"
  const OnlineBackupCol := "OnlineBackup"
  const DeviceProtectionCol := "DeviceProtection"
  const TechSupportCol := "TechSupport"
  const StreamingTvCol := "StreamingTV"
  const StreamingMoviesCol := "StreamingMovies"
  const PaperlessCol := "PaperlessBilling"
  const MonthlyCol := "MonthlyCharges"
  const TotalCol := "TotalCharges"
  const FiberCol := "InternetService_Fiber optic"
  const NoInternetCol := "InternetService_No"
  const OneYearCol := "Contract_One year"
  const TwoYearCol := "Contract_Two year"
  const CreditCardCol := "PaymentMethod_Credit card (automatic)"
  const ElectronicCheckCol := "PaymentMethod_Electronic check"
  const MailedCheckCol := "PaymentMethod_Mailed check"
  // The bucket names use an en dash (U+2013) between the bounds.
  const Bucket7To12Col := "tenure_bucket_7\U{2013}12 months"
  const Bucket13To24Col := "tenure_bucket_13\U{2013}24 months"
  const Bucket25To48Col := "tenure_bucket_25\U{2013}48 months"
  const Bucket49To60Col := "tenure_bucket_49\U{2013}60 months"
  const Bucket60PlusCol := "tenure_bucket_60+ months"
  const AvgChargesCol := "AvgCharges"


  /** The set of keys the dashboard writes into the encoded record. */
  const RecordColumns: set<string> := {
    GenderCol, SeniorCol, PartnerCol, DependentsCol, TenureCol,
    PhoneServiceCol, MultipleLinesCol, OnlineSecurityCol, OnlineBackupCol,
    DeviceProtectionCol, TechSupportCol, StreamingTvCol, StreamingMoviesCol,
    PaperlessCol, MonthlyCol, TotalCol, FiberCol, NoInternetCol,
    OneYearCol, TwoYearCol, CreditCardCol, ElectronicCheckCol, MailedCheckCol,
    Bucket7To12Col, Bucket13To24Col, Bucket25To48Col, Bucket49To60Col,
    Bucket60PlusCol, AvgChargesCol}

  /** The four columns that carry a number rather than a 0/1 indicator. */
  const NumericColumns: set<string> := {TenureCol, MonthlyCol, TotalCol, AvgChargesCol}

  /** 1 when the selection equals the field's designated positive answer, 0 otherwise. */
  function Flag(selection: string, positive: string): (r: real)
    ensures r == 0.0 || r == 1.0
    ensures r == 1.0 <==> selection == positive
  {
    if selection == positive then 1.0 else 0.0
  }

  /**
   * The average charge per month of tenure, smoothed by one month so that a
   * customer with tenure 0 is defined: the number that, multiplied by
   * tenure + 1, gives the total. With no tenure it is the total itself, and
   * for a non-negative total it never exceeds the total.
   */
  function AvgCharges(total: int, tenure: nat): (r: real)
    ensures r * (tenure + 1) as real == total as real
    ensures tenure == 0 ==> r == total as real
    ensures 0 <= total ==> 0.0 <= r <= total as real
  {
    total as real / (tenure + 1) as real
  }

  /**
   * The encoded record of one customer: binary answers, the numeric slider
   * values, drop-first one-hot indicators, tenure buckets and the average
   * charge. Every entry outside the four numeric columns is 0 or 1.
   */
  function Encode(raw: RawInput): (rec: map<string, real>)
    ensures forall c :: c in rec && c !in NumericColumns ==> rec[c] == 0.0 || rec[c] == 1.0
  {
    map[
      GenderCol := Flag(raw.gender, "Male"),
      SeniorCol := Flag(raw.senior, "Yes"),
      PartnerCol := Flag(raw.partner, "Yes"),
      DependentsCol := Flag(raw.dependents, "Yes"),
      TenureCol := raw.tenure as real,
      PhoneServiceCol := Flag(raw.phoneService, "Yes"),
      MultipleLinesCol := Flag(raw.multipleLines, "Yes"),
      OnlineSecurityCol := Flag(raw.onlineSecurity, "Yes"),
      OnlineBackupCol := Flag(raw.onlineBackup, "Yes"),
      DeviceProtectionCol := Flag(raw.deviceProtection, "Yes"),
      TechSupportCol := Flag(raw.techSupport, "Yes"),
      StreamingTvCol := Flag(raw.streamingTv, "Yes"),
      StreamingMoviesCol := Flag(raw.streamingMovies, "Yes"),
      PaperlessCol := Flag(raw.paperless, "Yes"),
      MonthlyCol := raw.monthly as real,
      TotalCol := raw.total as real,
      FiberCol := Flag(raw.internet, "Fiber optic"),
      NoInternetCol := Flag(raw.internet, "No"),
      OneYearCol := Flag(raw.contract, "One year"),
      TwoYearCol := Flag(raw.contract, "Two year"),
      CreditCardCol := Flag(raw.payment, "Credit card (automatic)"),
      ElectronicCheckCol := Flag(raw.payment, "Electronic check"),
      MailedCheckCol := Flag(raw.payment, "Mailed check"),
      Bucket7To12Col := if 7 <= raw.tenure <= 12 then 1.0 else 0.0,
      Bucket13To24Col := if 13 <= raw.tenure <= 24 then 1.0 else 0.0,
      Bucket25To48Col := if 25 <= raw.tenure <= 48 then 1.0 else 0.0,
      Bucket49To60Col := if 49 <= raw.tenure <= 60 then 1.0 else 0.0,
      Bucket60PlusCol := if raw.tenure > 60 then 1.0 else 0.0,
      AvgChargesCol := AvgCharges(raw.total, raw.tenure)
    ]
  }

  /** The record holds column `c` with value 1 when `b` holds and 0 when it does not. */
  predicate EncodesAs(rec: map<string, real>, c: string, b: bool)
  {
    c in rec && rec[c] == (if b then 1.0 else 0.0)
  }

  /** The record's keys are exactly RecordColumns. */
  lemma EncodeKeys(raw: RawInput, c: string)
    ensures c in Encode(raw) <==> c in RecordColumns
  {
  }

  /** tenure, MonthlyCharges and TotalCharges carry the slider values unchanged; AvgCharges is derived. */
  lemma NumericColumnsCarryValues(raw: RawInput)
    ensures TenureCol in Encode(raw) && Encode(raw)[TenureCol] == raw.tenure as real
    ensures MonthlyCol in Encode(raw) && Encode(raw)[MonthlyCol] == raw.monthly as real
    ensures TotalCol in Encode(raw) && Encode(raw)[TotalCol] == raw.total as real
    ensures AvgChargesCol in Encode(raw) && Encode(raw)[AvgChargesCol] == AvgCharges(raw.total, raw.tenure)
  {
  }

  /** Gender is 1 exactly for "Male", senior citizen exactly for "Yes". */
  lemma GenderSeniorFlagsMatchPositive(raw: RawInput)
    ensures EncodesAs(Encode(raw), GenderCol, raw.gender == "Male")
    ensures EncodesAs(Encode(raw), SeniorCol, raw.senior == "Yes")
  {
  }

  /** Partner, dependents and paperless billing are 1 exactly for "Yes". */
  lemma HouseholdFlagsMatchPositive(raw: RawInput)
    ensures EncodesAs(Encode(raw), PartnerCol, raw.partner == "Yes")
    ensures EncodesAs(Encode(raw), DependentsCol, raw.dependents == "Yes")
    ensures EncodesAs(Encode(raw), PaperlessCol, raw.paperless == "Yes")
  {
  }

  /** Phone service and multiple lines are 1 exactly for "Yes" ("No phone service" gives 0). */
  lemma PhoneFlagsMatchPositive(raw: RawInput)
    ensures EncodesAs(Encode(raw), PhoneServiceCol, raw.phoneService == "Yes")
    ensures EncodesAs(Encode(raw), MultipleLinesCol, raw.multipleLines == "Yes")
  {
  }

  /** Each protection add-on is 1 exactly for "Yes" ("No internet service" gives 0). */
  lemma ProtectionFlagsMatchPositive(raw: RawInput)
    ensures EncodesAs(Encode(raw), OnlineSecurityCol, raw.onlineSecurity == "Yes")
    ensures EncodesAs(Encode(raw), OnlineBackupCol, raw.onlineBackup == "Yes")
    ensures EncodesAs(Encode(raw), DeviceProtectionCol, raw.deviceProtection == "Yes")
  {
  }

  /** Tech support and the two streaming add-ons are 1 exactly for "Yes" ("No internet service" gives 0). */
  lemma SupportStreamingFlagsMatchPositive(raw: RawInput)
    ensures EncodesAs(Encode(raw), TechSupportCol, raw.techSupport == "Yes")
    ensures EncodesAs(Encode(raw), StreamingTvCol, raw.streamingTv == "Yes")
    ensures EncodesAs(Encode(raw), StreamingMoviesCol, raw.streamingMovies == "Yes")
  {
  }

  /** A "no service" reply read as a plain "No"; every other answer unchanged. */
  function AsPlainNo(answer: string, noService: string): string
  {
    if answer == noService then "No" else answer
  }

  /** The same answers with every "no service" reply turned into a plain "No". */
  function CollapseNoService(raw: RawInput): RawInput
  {
    raw.(
      onlineSecurity := AsPlainNo(raw.onlineSecurity, "No internet service"),
      onlineBackup := AsPlainNo(raw.onlineBackup, "No internet service"),
      deviceProtection := AsPlainNo(raw.deviceProtection, "No internet service"),
      techSupport := AsPlainNo(raw.techSupport, "No internet service"),
      streamingTv := AsPlainNo(raw.streamingTv, "No internet service"),
      streamingMovies := AsPlainNo(raw.streamingMovies, "No internet service"),
      multipleLines := AsPlainNo(raw.multipleLines, "No phone service"))
  }

  /** The encoding cannot tell "No internet service" or "No phone service" from "No". */
  lemma NoServiceEncodesAsNo(raw: RawInput)
    ensures Encode(CollapseNoService(raw)) == Encode(raw)
  {
    var plain := CollapseNoService(raw);
    assert Flag(plain.onlineSecurity, "Yes") == Flag(raw.onlineSecurity, "Yes");
    assert Flag(plain.onlineBackup, "Yes") == Flag(raw.onlineBackup, "Yes");
    assert Flag(plain.deviceProtection, "Yes") == Flag(raw.deviceProtection, "Yes");
    assert Flag(plain.techSupport, "Yes") == Flag(raw.techSupport, "Yes");
    assert Flag(plain.streamingTv, "Yes") == Flag(raw.streamingTv, "Yes");
    assert Flag(plain.streamingMovies, "Yes") == Flag(raw.streamingMovies, "Yes");
    assert Flag(plain.multipleLines, "Yes") == Flag(raw.multipleLines, "Yes");
  }

  /**
   * Internet service from its two indicators: "Fiber optic" and "No" have a
   * column each, and "DSL" is the dropped baseline.
   */
  function DecodeInternet(rec: map<string, real>): string
  {
    if FillValue(rec, FiberCol) == 1.0 then "Fiber optic"
    else if FillValue(rec, NoInternetCol) == 1.0 then "No"
    else "DSL"
  }

  /** Contract from its two indicators; "Month-to-month" is the dropped baseline. */
  function DecodeContract(rec: map<string, real>): string
  {
    if FillValue(rec, OneYearCol) == 1.0 then "One year"
    else if FillValue(rec, TwoYearCol) == 1.0 then "Two year"
    else "Month-to-month"
  }

  /** Payment method from its three indicators; "Bank transfer (automatic)" is the dropped baseline. */
  function DecodePayment(rec: map<string, real>): string
  {
    if FillValue(rec, CreditCardCol) == 1.0 then "Credit card (automatic)"
    else if FillValue(rec, ElectronicCheckCol) == 1.0 then "Electronic check"
    else if FillValue(rec, MailedCheckCol) == 1.0 then "Mailed check"
    else "Bank transfer (automatic)"
  }

  /**
   * Drop-first one-hot of internet service: each indicator is 1 exactly for
   * its own value, at most one is 1, both are 0 for the baseline "DSL" (and
   * for any answer the form does not offer), and every offered answer can be
   * read back from the indicators.
   */
  lemma InternetServiceOneHot(raw: RawInput)
    ensures EncodesAs(Encode(raw), FiberCol, raw.internet == "Fiber optic")
    ensures EncodesAs(Encode(raw), NoInternetCol, raw.internet == "No")
    ensures FillValue(Encode(raw), FiberCol) + FillValue(Encode(raw), NoInternetCol) <= 1.0
    ensures raw.internet == "DSL" ==> FillValue(Encode(raw), FiberCol) == 0.0 && FillValue(Encode(raw), NoInternetCol) == 0.0
    ensures raw.internet in InternetOptions ==> DecodeInternet(Encode(raw)) == raw.internet
  {
  }

  /** Drop-first one-hot of the contract; "Month-to-month" is the all-zero baseline. */
  lemma ContractOneHot(raw: RawInput)
    ensures EncodesAs(Encode(raw), OneYearCol, raw.contract == "One year")
    ensures EncodesAs(Encode(raw), TwoYearCol, raw.contract == "Two year")
    ensures FillValue(Encode(raw), OneYearCol) + FillValue(Encode(raw), TwoYearCol) <= 1.0
    ensures raw.contract == "Month-to-month" ==> FillValue(Encode(raw), OneYearCol) == 0.0 && FillValue(Encode(raw), TwoYearCol) == 0.0
    ensures raw.contract in ContractOptions ==> DecodeContract(Encode(raw)) == raw.contract
  {
  }

  /** Drop-first one-hot of the payment method; "Bank transfer (automatic)" is the all-zero baseline. */
  lemma PaymentMethodOneHot(raw: RawInput)
    ensures EncodesAs(Encode(raw), CreditCardCol, raw.payment == "Credit card (automatic)")
    ensures EncodesAs(Encode(raw), ElectronicCheckCol, raw.payment == "Electronic check")
    ensures EncodesAs(Encode(raw), MailedCheckCol, raw.payment == "Mailed check")
    ensures FillValue(Encode(raw), CreditCardCol) + FillValue(Encode(raw), ElectronicCheckCol) + FillValue(Encode(raw), MailedCheckCol) <= 1.0
    ensures raw.payment == "Bank transfer (automatic)" ==>
      FillValue(Encode(raw), CreditCardCol) == 0.0 && FillValue(Encode(raw), ElectronicCheckCol) == 0.0 && FillValue(Encode(raw), MailedCheckCol) == 0.0
    ensures raw.payment in PaymentOptions ==> DecodePayment(Encode(raw)) == raw.payment
  {
  }

  /** The six tenure ranges: the baseline 0 to 6 months and the five bucketed ranges. */
  datatype TenureBand = Baseline | Months7To12 | Months13To24 | Months25To48 | Months49To60 | Over60

  /** The range a tenure falls in, read off in increasing order of tenure. */
  function Band(tenure: nat): TenureBand
  {
    if tenure <= 6 then Baseline
    else if tenure <= 12 then Months7To12
    else if tenure <= 24 then Months13To24
    else if tenure <= 48 then Months25To48
    else if tenure <= 60 then Months49To60
    else Over60
  }

  /** Number of tenure-bucket indicators of the record that are set. */
  function BucketsSet(rec: map<string, real>): real
  {
    FillValue(rec, Bucket7To12Col) + FillValue(rec, Bucket13To24Col) + FillValue(rec, Bucket25To48Col)
      + FillValue(rec, Bucket49To60Col) + FillValue(rec, Bucket60PlusCol)
  }

  /** Each bucket indicator is 1 exactly when the tenure lies in that bucket's band. */
  lemma TenureBucketsFollowBand(raw: RawInput)
    ensures EncodesAs(Encode(raw), Bucket7To12Col, Band(raw.tenure) == Months7To12)
    ensures EncodesAs(Encode(raw), Bucket13To24Col, Band(raw.tenure) == Months13To24)
    ensures EncodesAs(Encode(raw), Bucket25To48Col, Band(raw.tenure) == Months25To48)
    ensures EncodesAs(Encode(raw), Bucket49To60Col, Band(raw.tenure) == Months49To60)
    ensures EncodesAs(Encode(raw), Bucket60PlusCol, Band(raw.tenure) == Over60)
  {
  }

  /**
   * The bucket indicators are mutually exclusive: none is set for tenure 0
   * to 6 and exactly one for any longer tenure; beyond 60 months it is the
   * "60+ months" bucket.
   */
  lemma TenureBucketsExclusive(raw: RawInput)
    ensures BucketsSet(Encode(raw)) == if raw.tenure <= 6 then 0.0 else 1.0
    ensures raw.tenure <= 6 ==>
      && FillValue(Encode(raw), Bucket7To12Col) == 0.0 && FillValue(Encode(raw), Bucket13To24Col) == 0.0
      && FillValue(Encode(raw), Bucket25To48Col) == 0.0 && FillValue(Encode(raw), Bucket49To60Col) == 0.0
      && FillValue(Encode(raw), Bucket60PlusCol) == 0.0
    ensures raw.tenure > 60 ==>
      && FillValue(Encode(raw), Bucket7To12Col) == 0.0 && FillValue(Encode(raw), Bucket13To24Col) == 0.0
      && FillValue(Encode(raw), Bucket25To48Col) == 0.0 && FillValue(Encode(raw), Bucket49To60Col) == 0.0
      && FillValue(Encode(raw), Bucket60PlusCol) == 1.0
  {
    TenureBucketsFollowBand(raw);
  }

  /**
   * The model-ready row of one customer: the encoded record aligned with the
   * feature schema. It has exactly the schema's columns in the schema's
   * order; a column the encoder produces carries its encoded value, any
   * other column is 0, and every value is 0 or 1 unless its column is one of
   * the four numeric ones.
   */
  function GetUserInput(raw: RawInput, schema: seq<string>): (row: seq<Cell>)
    ensures Columns(row) == schema
    ensures forall i :: 0 <= i < |schema| && schema[i] in RecordColumns ==> row[i].value == Encode(raw)[schema[i]]
    ensures forall i :: 0 <= i < |schema| && schema[i] !in RecordColumns ==> row[i].value == 0.0
    ensures forall i :: 0 <= i < |schema| && schema[i] !in NumericColumns ==> row[i].value == 0.0 || row[i].value == 1.0
  {
    ReindexColumnsAreSchema(schema, Encode(raw));
    Reindex(schema, Encode(raw))
  }
}
