/**
 * The screening form: eight text fields, the medical guardrails checked on
 * submit, the mapping to the request payload, and the component whose
 * state (form, result, loading, error) the three event handlers update.
 */
module PredictionForm {
  import opened Wrappers
  import opened JsNumber
  import opened Wire

  /** The eight fields of the form, by the key the component uses for each. */
  datatype Field = Age | Gender | ChestPain | Bp | Cholesterol | Sugar | Thalach | Exang

  /** The form's values, each the text of an input or the value of a select. */
  datatype Form = Form(
    age: string, gender: string, chestPain: string, bp: string,
    cholesterol: string, sugar: string, thalach: string, exang: string)
  {
    function Get(f: Field): string {
      match f
      case Age => age
      case Gender => gender
      case ChestPain => chestPain
      case Bp => bp
      case Cholesterol => cholesterol
      case Sugar => sugar
      case Thalach => thalach
      case Exang => exang
    }

    /** `{ ...form, [f]: v }`: field `f` becomes `v` and every other field keeps its value. */
    function With(f: Field, v: string): (r: Form)
      ensures r.Get(f) == v
      ensures forall g :: g != f ==> r.Get(g) == Get(g)
    {
      match f
      case Age => this.(age := v)
      case Gender => this.(gender := v)
      case ChestPain => this.(chestPain := v)
      case Bp => this.(bp := v)
      case Cholesterol => this.(cholesterol := v)
      case Sugar => this.(sugar := v)
      case Thalach => this.(thalach := v)
      case Exang => this.(exang := v)
    }
  }

  const EmptyForm := Form("", "", "", "", "", "", "", "")

  /** Some value of the form is the empty string. */
  predicate Incomplete(form: Form) {
    form.age == "" || form.gender == "" || form.chestPain == "" || form.bp == ""
    || form.cholesterol == "" || form.sugar == "" || form.thalach == "" || form.exang == ""
  }

  /** Why a submission was refused before any request: an empty field, or the first guardrail that failed. */
  datatype Rejection = Unfilled | AgeOutOfRange | BpOutOfRange | CholesterolOutOfRange | HeartRateOutOfRange

  const IncompleteMessage := "Please fill in all fields before predicting."
  const AgeMessage := "Please enter a valid age between 18 and 100."
  const BpMessage := "Resting blood pressure must be a realistic value (80 - 250 mm Hg)."
  const CholesterolMessage := "Cholesterol must be a realistic value (100 - 600 mg/dl)."
  const HeartRateMessage := "Max heart rate must be a realistic value (60 - 220 bpm)."
  const MissingAgeMessage := "Please enter your age first to estimate Max Heart Rate."
  const ConnectionMessage := "Failed to connect to the prediction server. Make sure your Python backend is running."

  function Message(why: Rejection): string {
    match why
    case Unfilled => IncompleteMessage
    case AgeOutOfRange => AgeMessage
    case BpOutOfRange => BpMessage
    case CholesterolOutOfRange => CholesterolMessage
    case HeartRateOutOfRange => HeartRateMessage
  }

  /** The texts the component's error line can hold: nothing, or one of the authored messages. */
  predicate IsErrorText(e: string) {
    e == "" || e == IncompleteMessage || e == AgeMessage || e == BpMessage || e == CholesterolMessage
    || e == HeartRateMessage || e == MissingAgeMessage || e == ConnectionMessage
  }

  /** The field each guardrail reads, and its inclusive bounds. */
  function GuardedField(why: Rejection): Field
    requires why != Unfilled
  {
    match why
    case AgeOutOfRange => Age
    case BpOutOfRange => Bp
    case CholesterolOutOfRange => Cholesterol
    case HeartRateOutOfRange => Thalach
  }

  function Lowest(why: Rejection): int
    requires why != Unfilled
  {
    match why
    case AgeOutOfRange => 18
    case BpOutOfRange => 80
    case CholesterolOutOfRange => 100
    case HeartRateOutOfRange => 60
  }

  function Highest(why: Rejection): int
    requires why != Unfilled
  {
    match why
    case AgeOutOfRange => 100
    case BpOutOfRange => 250
    case CholesterolOutOfRange => 600
    case HeartRateOutOfRange => 220
  }

  /** `x < low || x > high`: a value that compares outside the bounds. NaN compares false both ways and passes. */
  predicate OutOfRange(x: Num, low: int, high: int) {
    Below(x, low) || Above(x, high)
  }

  /** The guardrail `why` refuses the form. */
  predicate Trips(form: Form, why: Rejection)
    requires why != Unfilled
  {
    OutOfRange(ToNumber(form.Get(GuardedField(why))), Lowest(why), Highest(why))
  }

  /** The request body for a form: the four guarded numbers, the two flags, and the two codes as numbers. */
  function MakePayload(form: Form): Payload {
    Payload(
      age := ToNumber(form.age),
      sex := if form.gender == "male" then 1 else 0,
      cp := ToNumber(form.chestPain),
      trestbps := ToNumber(form.bp),
      chol := ToNumber(form.cholesterol),
      fbs := if form.sugar == "true" then 1 else 0,
      thalach := ToNumber(form.thalach),
      exang := ToNumber(form.exang))
  }

  /** The checks `handleSubmit` makes before it sends anything, and the payload it would send. */
  function Validate(form: Form): Result<Payload, Rejection> {
    if Incomplete(form) then Failure(Unfilled)
    else if OutOfRange(ToNumber(form.age), 18, 100) then Failure(AgeOutOfRange)
    else if OutOfRange(ToNumber(form.bp), 80, 250) then Failure(BpOutOfRange)
    else if OutOfRange(ToNumber(form.cholesterol), 100, 600) then Failure(CholesterolOutOfRange)
    else if OutOfRange(ToNumber(form.thalach), 60, 220) then Failure(HeartRateOutOfRange)
    else Success(MakePayload(form))
  }

  /** The form's completeness check reads all eight values. */
  lemma IncompleteIff(form: Form)
    ensures Incomplete(form) <==> exists f :: form.Get(f) == ""
  {
    if Incomplete(form) {
      var f :| f in [Age, Gender, ChestPain, Bp, Cholesterol, Sugar, Thalach, Exang] && form.Get(f) == "";
    }
  }

  /** A form with an empty field is refused for that reason, and only such a form is. */
  lemma UnfilledIff(form: Form)
    ensures Validate(form) == Failure(Unfilled) <==> exists f :: form.Get(f) == ""
  {
    IncompleteIff(form);
    assert Validate(form) == Failure(Unfilled) <==> Incomplete(form);
  }

  /** The position of each guardrail in the order they are tried. */
  function Position(why: Rejection): nat
    requires why != Unfilled
  {
    match why
    case AgeOutOfRange => 0
    case BpOutOfRange => 1
    case CholesterolOutOfRange => 2
    case HeartRateOutOfRange => 3
  }

  /**
   * On a filled-in form the guardrails are tried in order and the first
   * one that trips decides: a form is refused by a guardrail exactly when
   * that one trips and every one before it passes.
   */
  lemma FirstTrippedGuardrailWins(form: Form, why: Rejection)
    requires !Incomplete(form) && why != Unfilled
    ensures Validate(form) == Failure(why) <==>
      Trips(form, why) && forall earlier :: earlier != Unfilled && Position(earlier) < Position(why) ==> !Trips(form, earlier)
  {
    assert Trips(form, AgeOutOfRange) == OutOfRange(ToNumber(form.age), 18, 100);
    assert Trips(form, BpOutOfRange) == OutOfRange(ToNumber(form.bp), 80, 250);
    assert Trips(form, CholesterolOutOfRange) == OutOfRange(ToNumber(form.cholesterol), 100, 600);
    assert Trips(form, HeartRateOutOfRange) == OutOfRange(ToNumber(form.thalach), 60, 220);
  }

  /** A filled-in form goes through exactly when no guardrail trips. */
  lemma AcceptedIffNoGuardrailTrips(form: Form)
    requires !Incomplete(form)
    ensures Validate(form).Success? <==> forall why :: why != Unfilled ==> !Trips(form, why)
  {
    assert Trips(form, AgeOutOfRange) == OutOfRange(ToNumber(form.age), 18, 100);
    assert Trips(form, BpOutOfRange) == OutOfRange(ToNumber(form.bp), 80, 250);
    assert Trips(form, CholesterolOutOfRange) == OutOfRange(ToNumber(form.cholesterol), 100, 600);
    assert Trips(form, HeartRateOutOfRange) == OutOfRange(ToNumber(form.thalach), 60, 220);
  }

  /** The bounds are inclusive: a whole number typed into a guarded field trips its guardrail exactly when it lies outside them. */
  lemma InclusiveBounds(n: int, why: Rejection, form: Form)
    requires why != Unfilled
    requires form.Get(GuardedField(why)) == IntToString(n)
    ensures Trips(form, why) <==> n < Lowest(why) || n > Highest(why)
  {
    ToNumberOfIntToString(n);
  }

  /** 18 and 100 pass the age guardrail while 17 and 101 trip it. */
  lemma AgeBoundaryValues()
    ensures !OutOfRange(ToNumber("18"), 18, 100) && !OutOfRange(ToNumber("100"), 18, 100)
    ensures OutOfRange(ToNumber("17"), 18, 100) && OutOfRange(ToNumber("101"), 18, 100)
  {
  }

  /**
   * What an accepted form sends: the guarded numbers are in range or NaN,
   * sex is 1 exactly for "male", fbs is 1 exactly for "true", and the two
   * codes are read as numbers.
   */
  lemma AcceptedPayload(form: Form)
    requires Validate(form).Success?
    ensures var p := Validate(form).value;
      && (p.age.Some? ==> 18 <= p.age.value <= 100)
      && (p.trestbps.Some? ==> 80 <= p.trestbps.value <= 250)
      && (p.chol.Some? ==> 100 <= p.chol.value <= 600)
      && (p.thalach.Some? ==> 60 <= p.thalach.value <= 220)
      && p.age == ToNumber(form.age) && p.trestbps == ToNumber(form.bp)
      && p.chol == ToNumber(form.cholesterol) && p.thalach == ToNumber(form.thalach)
      && (p.sex == 1 <==> form.gender == "male") && (p.sex == 0 <==> form.gender != "male")
      && (p.fbs == 1 <==> form.sugar == "true") && (p.fbs == 0 <==> form.sugar != "true")
      && p.cp == ToNumber(form.chestPain) && p.exang == ToNumber(form.exang)
  {
  }

  /** A worked example: a typical filled-in form and the payload it produces. */
  lemma ExamplePayload()
    ensures Validate(Form("45", "male", "2", "130", "220", "true", "150", "0"))
      == Success(Payload(Some(45), 1, Some(2), Some(130), Some(220), 1, Some(150), Some(0)))
  {
    var form := Form("45", "male", "2", "130", "220", "true", "150", "0");
    assert ToNumber("45") == Some(45);
    assert ToNumber("2") == Some(2);
    assert ToNumber("130") == Some(130);
    assert ToNumber("220") == Some(220);
    assert ToNumber("150") == Some(150);
    assert ToNumber("0") == Some(0);
    assert !Incomplete(form);
  }

  /** The guardrails only refuse values that compare out of range: a non-numeric age goes through as NaN. */
  lemma NonNumericAgePasses()
    ensures Validate(Form("abc", "female", "3", "120", "200", "false", "150", "0")).Success?
    ensures Validate(Form("abc", "female", "3", "120", "200", "false", "150", "0")).value.age == None
  {
    var form := Form("abc", "female", "3", "120", "200", "false", "150", "0");
    assert ToNumber("abc") == None;
    assert ToNumber("120") == Some(120);
    assert ToNumber("200") == Some(200);
    assert ToNumber("150") == Some(150);
    assert !Incomplete(form);
  }

  /** The heart rate `estimateMaxHeartRate` writes for an age field: 220 minus the age, or nothing when the age is empty or not a number. */
  function EstimatedThalach(age: string): Option<string> {
    if age == "" || IsNaN(age) then None
    else Some(IntToString(220 - ToNumber(age).value))
  }

  /**
   * The estimate reads back as 220 minus the age, and for every age the
   * age guardrail accepts it lies within the heart-rate guardrail.
   */
  lemma EstimateReadsBack(age: string)
    requires EstimatedThalach(age).Some?
    ensures ToNumber(EstimatedThalach(age).value) == Some(220 - ToNumber(age).value)
    ensures !OutOfRange(ToNumber(age), 18, 100) ==> !OutOfRange(ToNumber(EstimatedThalach(age).value), 60, 220)
  {
    ToNumberOfIntToString(220 - ToNumber(age).value);
  }

  /** An age of 40 gives "180"; an empty age gives no estimate. */
  lemma EstimateExample()
    ensures EstimatedThalach("40") == Some("180")
    ensures EstimatedThalach("") == None
  {
    assert IntToString(180) == "180";
  }

  /**
   * The prediction form component. `loading` is true from the moment a
   * request is sent until it ends; `result` is the last reply shown.
   */
  class Component {
    var form: Form
    var result: Option<Reply>
    var loading: bool
    var error: string

    /** While a request is pending no result is shown, and the error line holds nothing or an authored message. */
    ghost predicate Valid()
      reads this
    {
      (loading ==> result == None) && IsErrorText(error)
    }

    constructor ()
      ensures Valid()
      ensures form == EmptyForm && result == None && !loading && error == ""
    {
      form := EmptyForm;
      result := None;
      loading := false;
      error := "";
    }

    /** `handleChange(field, value)`: sets one field and clears the error line; nothing else changes. */
    method HandleChange(field: Field, value: string)
      requires Valid()
      modifies this
      ensures Valid()
      ensures form == old(form).With(field, value)
      ensures result == old(result) && loading == old(loading) && error == ""
    {
      form := form.With(field, value);
      if error != "" {
        error := "";
      }
    }

    /** `estimateMaxHeartRate()`: fills in the heart rate from the age, or explains that the age is needed. */
    method EstimateMaxHeartRate()
      requires Valid()
      modifies this
      ensures Valid()
      ensures result == old(result) && loading == old(loading)
      ensures EstimatedThalach(old(form).age).None? ==> form == old(form) && error == MissingAgeMessage
      ensures EstimatedThalach(old(form).age).Some? ==>
        form == old(form).With(Thalach, EstimatedThalach(old(form).age).value) && error == ""
    {
      if form.age == "" || IsNaN(form.age) {
        error := MissingAgeMessage;
        return;
      }
      var estimated := 220 - ToNumber(form.age).value;
      form := form.With(Thalach, IntToString(estimated));
      error := "";
    }

    /**
     * The synchronous part of `handleSubmit`, up to the request: a refused
     * form sets its message and sends nothing, keeping the earlier result;
     * an accepted one clears result and error, sets `loading` and sends its payload.
     */
    method Submit() returns (request: Option<Payload>)
      requires Valid() && !loading
      modifies this
      ensures Valid() && form == old(form)
      ensures Validate(old(form)).Failure? ==>
        request == None && error == Message(Validate(old(form)).error) && result == old(result) && !loading
      ensures Validate(old(form)).Success? ==>
        request == Some(Validate(old(form)).value) && result == None && error == "" && loading
    {
      if Incomplete(form) {
        error := IncompleteMessage;
        return None;
      }
      var ageNum := ToNumber(form.age);
      var bpNum := ToNumber(form.bp);
      var cholNum := ToNumber(form.cholesterol);
      var thalachNum := ToNumber(form.thalach);
      if Below(ageNum, 18) || Above(ageNum, 100) {
        error := AgeMessage;
        return None;
      }
      if Below(bpNum, 80) || Above(bpNum, 250) {
        error := BpMessage;
        return None;
      }
      if Below(cholNum, 100) || Above(cholNum, 600) {
        error := CholesterolMessage;
        return None;
      }
      if Below(thalachNum, 60) || Above(thalachNum, 220) {
        error := HeartRateMessage;
        return None;
      }
      result := None;
      error := "";
      loading := true;
      request := Some(Payload(
        age := ageNum,
        sex := if form.gender == "male" then 1 else 0,
        cp := ToNumber(form.chestPain),
        trestbps := bpNum,
        chol := cholNum,
        fbs := if form.sugar == "true" then 1 else 0,
        thalach := thalachNum,
        exang := ToNumber(form.exang)));
    }

    /**
     * The rest of `handleSubmit`, once the request ends: a reply without a
     * truthy error becomes the result; a reply with one, or an exception,
     * sets the connection message. Either way `loading` ends.
     */
    method Resolve(outcome: Outcome)
      requires Valid() && loading
      modifies this
      ensures Valid() && form == old(form) && !loading
      ensures Succeeded(outcome) ==> result == Some(outcome.reply) && error == old(error)
      ensures !Succeeded(outcome) ==> result == None && error == ConnectionMessage
    {
      if outcome.Received? && !CarriesError(outcome.reply) {
        result := Some(outcome.reply);
      } else {
        error := ConnectionMessage;
      }
      loading := false;
    }

    /**
     * `handleSubmit` when no other event arrives while the request is
     * pending; `server` is what the request to the prediction service ends with.
     */
    method HandleSubmit(server: Payload -> Outcome) returns (request: Option<Payload>)
      requires Valid() && !loading
      modifies this
      ensures Valid() && form == old(form) && !loading
      ensures Validate(old(form)).Failure? ==>
        request == None && error == Message(Validate(old(form)).error) && result == old(result)
      ensures Validate(old(form)).Success? && Succeeded(server(Validate(old(form)).value)) ==>
        request == Some(Validate(old(form)).value)
        && result == Some(server(Validate(old(form)).value).reply) && error == ""
      ensures Validate(old(form)).Success? && !Succeeded(server(Validate(old(form)).value)) ==>
        request == Some(Validate(old(form)).value) && result == None && error == ConnectionMessage
    {
      request := Submit();
      if request.Some? {
        Resolve(server(request.value));
      }
    }
  }
}
