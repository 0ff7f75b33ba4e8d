/**
 * The request handler `home` of Sessions/Day12/app.py. A POST reads six form
 * fields, parses the numeric ones, encodes the applicant and asks the model
 * for a prediction; any other method (GET, and HEAD, which the framework adds
 * to a GET route) produces no prediction. Parsing of numbers and the
 * regression model are outside the model and are passed in as functions.
 */
module RequestHandler {
  import opened Wrappers
  import opened FeatureEncoding

  /** The request methods that reach the handler. */
  datatype Method = GET | HEAD | POST

  /** Why a POST fails: a field is absent from the form, or a numeric field does not parse. */
  datatype FormError = MissingField(name: string) | Malformed(name: string)

  /** The submitted form, field name to field text. */
  type Form = map<string, string>

  /** A number parser (the role of Python's `float`): None when the text is not a number. */
  type Parser = string -> Option<real>

  /** A fitted regression model: a feature vector to a predicted cost. */
  type Model = seq<real> -> real

  /** The fields read, in the order the handler reads them. */
  const Fields: seq<string> := ["age", "sex", "bmi", "children", "smoker", "region"]
  const NumericFields: seq<string> := ["age", "bmi", "children"]

  /** A field of the form; its absence is a failure. */
  function Field(form: Form, name: string): (r: Result<string, FormError>)
    ensures r.Success? <==> name in form
    ensures r.Success? ==> r.value == form[name]
    ensures r.Failure? ==> r.error == MissingField(name)
  {
    if name in form then Success(form[name]) else Failure(MissingField(name))
  }

  /** A numeric field of the form: present and parsed. */
  function Number(form: Form, name: string, parse: Parser): (r: Result<real, FormError>)
    ensures r.Success? <==> name in form && parse(form[name]).Some?
    ensures r.Success? ==> r.value == parse(form[name]).value
    ensures r == Failure(MissingField(name)) <==> name !in form
    ensures r == Failure(Malformed(name)) <==> name in form && parse(form[name]).None?
  {
    var text :- Field(form, name);
    match parse(text)
    case None => Failure(Malformed(name))
    case Some(x) => Success(x)
  }

  /** Every field is present and every numeric field parses. */
  ghost predicate Complete(form: Form, parse: Parser) {
    && (forall k :: k in Fields ==> k in form)
    && (forall k :: k in NumericFields ==> parse(form[k]).Some?)
  }

  /** A field that reads without failure: present, and a number where a number is expected. */
  ghost predicate FieldOk(form: Form, parse: Parser, name: string) {
    name in form && (name in NumericFields ==> parse(form[name]).Some?)
  }

  /** `name` is the first field, in reading order, that does not read. */
  ghost predicate FirstBad(form: Form, parse: Parser, name: string) {
    exists i :: 0 <= i < |Fields| && Fields[i] == name && !FieldOk(form, parse, name)
      && forall j :: 0 <= j < i ==> FieldOk(form, parse, Fields[j])
  }

  /** The applicant a complete form describes, each field taken directly from the form. */
  ghost function Submitted(form: Form, parse: Parser): Applicant
    requires Complete(form, parse)
  {
    Applicant(
      parse(form["age"]).value, form["sex"], parse(form["bmi"]).value,
      parse(form["children"]).value, form["smoker"], form["region"])
  }

  /** The applicant of a POST: the six fields read in order, the first failure ending the request. */
  function ReadApplicant(form: Form, parse: Parser): (r: Result<Applicant, FormError>)
    ensures r.Success? <==> Complete(form, parse)
    ensures r.Success? ==> r.value == Submitted(form, parse)
    ensures r.Failure? ==> FirstBad(form, parse, r.error.name)
    ensures r.Failure? ==> (r.error.MissingField? <==> r.error.name !in form)
  {
    assert Fields[0] == "age" && Fields[1] == "sex" && Fields[2] == "bmi";
    assert Fields[3] == "children" && Fields[4] == "smoker" && Fields[5] == "region";
    var age :- Number(form, "age", parse);
    var sex :- Field(form, "sex");
    var bmi :- Number(form, "bmi", parse);
    var children :- Number(form, "children", parse);
    var smoker :- Field(form, "smoker");
    var region :- Field(form, "region");
    Success(Applicant(age, sex, bmi, children, smoker, region))
  }

  /** The feature vector the handler builds: none unless POST, the encoded applicant on POST. */
  function Features(verb: Method, form: Form, parse: Parser): (r: Result<Option<seq<real>>, FormError>)
    ensures verb != POST ==> r == Success(None)
    ensures verb == POST ==> (r.Success? <==> Complete(form, parse))
    ensures verb == POST && Complete(form, parse) ==> r == Success(Some(Encode(Submitted(form, parse))))
    ensures verb == POST && r.Success? ==> r.value.Some? && IsFeatureVector(r.value.value)
    ensures verb == POST && r.Failure? ==> r.error == ReadApplicant(form, parse).error
  {
    match verb
    case GET => Success(None)
    case HEAD => Success(None)
    case POST =>
      var applicant :- ReadApplicant(form, parse);
      Success(Some(Encode(applicant)))
  }

  /** The prediction the page shows: none unless POST, the model's output for the feature vector on POST. */
  function Home(verb: Method, form: Form, parse: Parser, predict: Model): (r: Result<Option<real>, FormError>)
    ensures verb != POST ==> r == Success(None)
    ensures r.Success? && r.value.Some? ==> verb == POST
    ensures verb == POST && Complete(form, parse) ==> r == Success(Some(predict(Encode(Submitted(form, parse)))))
    ensures Features(verb, form, parse).Failure? ==> r == Failure(Features(verb, form, parse).error)
    ensures forall v :: Features(verb, form, parse) == Success(Some(v)) ==> r == Success(Some(predict(v)))
  {
    var features :- Features(verb, form, parse);
    match features
    case None => Success(None)
    case Some(v) => Success(Some(predict(v)))
  }

  /** A GET or HEAD reads no field and consults no model. */
  lemma NonPostIgnoresFormAndModel(verb: Method, form: Form, form': Form, parse: Parser, parse': Parser, predict: Model, predict': Model)
    requires verb != POST
    ensures Home(verb, form, parse, predict) == Home(verb, form', parse', predict') == Success(None)
  {
  }

  /** A POST fails exactly when a field is missing or a numeric field does not parse. */
  lemma PostFailsIff(form: Form, parse: Parser, predict: Model)
    ensures Home(POST, form, parse, predict).Failure? <==>
      (exists k :: k in Fields && k !in form) || (exists k :: k in NumericFields && k in form && parse(form[k]).None?)
  {
  }

  /** A form without an age fails with the age reported missing, whatever else it holds. */
  lemma MissingAgeFails(form: Form, parse: Parser, predict: Model)
    requires "age" !in form
    ensures Home(POST, form, parse, predict) == Failure(MissingField("age"))
  {
  }

  /** The worked example end to end, for any parser that reads the three numbers as written. */
  lemma ExampleRequest(parse: Parser, predict: Model)
    requires parse("30") == Some(30.0) && parse("25.0") == Some(25.0) && parse("2") == Some(2.0)
    ensures Features(POST, ExampleForm(), parse) == Success(Some([30.0, 1.0, 25.0, 2.0, 0.0, 0.0, 0.0, 1.0, 0.0]))
    ensures Home(POST, ExampleForm(), parse, predict) == Success(Some(predict([30.0, 1.0, 25.0, 2.0, 0.0, 0.0, 0.0, 1.0, 0.0])))
  {
  }

  function ExampleForm(): Form {
    map["age" := "30", "sex" := "male", "bmi" := "25.0", "children" := "2", "smoker" := "no", "region" := "southeast"]
  }
}
