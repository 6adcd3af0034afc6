/**
 * The assessment record the predict form submits and the prediction service receives:
 * eleven numeric fields, after the form's text inputs have been converted to numbers.
 * Every field is a `real` because a JavaScript number carries no integer type; whether
 * a value is integral is something the validators check.
 */
module Assessment {
  import Json

  datatype Field = Age | Gender | Height | Weight | ApHi | ApLo | Cholesterol | Gluc | Smoke | Alco | Active

  /** The fields in the order both schemas declare them. */
  const Fields: seq<Field> := [Age, Gender, Height, Weight, ApHi, ApLo, Cholesterol, Gluc, Smoke, Alco, Active]

  /** The JSON property name of each field (shared by the form and the service). */
  function Name(f: Field): string {
    match f
    case Age => "age"
    case Gender => "gender"
    case Height => "height"
    case Weight => "weight"
    case ApHi => "ap_hi"
    case ApLo => "ap_lo"
    case Cholesterol => "cholesterol"
    case Gluc => "gluc"
    case Smoke => "smoke"
    case Alco => "alco"
    case Active => "active"
  }

  datatype Record = Record(
    age: real, gender: real, height: real, weight: real,
    apHi: real, apLo: real,
    cholesterol: real, gluc: real,
    smoke: real, alco: real, active: real)

  function Get(r: Record, f: Field): real {
    match f
    case Age => r.age
    case Gender => r.gender
    case Height => r.height
    case Weight => r.weight
    case ApHi => r.apHi
    case ApLo => r.apLo
    case Cholesterol => r.cholesterol
    case Gluc => r.gluc
    case Smoke => r.smoke
    case Alco => r.alco
    case Active => r.active
  }

  predicate IsInteger(x: real) {
    x.Floor as real == x
  }

  /** The body `JSON.stringify(values)` sends: one number per field, under its name. */
  function Encode(r: Record): (j: Json.Value)
    ensures j.Object?
    ensures forall f: Field :: Name(f) in j.fields && j.fields[Name(f)] == Json.Number(Get(r, f))
  {
    Json.Object(map[
      "age" := Json.Number(r.age), "gender" := Json.Number(r.gender),
      "height" := Json.Number(r.height), "weight" := Json.Number(r.weight),
      "ap_hi" := Json.Number(r.apHi), "ap_lo" := Json.Number(r.apLo),
      "cholesterol" := Json.Number(r.cholesterol), "gluc" := Json.Number(r.gluc),
      "smoke" := Json.Number(r.smoke), "alco" := Json.Number(r.alco),
      "active" := Json.Number(r.active)])
  }
}
