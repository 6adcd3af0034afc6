/**
 * The predict form's validation schema: a zod object with one rule per field and
 * one refinement across two fields. The schema is written as the table it is in the
 * form (Shape), zod's behaviour as functions that run the table, and the intended
 * meaning as a separate predicate (Accepted); the lemmas show the two agree.
 *
 * zod runs every check of every field and collects one issue per failing check;
 * range checks leave the object "dirty" but not aborted, so the refinement runs as
 * well, even when a field is out of range. Input is taken after `z.coerce.number()`,
 * so every field already holds a number.
 */
module FormSchema {
  import opened Common
  import opened Assessment

  /** `.min(b, m)` (inclusive), `.max(b, m)` (inclusive) and `.int()`. */
  datatype Check = Min(bound: real, message: string) | Max(bound: real, message: string) | Int

  datatype FieldRule = FieldRule(field: Field, checks: seq<Check>)

  /** A validation issue: the field it is attached to and its message. */
  datatype Issue = Issue(path: Field, message: string)

  /** zod's own message for a failed `.int()` check. */
  const IntMessage: string := "Expected integer, received float"

  const RefineMessage: string := "Systolic BP must be higher than Diastolic BP"

  const Shape: seq<FieldRule> := [
    FieldRule(Age, [Min(20.0, "Age must be at least 20"), Max(80.0, "Age must be under 80")]),
    FieldRule(Gender, [Int]),
    FieldRule(Height, [Min(50.0, "Height must be realistic (min 50cm)"), Max(250.0, "Height at most 250cm")]),
    FieldRule(Weight, [Min(10.0, "Weight must be realistic"), Max(250.0, "Weight at most 250kg")]),
    FieldRule(ApHi, [Min(50.0, "Systolic BP too low"), Max(250.0, "Systolic BP too high (max 250)")]),
    FieldRule(ApLo, [Min(30.0, "Diastolic BP too low"), Max(150.0, "Diastolic BP too high (max 150)")]),
    FieldRule(Cholesterol, [Int]),
    FieldRule(Gluc, [Int]),
    FieldRule(Smoke, [Int]),
    FieldRule(Alco, [Int]),
    FieldRule(Active, [Int])
  ]

  predicate Passes(c: Check, x: real) {
    match c
    case Min(b, _) => x >= b
    case Max(b, _) => x <= b
    case Int => IsInteger(x)
  }

  function MessageOf(c: Check): string {
    match c
    case Min(_, m) => m
    case Max(_, m) => m
    case Int => IntMessage
  }

  predicate AllPass(checks: seq<Check>, x: real) {
    forall c :: c in checks ==> Passes(c, x)
  }

  /** The fields the issues are attached to. */
  function Paths(issues: seq<Issue>): (paths: set<Field>)
    ensures paths == {} <==> issues == []
  {
    if issues == [] then {} else {issues[0].path} + Paths(issues[1..])
  }

  /** The issues one field's checks raise, in check order. */
  function CheckIssues(f: Field, checks: seq<Check>, x: real): (issues: seq<Issue>)
    ensures Paths(issues) == if AllPass(checks, x) then {} else {f}
    ensures issues == [] <==> AllPass(checks, x)
  {
    if checks == [] then []
    else
      assert forall c :: c in checks ==> c == checks[0] || c in checks[1..];
      var rest := CheckIssues(f, checks[1..], x);
      var own := if Passes(checks[0], x) then [] else [Issue(f, MessageOf(checks[0]))];
      PathsConcat(own, rest);
      own + rest
  }

  /** The fields whose row fails. */
  function FailingFields(rules: seq<FieldRule>, r: Record): set<Field> {
    if rules == [] then {}
    else
      (if AllPass(rules[0].checks, Get(r, rules[0].field)) then {} else {rules[0].field})
      + FailingFields(rules[1..], r)
  }

  lemma {:induction false} PathsConcat(a: seq<Issue>, b: seq<Issue>)
    ensures Paths(a + b) == Paths(a) + Paths(b)
  {
    if a == [] {
      assert a + b == b;
    } else {
      assert (a + b)[0] == a[0];
      assert (a + b)[1..] == a[1..] + b;
      PathsConcat(a[1..], b);
    }
  }

  /** The issues of all field rules, field by field in declaration order; they are attached
      to exactly the fields whose row fails. */
  function ShapeIssues(rules: seq<FieldRule>, r: Record): (issues: seq<Issue>)
    ensures Paths(issues) == FailingFields(rules, r)
  {
    if rules == [] then []
    else
      var head := CheckIssues(rules[0].field, rules[0].checks, Get(r, rules[0].field));
      var rest := ShapeIssues(rules[1..], r);
      PathsConcat(head, rest);
      head + rest
  }

  /** `.refine((data) => data.ap_hi > data.ap_lo, { path: ["ap_lo"] })`. */
  function RefineIssues(r: Record): (issues: seq<Issue>)
    ensures Paths(issues) == if r.apHi > r.apLo then {} else {ApLo}
    ensures forall i :: 0 <= i < |issues| ==> issues[i] == Issue(ApLo, RefineMessage)
  {
    if r.apHi > r.apLo then [] else [Issue(ApLo, RefineMessage)]
  }

  /** All issues of the schema: the field rules' issues, then the refinement's. */
  function Issues(r: Record): (issues: seq<Issue>)
    ensures Paths(issues) == FailingFields(Shape, r) + (if r.apHi > r.apLo then {} else {ApLo})
  {
    PathsConcat(ShapeIssues(Shape, r), RefineIssues(r));
    ShapeIssues(Shape, r) + RefineIssues(r)
  }

  /** `formSchema.safeParse(values)`: the record itself when there is no issue. */
  function Parse(r: Record): (res: Result<Record, seq<Issue>>)
    ensures res.Ok? ==> res.value == r
    ensures res.Err? ==> res.error != []
    ensures r.apHi <= r.apLo ==> res.Err? && Issue(ApLo, RefineMessage) in res.error
  {
    var issues := Issues(r);
    if issues == [] then Ok(r) else Err(issues)
  }

  // ---------------------------------------------------------------------------
  // What the schema means, stated independently of the table.

  /** The form's per-field rule: inclusive bounds on the measurements, integrality
      (and nothing more) on the coded answers. */
  predicate FieldAccepts(f: Field, x: real) {
    match f
    case Age => 20.0 <= x <= 80.0
    case Height => 50.0 <= x <= 250.0
    case Weight => 10.0 <= x <= 250.0
    case ApHi => 50.0 <= x <= 250.0
    case ApLo => 30.0 <= x <= 150.0
    case Gender => IsInteger(x)
    case Cholesterol => IsInteger(x)
    case Gluc => IsInteger(x)
    case Smoke => IsInteger(x)
    case Alco => IsInteger(x)
    case Active => IsInteger(x)
  }

  /** Every record the form lets through, field by field. */
  predicate Accepted(r: Record) {
    && 20.0 <= r.age <= 80.0
    && IsInteger(r.gender)
    && 50.0 <= r.height <= 250.0
    && 10.0 <= r.weight <= 250.0
    && 50.0 <= r.apHi <= 250.0
    && 30.0 <= r.apLo <= 150.0
    && IsInteger(r.cholesterol) && IsInteger(r.gluc)
    && IsInteger(r.smoke) && IsInteger(r.alco) && IsInteger(r.active)
    && r.apHi > r.apLo
  }

  lemma {:induction false} FailingFieldsAt(rules: seq<FieldRule>, r: Record, f: Field)
    ensures f in FailingFields(rules, r)
        <==> exists k :: 0 <= k < |rules| && rules[k].field == f && !AllPass(rules[k].checks, Get(r, f))
  {
    if rules != [] {
      FailingFieldsAt(rules[1..], r, f);
      if f in FailingFields(rules[1..], r) {
        var k :| 0 <= k < |rules[1..]| && rules[1..][k].field == f && !AllPass(rules[1..][k].checks, Get(r, f));
        assert rules[k + 1] == rules[1..][k];
      }
      if exists k :: 0 <= k < |rules| && rules[k].field == f && !AllPass(rules[k].checks, Get(r, f)) {
        var k :| 0 <= k < |rules| && rules[k].field == f && !AllPass(rules[k].checks, Get(r, f));
        if k > 0 {
          assert rules[1..][k - 1] == rules[k];
        }
      }
    }
  }

  lemma PairPasses(a: Check, b: Check, x: real)
    ensures AllPass([a, b], x) <==> Passes(a, x) && Passes(b, x)
  {
    assert a in [a, b] && b in [a, b];
  }

  lemma SinglePasses(a: Check, x: real)
    ensures AllPass([a], x) <==> Passes(a, x)
  {
    assert a in [a];
  }

  /** Each row of the table passes exactly when the reference rule of its field holds. */
  lemma RowMeansFieldAccepts(k: nat, x: real)
    requires k < |Shape|
    ensures AllPass(Shape[k].checks, x) <==> FieldAccepts(Shape[k].field, x)
  {
    var row := Shape[k];
    if |row.checks| == 1 {
      SinglePasses(row.checks[0], x);
    } else {
      PairPasses(row.checks[0], row.checks[1], x);
    }
  }

  function RowIndex(f: Field): (k: nat)
    ensures k < |Shape| && Shape[k].field == f
  {
    match f
    case Age => 0 case Gender => 1 case Height => 2 case Weight => 3 case ApHi => 4
    case ApLo => 5 case Cholesterol => 6 case Gluc => 7 case Smoke => 8 case Alco => 9
    case Active => 10
  }

  /** The table's rows fail for exactly the fields whose reference rule fails. */
  lemma ShapeFailingFields(r: Record, f: Field)
    ensures f in FailingFields(Shape, r) <==> !FieldAccepts(f, Get(r, f))
  {
    FailingFieldsAt(Shape, r, f);
    if f in FailingFields(Shape, r) {
      var k :| 0 <= k < |Shape| && Shape[k].field == f && !AllPass(Shape[k].checks, Get(r, f));
      RowMeansFieldAccepts(k, Get(r, f));
    }
    if !FieldAccepts(f, Get(r, f)) {
      RowMeansFieldAccepts(RowIndex(f), Get(r, f));
    }
  }

  /** An issue is attached to field f exactly when f's own rule fails, or, for ap_lo only,
      when the systolic pressure is not above the diastolic one, whatever the other fields hold. */
  lemma IssueAtIff(r: Record, f: Field)
    ensures f in Paths(Issues(r)) <==> !FieldAccepts(f, Get(r, f)) || (f == ApLo && r.apHi <= r.apLo)
  {
    PathsConcat(ShapeIssues(Shape, r), RefineIssues(r));
    ShapeFailingFields(r, f);
  }

  /** Accepted, field by field. */
  lemma AcceptedByField(r: Record)
    ensures Accepted(r) <==> (forall f: Field :: FieldAccepts(f, Get(r, f))) && r.apHi > r.apLo
  {
    if (forall f: Field :: FieldAccepts(f, Get(r, f))) && r.apHi > r.apLo {
      assert FieldAccepts(Age, Get(r, Age)) && FieldAccepts(Gender, Get(r, Gender));
      assert FieldAccepts(Height, Get(r, Height)) && FieldAccepts(Weight, Get(r, Weight));
      assert FieldAccepts(ApHi, Get(r, ApHi)) && FieldAccepts(ApLo, Get(r, ApLo));
      assert FieldAccepts(Cholesterol, Get(r, Cholesterol)) && FieldAccepts(Gluc, Get(r, Gluc));
      assert FieldAccepts(Smoke, Get(r, Smoke)) && FieldAccepts(Alco, Get(r, Alco));
      assert FieldAccepts(Active, Get(r, Active));
    }
  }

  /** The schema accepts a record exactly when Accepted holds, and then passes it on unchanged. */
  lemma ParseAcceptsExactly(r: Record)
    ensures Parse(r).Ok? <==> Accepted(r)
    ensures Parse(r).Ok? ==> Parse(r).value == r
  {
    AcceptedByField(r);
    var paths := Paths(Issues(r));
    if paths == {} {
      forall f: Field ensures FieldAccepts(f, Get(r, f)) {
        IssueAtIff(r, f);
      }
      IssueAtIff(r, ApLo);
    } else {
      var f :| f in paths;
      IssueAtIff(r, f);
    }
  }
}
