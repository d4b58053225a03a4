/**
 * The patient record that the intake form collects, and the single-field
 * updater that every form control calls when its value changes.
 */
module Patient {

  /** The thirteen clinical fields of the form, as the scorer reads them. */
  datatype PatientRecord = PatientRecord(
    age: int,
    anaemia: bool,
    creatininePhosphokinase: real,
    diabetes: bool,
    ejectionFraction: int,
    highBloodPressure: bool,
    platelets: int,
    serumCreatinine: real,
    serumSodium: int,
    sex: bool,          // true means male
    smoking: bool,
    time: int,          // follow-up period in days
    deathEvent: bool
  )

  /** The record's keys, one per form control. */
  datatype Field =
    | Age | Anaemia | CreatininePhosphokinase | Diabetes | EjectionFraction
    | HighBloodPressure | Platelets | SerumCreatinine | SerumSodium | Sex
    | Smoking | Time | DeathEvent

  /** The record's property name for a field, as written in the form state. */
  function FieldName(f: Field): string {
    match f
    case Age => "age"
    case Anaemia => "anaemia"
    case CreatininePhosphokinase => "creatinine_phosphokinase"
    case Diabetes => "diabetes"
    case EjectionFraction => "ejection_fraction"
    case HighBloodPressure => "high_blood_pressure"
    case Platelets => "platelets"
    case SerumCreatinine => "serum_creatinine"
    case SerumSodium => "serum_sodium"
    case Sex => "sex"
    case Smoking => "smoking"
    case Time => "time"
    case DeathEvent => "death_event"
  }

  /** A value a form control hands over: an integer, a decimal or a checkbox state. */
  datatype Value = IntValue(i: int) | RealValue(x: real) | BoolValue(b: bool)

  /** The kind of value each field holds. */
  predicate Fits(f: Field, v: Value) {
    match f
    case Age | EjectionFraction | Platelets | SerumSodium | Time => v.IntValue?
    case CreatininePhosphokinase | SerumCreatinine => v.RealValue?
    case Anaemia | Diabetes | HighBloodPressure | Sex | Smoking | DeathEvent => v.BoolValue?
  }

  /** Reads one field of the record, `record[field]`. */
  function Get(p: PatientRecord, f: Field): (v: Value)
    ensures Fits(f, v)
  {
    match f
    case Age => IntValue(p.age)
    case Anaemia => BoolValue(p.anaemia)
    case CreatininePhosphokinase => RealValue(p.creatininePhosphokinase)
    case Diabetes => BoolValue(p.diabetes)
    case EjectionFraction => IntValue(p.ejectionFraction)
    case HighBloodPressure => BoolValue(p.highBloodPressure)
    case Platelets => IntValue(p.platelets)
    case SerumCreatinine => RealValue(p.serumCreatinine)
    case SerumSodium => IntValue(p.serumSodium)
    case Sex => BoolValue(p.sex)
    case Smoking => BoolValue(p.smoking)
    case Time => IntValue(p.time)
    case DeathEvent => BoolValue(p.deathEvent)
  }

  /** The form's initial state, before the user edits anything. */
  const InitialForm: PatientRecord :=
    PatientRecord(65, false, 582.0, false, 38, false, 265000, 1.9, 136, true, false, 4, false)

  /**
   * `{ ...prev, [field]: value }`: a copy of the previous record in which
   * the named field holds the new value and every other field is kept.
   */
  function HandleInputChange(prev: PatientRecord, field: Field, value: Value): (next: PatientRecord)
    requires Fits(field, value)
    ensures Get(next, field) == value
  {
    PatientRecord(
      if field == Age then value.i else prev.age,
      if field == Anaemia then value.b else prev.anaemia,
      if field == CreatininePhosphokinase then value.x else prev.creatininePhosphokinase,
      if field == Diabetes then value.b else prev.diabetes,
      if field == EjectionFraction then value.i else prev.ejectionFraction,
      if field == HighBloodPressure then value.b else prev.highBloodPressure,
      if field == Platelets then value.i else prev.platelets,
      if field == SerumCreatinine then value.x else prev.serumCreatinine,
      if field == SerumSodium then value.i else prev.serumSodium,
      if field == Sex then value.b else prev.sex,
      if field == Smoking then value.b else prev.smoking,
      if field == Time then value.i else prev.time,
      if field == DeathEvent then value.b else prev.deathEvent)
  }

  /** The update leaves every field other than the named one as it was. */
  lemma OtherFieldsUnchanged(prev: PatientRecord, field: Field, value: Value, g: Field)
    requires Fits(field, value) && g != field
    ensures Get(HandleInputChange(prev, field, value), g) == Get(prev, g)
  {
    match g
    case Age =>
    case Anaemia =>
    case CreatininePhosphokinase =>
    case Diabetes =>
    case EjectionFraction =>
    case HighBloodPressure =>
    case Platelets =>
    case SerumCreatinine =>
    case SerumSodium =>
    case Sex =>
    case Smoking =>
    case Time =>
    case DeathEvent =>
  }

  /** A record is determined by what its thirteen fields read. */
  lemma FieldsDetermineRecord(p: PatientRecord, q: PatientRecord)
    requires forall f :: Get(p, f) == Get(q, f)
    ensures p == q
  {
    assert Get(p, Age) == Get(q, Age);
    assert Get(p, Anaemia) == Get(q, Anaemia);
    assert Get(p, CreatininePhosphokinase) == Get(q, CreatininePhosphokinase);
    assert Get(p, Diabetes) == Get(q, Diabetes);
    assert Get(p, EjectionFraction) == Get(q, EjectionFraction);
    assert Get(p, HighBloodPressure) == Get(q, HighBloodPressure);
    assert Get(p, Platelets) == Get(q, Platelets);
    assert Get(p, SerumCreatinine) == Get(q, SerumCreatinine);
    assert Get(p, SerumSodium) == Get(q, SerumSodium);
    assert Get(p, Sex) == Get(q, Sex);
    assert Get(p, Smoking) == Get(q, Smoking);
    assert Get(p, Time) == Get(q, Time);
    assert Get(p, DeathEvent) == Get(q, DeathEvent);
  }

  /** Writing back the value a field already holds leaves the record as it was. */
  lemma UnchangedValueIsNoOp(p: PatientRecord, f: Field)
    ensures HandleInputChange(p, f, Get(p, f)) == p
  {
    forall g | g != f ensures Get(HandleInputChange(p, f, Get(p, f)), g) == Get(p, g) {
      OtherFieldsUnchanged(p, f, Get(p, f), g);
    }
    FieldsDetermineRecord(HandleInputChange(p, f, Get(p, f)), p);
  }

  /** A second change to the same field overwrites the first. */
  lemma LaterChangeWins(p: PatientRecord, f: Field, v: Value, w: Value)
    requires Fits(f, v) && Fits(f, w)
    ensures HandleInputChange(HandleInputChange(p, f, v), f, w) == HandleInputChange(p, f, w)
  {
    forall g | g != f
      ensures Get(HandleInputChange(HandleInputChange(p, f, v), f, w), g) == Get(HandleInputChange(p, f, w), g)
    {
      OtherFieldsUnchanged(HandleInputChange(p, f, v), f, w, g);
      OtherFieldsUnchanged(p, f, v, g);
      OtherFieldsUnchanged(p, f, w, g);
    }
    FieldsDetermineRecord(HandleInputChange(HandleInputChange(p, f, v), f, w), HandleInputChange(p, f, w));
  }

  /** Changes to two different fields can be applied in either order. */
  lemma ChangesCommute(p: PatientRecord, f: Field, v: Value, g: Field, w: Value)
    requires f != g && Fits(f, v) && Fits(g, w)
    ensures HandleInputChange(HandleInputChange(p, f, v), g, w)
         == HandleInputChange(HandleInputChange(p, g, w), f, v)
  {
    var fg := HandleInputChange(HandleInputChange(p, f, v), g, w);
    var gf := HandleInputChange(HandleInputChange(p, g, w), f, v);
    forall h ensures Get(fg, h) == Get(gf, h) {
      if h == f {
        OtherFieldsUnchanged(HandleInputChange(p, f, v), g, w, h);
      } else if h == g {
        OtherFieldsUnchanged(HandleInputChange(p, g, w), f, v, h);
      } else {
        OtherFieldsUnchanged(HandleInputChange(p, f, v), g, w, h);
        OtherFieldsUnchanged(p, f, v, h);
        OtherFieldsUnchanged(HandleInputChange(p, g, w), f, v, h);
        OtherFieldsUnchanged(p, g, w, h);
      }
    }
    FieldsDetermineRecord(fg, gf);
  }
}
