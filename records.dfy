/**
 * The four resource kinds as the frontend sees them. Every field the server may
 * omit is optional; numbers are integers or the non-finite value `Number(...)`
 * yields for input that is not a number.
 */
module Records {
  import opened Wrappers
  import opened Text

  datatype Num = Finite(value: int) | NotFinite

  /**
   * `String(n)`: the decimal rendering of a finite number. Every non-finite
   * number is rendered "NaN"; the model does not tell NaN from ±Infinity.
   */
  function NumToString(n: Num): string {
    match n
    case Finite(v) => IntToString(v)
    case NotFinite => "NaN"
  }

  datatype Patient = Patient(id: Option<string>, name: Option<string>, age: Option<Num>,
                             medicalHistory: Option<string>)

  datatype Staff = Staff(id: Option<string>, name: Option<string>, role: Option<string>,
                         specialization: Option<string>)

  datatype Medicine = Medicine(id: Option<string>, name: Option<string>, quantity: Option<Num>)

  datatype Treatment = Treatment(id: Option<string>, patientId: Option<string>,
                                 staffId: Option<string>, medicineId: Option<string>,
                                 date: Option<string>, notes: Option<string>,
                                 description: Option<string>)

  function PatientId(p: Patient): Option<string> { p.id }
  function StaffId(s: Staff): Option<string> { s.id }
  function MedicineId(m: Medicine): Option<string> { m.id }
  function TreatmentId(t: Treatment): Option<string> { t.id }
  function PatientName(p: Patient): Option<string> { p.name }
  function StaffName(s: Staff): Option<string> { s.name }
  function MedicineName(m: Medicine): Option<string> { m.name }
}
