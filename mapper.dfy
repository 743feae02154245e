/** `get_mapped_output` (mapping_collectedinfo_to_schema.py:110-210): the intake
    document becomes a list of at most two table operations, a `patients` row and
    a batch of `symptoms` records.  As `get_mapped_output` does, the caller's `patient_data`
    dict is normalised in place; the method returns the caller's document as it
    stands afterwards. */
module Mapper {
  import opened Results
  import opened Text
  import opened Calendar
  import opened Json
  import opened Dates

  /** The patient columns, in the order of the dict literal at line 131. */
  const PatientKeys: seq<string> := ["full_name", "email", "phone", "DOB", "gender", "address"]

  const NotSpecified: Value := VStr("not specified")

  // ------------------------------------------- normalising patient_data

  /** Lines 116-117: a truthy `DOB` is replaced by its normalised form. */
  function NormaliseDob(pd: Dict): Dict {
    match Lookup(pd, "DOB")
    case Some(dob) => if Truthy(dob) then Assign(pd, "DOB", ParseDate(dob)) else pd
    case None => pd
  }

  /** Lines 124-125 on one element of `previous_surgeries`. */
  function NormaliseSurgery(s: Value): Value {
    if !s.VDict? then s
    else match Lookup(s.entries, "surgery_date")
      case Some(x) => VDict(Assign(s.entries, "surgery_date", ParseDate(x)))
      case None => s
  }

  function NormaliseSurgeryList(xs: seq<Value>): (r: seq<Value>)
    ensures |r| == |xs| && forall i :: 0 <= i < |xs| ==> r[i] == NormaliseSurgery(xs[i])
  {
    seq(|xs|, i requires 0 <= i < |xs| => NormaliseSurgery(xs[i]))
  }

  /** Lines 120-125.  `get_mapped_output` updates each surgery dict inside the list it
      finds; writing the updated list back under its own key is the same change. */
  function NormaliseSurgeries(pd: Dict): Dict {
    match Lookup(pd, "previous_surgeries")
    case Some(VList(xs)) => Assign(pd, "previous_surgeries", VList(NormaliseSurgeryList(xs)))
    case _ => pd
  }

  /** `patient_data` as lines 116-125 leave it. */
  function NormaliseDict(pd: Dict): Dict {
    NormaliseSurgeries(NormaliseDob(pd))
  }

  /** What lines 116-132 raise when `patient_data` is not a dict: the first
      `in` test on a non-container, a string subscript of a str or list that
      contains the key, or else the `.get` at line 132. */
  function NonDictPatientError(pd: Value): PyError
    requires !pd.VDict?
  {
    match In("DOB", pd)
    case Err(e) => e
    case Ok(hasDob) =>
      if hasDob then RaisedBy(Subscript(pd, "DOB"))
      else if In("previous_surgeries", pd) == Ok(true) then RaisedBy(Subscript(pd, "previous_surgeries"))
      else RaisedBy(GetMethod(pd, "full_name", VStr("")))
  }

  /** The exception of a step on a non-dict, which always raises. */
  function RaisedBy(r: Result<Value, PyError>): PyError {
    match r
    case Err(e) => e
    case Ok(_) => TypeError("")
  }

  /** The caller's document after the call: when `patient_data` is a dict that
      the document holds, it has been normalised in place; otherwise nothing
      changed (a missing `patient_data` is replaced by a fresh `{}`). */
  function NormalisedInput(input: Value): Value {
    if !input.VDict? then input
    else match Lookup(input.entries, "patient_data")
      case Some(VDict(pd)) => VDict(Assign(input.entries, "patient_data", VDict(NormaliseDict(pd))))
      case _ => input
  }

  // ------------------------------------------------------ the operations

  function PatientsOp(columns: Dict): Value {
    VDict([Entry("table", VStr("patients")), Entry("columns", VDict(columns))])
  }

  function SymptomsOp(records: seq<Value>): Value {
    VDict([Entry("table", VStr("symptoms")), Entry("records", VList(records))])
  }

  /** Lines 131-140: `{k: pd.get(k, "")}` for the listed keys, keeping truthy values. */
  function TruthyColumns(pd: Dict, keys: seq<string>): Dict {
    if keys == [] then []
    else
      var v := GetOr(pd, keys[0], VStr(""));
      (if Truthy(v) then [Entry(keys[0], v)] else []) + TruthyColumns(pd, keys[1..])
  }

  function Record(description: Value, severity: Value, duration: Value): Value {
    VDict([Entry("symptom_description", description), Entry("severity", severity), Entry("duration", duration)])
  }

  /** Lines 154-165: the record for one element of `current_symptoms`. */
  function SymptomRecord(x: Value): Value {
    if x.VDict? then
      Record(GetOr(x.entries, "description", NotSpecified),
             GetOr(x.entries, "severity", NotSpecified),
             GetOr(x.entries, "duration", NotSpecified))
    else Record(VStr(Str(x)), NotSpecified, NotSpecified)
  }

  function SymptomRecordList(xs: seq<Value>): (r: seq<Value>)
    ensures |r| == |xs| && forall i :: 0 <= i < |xs| ==> r[i] == SymptomRecord(xs[i])
  {
    seq(|xs|, i requires 0 <= i < |xs| => SymptomRecord(xs[i]))
  }

  /** Lines 151-165: a non-list `current_symptoms` contributes nothing. */
  function CurrentSymptomRecords(pd: Dict): seq<Value> {
    match GetOr(pd, "current_symptoms", VList([]))
    case VList(xs) => SymptomRecordList(xs)
    case _ => []
  }

  function SpecialistLines(xs: seq<Value>): (r: seq<string>)
    ensures |r| == |xs| && forall i :: 0 <= i < |xs| ==> r[i] == "- " + Str(xs[i])
  {
    seq(|xs|, i requires 0 <= i < |xs| => "- " + Str(xs[i]))
  }

  /** Lines 173-179: the notes list; iterating a truthy non-iterable raises. */
  function SpecialistNotes(specialists: Value, rationale: Value): Result<seq<string>, PyError> {
    var head :- if Truthy(specialists) then SpecialistHead(specialists) else Ok([]);
    Ok(head + if Truthy(rationale) then ["\nRationale: " + Str(rationale)] else [])
  }

  function SpecialistHead(specialists: Value): Result<seq<string>, PyError> {
    var xs :- Iterate(specialists);
    Ok(["Recommended Specialists:"] + SpecialistLines(xs))
  }

  /** Lines 168-184. */
  function RecommendationRecords(input: Dict): Result<seq<Value>, PyError> {
    match Lookup(input, "specialist_recommendations")
    case None => Ok([])
    case Some(recs) =>
      var specialists :- GetMethod(recs, "specialists", VList([]));
      var rationale :- GetMethod(recs, "rationale", VStr(""));
      if Truthy(specialists) || Truthy(rationale) then
        var notes :- SpecialistNotes(specialists, rationale);
        Ok([Record(VStr(Join(notes, "\n")), VStr("info"), VStr("N/A"))])
      else Ok([])
  }

  /** Lines 187-200. */
  function AppointmentRecords(pd: Dict): Result<seq<Value>, PyError> {
    match Lookup(pd, "appointment")
    case None => Ok([])
    case Some(appt) =>
      var specialist :- GetMethod(appt, "specialist", VStr(""));
      var date :- GetMethod(appt, "date", VStr(""));
      var time :- GetMethod(appt, "time", VStr(""));
      var status :- GetMethod(appt, "status", VStr("scheduled"));
      var lines := ["Appointment Details:", "- Specialist: " + Str(specialist), "- Date: " + Str(date),
                    "- Time: " + Str(time), "- Status: " + Str(status)];
      Ok([Record(VStr(Join(lines, "\n")), VStr("info"), VStr("N/A"))])
  }

  /** Lines 128-208 once `patient_data` has been normalised to `pd`. */
  function Operations(input: Dict, pd: Dict): Result<seq<Value>, PyError> {
    var columns := TruthyColumns(pd, PatientKeys);
    var fromRecommendations :- RecommendationRecords(input);
    var fromAppointment :- AppointmentRecords(pd);
    var records := CurrentSymptomRecords(pd) + fromRecommendations + fromAppointment;
    Ok(OperationList(columns, records))
  }

  /** Lines 205-208: an operation for each non-empty part, `patients` first. */
  function OperationList(columns: Dict, records: seq<Value>): seq<Value> {
    (if columns != [] then [PatientsOp(columns)] else []) +
    (if records != [] then [SymptomsOp(records)] else [])
  }

  /** Lines 110-208 before the exception is rewrapped. */
  function Mapping(input: Value): Result<seq<Value>, PyError> {
    if !input.VDict? then Err(RaisedBy(GetMethod(input, "patient_data", VDict([]))))
    else
      var pd := GetOr(input.entries, "patient_data", VDict([]));
      if !pd.VDict? then Err(NonDictPatientError(pd))
      else Operations(input.entries, NormaliseDict(pd.entries))
  }

  /** Line 210: every exception comes out as `Error mapping data: <str(e)>`. */
  function MappingError(e: PyError): string {
    "Error mapping data: " + e.msg
  }

  function MappedOutput(input: Value): Result<seq<Value>, string> {
    match Mapping(input)
    case Ok(ops) => Ok(ops)
    case Err(e) => Err(MappingError(e))
  }

  // ---------------------------------------------------------- the methods

  /** The loop at lines 123-125, updating the surgery dicts one by one. */
  method NormaliseSurgeriesLoop(surgeries: seq<Value>) returns (s: seq<Value>)
    ensures s == NormaliseSurgeryList(surgeries)
  {
    s := surgeries;
    var i := 0;
    while i < |s|
      invariant 0 <= i <= |s| == |surgeries|
      invariant forall j :: 0 <= j < i ==> s[j] == NormaliseSurgery(surgeries[j])
      invariant forall j :: i <= j < |s| ==> s[j] == surgeries[j]
    {
      if s[i].VDict? && HasKey(s[i].entries, "surgery_date") {
        s := s[i := VDict(Assign(s[i].entries, "surgery_date", ParseDate(Lookup(s[i].entries, "surgery_date").value)))];
      }
      i := i + 1;
    }
  }

  /** Lines 116-125 on a dict `patient_data`. */
  method NormalisePatientData(patientData: Dict) returns (pd: Dict)
    ensures pd == NormaliseDict(patientData)
  {
    pd := patientData;
    match Lookup(pd, "DOB") {
      case Some(dob) =>
        if Truthy(dob) {
          pd := Assign(pd, "DOB", ParseDate(dob));
        }
      case None =>
    }
    match Lookup(pd, "previous_surgeries") {
      case Some(VList(surgeries)) =>
        var s := NormaliseSurgeriesLoop(surgeries);
        pd := Assign(pd, "previous_surgeries", VList(s));
      case _ =>
    }
  }

  /** The loop at lines 153-165. */
  method CollectSymptomRecords(xs: seq<Value>) returns (records: seq<Value>)
    ensures records == SymptomRecordList(xs)
  {
    records := [];
    for i := 0 to |xs|
      invariant |records| == i && forall j :: 0 <= j < i ==> records[j] == SymptomRecord(xs[j])
    {
      records := records + [SymptomRecord(xs[i])];
    }
  }

  /** Lines 173-176: the heading, then one line per specialist. */
  method SpecialistBlock(xs: seq<Value>) returns (notes: seq<string>)
    ensures notes == ["Recommended Specialists:"] + SpecialistLines(xs)
  {
    notes := ["Recommended Specialists:"];
    for i := 0 to |xs|
      invariant notes == ["Recommended Specialists:"] + SpecialistLines(xs[..i])
    {
      assert xs[..i + 1] == xs[..i] + [xs[i]];
      notes := notes + ["- " + Str(xs[i])];
    }
    assert xs[..|xs|] == xs;
  }

  /** Lines 173-179. */
  method BuildNotes(specialists: Value, rationale: Value) returns (r: Result<seq<string>, PyError>)
    ensures r == SpecialistNotes(specialists, rationale)
  {
    var notes: seq<string> := [];
    if Truthy(specialists) {
      var it := Iterate(specialists);
      if it.Err? {
        return Err(it.error);
      }
      notes := SpecialistBlock(it.value);
      assert SpecialistHead(specialists) == Ok(notes);
    }
    var head := notes;
    if Truthy(rationale) {
      notes := notes + ["\nRationale: " + Str(rationale)];
    }
    assert notes == head + if Truthy(rationale) then ["\nRationale: " + Str(rationale)] else [];
    r := Ok(notes);
  }

  /** Lines 168-184. */
  method CollectRecommendation(input: Dict) returns (r: Result<seq<Value>, PyError>)
    ensures r == RecommendationRecords(input)
  {
    r := Ok([]);
    match Lookup(input, "specialist_recommendations") {
      case Some(recs) =>
        if !recs.VDict? {
          return Err(RaisedBy(GetMethod(recs, "specialists", VList([]))));
        }
        var specialists := GetOr(recs.entries, "specialists", VList([]));
        var rationale := GetOr(recs.entries, "rationale", VStr(""));
        if Truthy(specialists) || Truthy(rationale) {
          var notes := BuildNotes(specialists, rationale);
          if notes.Err? {
            return Err(notes.error);
          }
          r := Ok([Record(VStr(Join(notes.value, "\n")), VStr("info"), VStr("N/A"))]);
        }
      case None =>
    }
  }

  /** Lines 128-208: the operations for the normalised `patient_data`. */
  method BuildOperations(input: Dict, pd: Dict) returns (r: Result<seq<Value>, PyError>)
    ensures r == Operations(input, pd)
  {
    var mapped: seq<Value> := [];
    var columns := TruthyColumns(pd, PatientKeys);
    if columns != [] {
      mapped := mapped + [PatientsOp(columns)];
    }
    var records: seq<Value> := [];
    var current := GetOr(pd, "current_symptoms", VList([]));
    if current.VList? {
      records := CollectSymptomRecords(current.items);
    }
    assert records == CurrentSymptomRecords(pd);
    var fromRecommendations := CollectRecommendation(input);
    if fromRecommendations.Err? {
      return Err(fromRecommendations.error);
    }
    records := records + fromRecommendations.value;
    var fromAppointment := AppointmentRecords(pd);
    if fromAppointment.Err? {
      return Err(fromAppointment.error);
    }
    records := records + fromAppointment.value;
    if records != [] {
      mapped := mapped + [SymptomsOp(records)];
    }
    r := Ok(mapped);
    assert records == CurrentSymptomRecords(pd) + fromRecommendations.value + fromAppointment.value;
    assert mapped == (if columns != [] then [PatientsOp(columns)] else []) + (if records != [] then [SymptomsOp(records)] else []);
  }

  /** `get_mapped_output(input_json)`. */
  method GetMappedOutput(input: Value) returns (r: Result<seq<Value>, string>, after: Value)
    ensures r == MappedOutput(input)
    ensures after == NormalisedInput(input)
  {
    after := input;
    if !input.VDict? {
      r := Err(MappingError(RaisedBy(GetMethod(input, "patient_data", VDict([])))));
      return;
    }
    var patientData := GetOr(input.entries, "patient_data", VDict([]));
    if !patientData.VDict? {
      r := Err(MappingError(NonDictPatientError(patientData)));
      return;
    }
    var pd := NormalisePatientData(patientData.entries);
    if HasKey(input.entries, "patient_data") {
      after := VDict(Assign(input.entries, "patient_data", VDict(pd)));
    }
    var ops := BuildOperations(input.entries, pd);
    match ops {
      case Ok(xs) => r := Ok(xs);
      case Err(e) => r := Err(MappingError(e));
    }
  }

  // ------------------------------------------------------------ lemmas

  /** `xs` is `ys` with some elements left out. */
  predicate IsSubsequence(xs: seq<string>, ys: seq<string>)
    decreases |ys|
  {
    if xs == [] then true
    else if ys == [] then false
    else (xs[0] == ys[0] && IsSubsequence(xs[1..], ys[1..])) || IsSubsequence(xs, ys[1..])
  }

  /** The patient columns are exactly the listed keys whose value is truthy,
      each with its value from `patient_data`, in the listed order. */
  lemma {:induction false} TruthyColumnsFacts(pd: Dict, keys: seq<string>)
    ensures var columns := TruthyColumns(pd, keys);
      && (forall i :: 0 <= i < |columns| ==>
            columns[i].key in keys && Truthy(columns[i].value) && columns[i].value == GetOr(pd, columns[i].key, VStr("")))
      && (forall k :: k in keys && Truthy(GetOr(pd, k, VStr(""))) ==> HasKey(columns, k))
      && IsSubsequence(Keys(columns), keys)
  {
    if keys != [] {
      var rest := TruthyColumns(pd, keys[1..]);
      TruthyColumnsFacts(pd, keys[1..]);
      var v := GetOr(pd, keys[0], VStr(""));
      if Truthy(v) {
        var columns := [Entry(keys[0], v)] + rest;
        assert columns[1..] == rest;
        assert Keys(columns) == [keys[0]] + Keys(rest);
        assert Keys(columns)[1..] == Keys(rest);
      } else {
        assert TruthyColumns(pd, keys) == rest;
      }
    }
  }

  predicate IsPatientsOp(op: Value) {
    && op.VDict? && |op.entries| == 2
    && op.entries[0] == Entry("table", VStr("patients"))
    && op.entries[1].key == "columns" && op.entries[1].value.VDict? && op.entries[1].value.entries != []
  }

  predicate IsSymptomsOp(op: Value) {
    && op.VDict? && |op.entries| == 2
    && op.entries[0] == Entry("table", VStr("symptoms"))
    && op.entries[1].key == "records" && op.entries[1].value.VList? && op.entries[1].value.items != []
  }

  /** At most two operations: a non-empty `patients` one, which comes first, and
      a non-empty `symptoms` one.  The `patients` operation is there exactly when
      some patient column is truthy, and it carries the truthy columns. */
  lemma OperationsShape(input: Dict, pd: Dict)
    requires Operations(input, pd).Ok?
    ensures var ops := Operations(input, pd).value;
      && |ops| <= 2
      && (forall i :: 0 <= i < |ops| ==> IsPatientsOp(ops[i]) || IsSymptomsOp(ops[i]))
      && (forall i :: 0 < i < |ops| ==> IsSymptomsOp(ops[i]))
      && ((|ops| > 0 && IsPatientsOp(ops[0])) <==> exists k :: k in PatientKeys && Truthy(GetOr(pd, k, VStr(""))))
      && (|ops| > 0 && IsPatientsOp(ops[0]) ==> ops[0].entries[1].value.entries == TruthyColumns(pd, PatientKeys))
  {
    var columns := TruthyColumns(pd, PatientKeys);
    var records := CurrentSymptomRecords(pd) + RecommendationRecords(input).value + AppointmentRecords(pd).value;
    assert Operations(input, pd).value == OperationList(columns, records);
    OperationListShape(columns, records);
    TruthyColumnsFacts(pd, PatientKeys);
    if columns != [] {
      assert columns[0].key in PatientKeys && Truthy(GetOr(pd, columns[0].key, VStr("")));
    }
  }

  lemma OperationListShape(columns: Dict, records: seq<Value>)
    ensures var ops := OperationList(columns, records);
      && |ops| <= 2
      && (forall i :: 0 <= i < |ops| ==> IsPatientsOp(ops[i]) || IsSymptomsOp(ops[i]))
      && (forall i :: 0 < i < |ops| ==> IsSymptomsOp(ops[i]))
      && ((|ops| > 0 && IsPatientsOp(ops[0])) <==> columns != [])
      && (|ops| > 0 && IsPatientsOp(ops[0]) ==> ops[0].entries[1].value.entries == columns)
  {
  }

  /** The `symptoms` operation is there exactly when there is at least one
      record, and it is always the last operation. */
  lemma SymptomsOperation(input: Dict, pd: Dict)
    requires Operations(input, pd).Ok?
    ensures var ops := Operations(input, pd).value;
      var records := CurrentSymptomRecords(pd) + RecommendationRecords(input).value + AppointmentRecords(pd).value;
      && ((|ops| > 0 && IsSymptomsOp(ops[|ops| - 1])) <==> records != [])
      && (|ops| > 0 && IsSymptomsOp(ops[|ops| - 1]) ==> ops[|ops| - 1].entries[1].value.items == records)
  {
  }

  /** One record per element of a list `current_symptoms`, none otherwise. */
  lemma CurrentSymptomsCount(pd: Dict)
    ensures |CurrentSymptomRecords(pd)| == match GetOr(pd, "current_symptoms", VList([])) case VList(xs) => |xs| case _ => 0
  {
  }

  /** An `appointment` entry adds exactly one `info` record. */
  lemma AppointmentRecord(pd: Dict)
    requires AppointmentRecords(pd).Ok?
    ensures var recs := AppointmentRecords(pd).value;
      && |recs| == (if HasKey(pd, "appointment") then 1 else 0)
      && (|recs| == 1 ==> InfoRecord(recs[0]))
  {
    if HasKey(pd, "appointment") {
      var recs := AppointmentRecords(pd).value;
      RecordLookups(recs[0].entries[0].value, VStr("info"), VStr("N/A"));
    }
  }

  /** A record of the `info` kind the recommendation and appointment add. */
  predicate InfoRecord(r: Value) {
    r.VDict? && Lookup(r.entries, "severity") == Some(VStr("info")) && Lookup(r.entries, "duration") == Some(VStr("N/A"))
  }

  lemma RecordLookups(description: Value, severity: Value, duration: Value)
    ensures var es := Record(description, severity, duration).entries;
      && Keys(es) == ["symptom_description", "severity", "duration"]
      && Lookup(es, "symptom_description") == Some(description)
      && Lookup(es, "severity") == Some(severity)
      && Lookup(es, "duration") == Some(duration)
  {
    var es := Record(description, severity, duration).entries;
    assert es[1..] == [Entry("severity", severity), Entry("duration", duration)];
    assert es[1..][1..] == [Entry("duration", duration)];
    assert Lookup(es[1..][1..], "duration") == Some(duration);
    assert Lookup(es[1..], "duration") == Some(duration);
  }

  /** Every record has exactly the keys `symptom_description`, `severity` and
      `duration`; a dict element fills them from `description`, `severity` and
      `duration` (default `"not specified"`), any other element becomes its
      `str()` with both other fields `"not specified"`. */
  lemma SymptomRecordFacts(x: Value)
    ensures var r := SymptomRecord(x);
      && r.VDict? && Keys(r.entries) == ["symptom_description", "severity", "duration"]
      && (x.VDict? ==> Lookup(r.entries, "symptom_description") == Some(GetOr(x.entries, "description", NotSpecified)))
      && (x.VDict? ==> Lookup(r.entries, "severity") == Some(GetOr(x.entries, "severity", NotSpecified)))
      && (x.VDict? ==> Lookup(r.entries, "duration") == Some(GetOr(x.entries, "duration", NotSpecified)))
      && (!x.VDict? ==> Lookup(r.entries, "symptom_description") == Some(VStr(Str(x))))
      && (!x.VDict? ==> Lookup(r.entries, "severity") == Some(NotSpecified) && Lookup(r.entries, "duration") == Some(NotSpecified))
  {
    if x.VDict? {
      RecordLookups(GetOr(x.entries, "description", NotSpecified), GetOr(x.entries, "severity", NotSpecified),
                    GetOr(x.entries, "duration", NotSpecified));
    } else {
      RecordLookups(VStr(Str(x)), NotSpecified, NotSpecified);
    }
  }

  /** A specialist recommendation adds exactly one `info` record when it has
      specialists or a rationale, and none otherwise. */
  lemma RecommendationRecord(input: Dict)
    requires RecommendationRecords(input).Ok?
    ensures var recs := RecommendationRecords(input).value;
      && (|recs| == 1 <==>
            exists r :: (Lookup(input, "specialist_recommendations") == Some(r) && r.VDict? &&
              (Truthy(GetOr(r.entries, "specialists", VList([]))) || Truthy(GetOr(r.entries, "rationale", VStr(""))))))
      && (|recs| == 1 ==> InfoRecord(recs[0]))
      && |recs| <= 1
  {
    var recs := RecommendationRecords(input).value;
    if |recs| == 1 {
      RecordLookups(recs[0].entries[0].value, VStr("info"), VStr("N/A"));
    }
  }

  // ------------------------------------------- normalisation is stable

  /** `parse_date` keeps a truthy value truthy. */
  lemma ParseDateTruthy(v: Value)
    requires Truthy(v)
    ensures Truthy(ParseDate(v))
  {
    var d := ParseDateResult(v);
    if d.Some? {
      IsoFormatShape(d.value);
    }
  }

  lemma NormaliseSurgeryIdempotent(x: Value)
    ensures NormaliseSurgery(NormaliseSurgery(x)) == NormaliseSurgery(x)
  {
    if x.VDict? {
      match Lookup(x.entries, "surgery_date") {
        case Some(v) =>
          var es := Assign(x.entries, "surgery_date", ParseDate(v));
          LookupAssign(x.entries, "surgery_date", ParseDate(v), "surgery_date");
          ParseDateIdempotent(v);
          AssignSame(es, "surgery_date", ParseDate(v));
        case None =>
      }
    }
  }

  /** Lines 116-125 change nothing the second time. */
  lemma NormaliseDictIdempotent(pd: Dict)
    ensures NormaliseDict(NormaliseDict(pd)) == NormaliseDict(pd)
  {
    var pd1 := NormaliseDob(pd);
    var pd2 := NormaliseSurgeries(pd1);
    match Lookup(pd, "DOB") {
      case Some(dob) =>
        if Truthy(dob) {
          LookupAssign(pd, "DOB", ParseDate(dob), "DOB");
          LookupAssign(pd, "DOB", ParseDate(dob), "previous_surgeries");
          ParseDateTruthy(dob);
          ParseDateIdempotent(dob);
        }
      case None =>
    }
    match Lookup(pd1, "previous_surgeries") {
      case Some(VList(xs)) =>
        var ys := NormaliseSurgeryList(xs);
        LookupAssign(pd1, "previous_surgeries", VList(ys), "DOB");
        LookupAssign(pd1, "previous_surgeries", VList(ys), "previous_surgeries");
        forall i | 0 <= i < |xs| {
          NormaliseSurgeryIdempotent(xs[i]);
        }
        assert NormaliseSurgeryList(ys) == ys;
      case _ =>
    }
    assert Lookup(pd2, "DOB") == Lookup(pd1, "DOB");
    match Lookup(pd2, "DOB") {
      case Some(dob) =>
        if Truthy(dob) {
          AssignSame(pd2, "DOB", dob);
        }
      case None =>
    }
    assert NormaliseDob(pd2) == pd2;
    match Lookup(pd2, "previous_surgeries") {
      case Some(VList(ys)) =>
        AssignSame(pd2, "previous_surgeries", VList(ys));
      case _ =>
    }
  }

  /** A truthy `DOB` reaches the `patients` columns normalised. */
  lemma DobColumn(pd: Dict, dob: Value)
    requires Lookup(pd, "DOB") == Some(dob) && Truthy(dob)
    ensures Lookup(NormaliseDict(pd), "DOB") == Some(ParseDate(dob))
    ensures Lookup(TruthyColumns(NormaliseDict(pd), PatientKeys), "DOB") == Some(ParseDate(dob))
  {
    var pd1 := NormaliseDob(pd);
    LookupAssign(pd, "DOB", ParseDate(dob), "DOB");
    match Lookup(pd1, "previous_surgeries") {
      case Some(VList(xs)) =>
        LookupAssign(pd1, "previous_surgeries", VList(NormaliseSurgeryList(xs)), "DOB");
      case _ =>
    }
    ParseDateTruthy(dob);
    var columns := TruthyColumns(NormaliseDict(pd), PatientKeys);
    TruthyColumnsFacts(NormaliseDict(pd), PatientKeys);
    assert "DOB" in PatientKeys;
    var i := LookupIndex(columns, "DOB");
  }

  /** The operations depend on the document only through `patient_data` and
      `specialist_recommendations`. */
  lemma OperationsIgnorePatientData(input: Dict, v: Value, pd: Dict)
    ensures Operations(Assign(input, "patient_data", v), pd) == Operations(input, pd)
  {
    RecommendationsIgnorePatientData(input, v);
  }

  lemma RecommendationsIgnorePatientData(input: Dict, v: Value)
    ensures RecommendationRecords(Assign(input, "patient_data", v)) == RecommendationRecords(input)
  {
    LookupAssign(input, "patient_data", v, "specialist_recommendations");
  }

  /** The in-place normalisation is harmless: mapping the document as the call
      left it gives the same operations, and a second call changes it no more. */
  lemma MappingStable(input: Value)
    ensures Mapping(NormalisedInput(input)) == Mapping(input)
    ensures NormalisedInput(NormalisedInput(input)) == NormalisedInput(input)
  {
    if input.VDict? {
      match Lookup(input.entries, "patient_data") {
        case Some(VDict(pd)) =>
          var n := VDict(NormaliseDict(pd));
          var es := Assign(input.entries, "patient_data", n);
          LookupAssign(input.entries, "patient_data", n, "patient_data");
          NormaliseDictIdempotent(pd);
          OperationsIgnorePatientData(input.entries, n, NormaliseDict(pd));
          AssignSame(es, "patient_data", n);
        case _ =>
      }
    }
  }

  /** Every failure is reported as `Error mapping data: ...`, and a document
      or `patient_data` that is not a dict always fails. */
  lemma MappingFailures(input: Value)
    ensures MappedOutput(input).Err? ==> StartsWith(MappedOutput(input).error, "Error mapping data: ")
    ensures !input.VDict? ==> MappedOutput(input).Err?
    ensures input.VDict? && !GetOr(input.entries, "patient_data", VDict([])).VDict? ==> MappedOutput(input).Err?
  {
  }
}
