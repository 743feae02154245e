/** The dictionary helpers of the intake application (practice.py): the
    required-field check that ends the intake, `migrate_existing_data`, and the
    keyword dispatch and final email check of `confirm_mandatory_fields`. */
module Intake {
  import opened Results
  import opened Text
  import opened Json

  /** The required patient fields, in the order of practice.py:249 and 535. */
  const RequiredFields: seq<string> := ["name", "email", "dob", "gender", "phone", "address"]

  // ------------------------------------------------ missing-field check

  /** `[f for f in fields if not pd.get(f)]` */
  function Missing(pd: Dict, fields: seq<string>): seq<string> {
    if fields == [] then []
    else (if Truthy(GetOr(pd, fields[0], VNone)) then [] else [fields[0]]) + Missing(pd, fields[1..])
  }

  /** practice.py:249-250; `.get` on a non-dict raises. */
  function MissingFields(pd: Value): Result<seq<string>, PyError> {
    if pd.VDict? then Ok(Missing(pd.entries, RequiredFields))
    else Err(AttributeError("'" + TypeName(pd) + "' object has no attribute 'get'"))
  }

  /** practice.py:252-273: the intake is accepted when nothing is missing. */
  predicate IntakeComplete(pd: Value) {
    MissingFields(pd) == Ok([])
  }

  /** A field is reported exactly when it is required and absent or falsy, and
      the report keeps the order of the list. */
  lemma {:induction false} MissingFacts(pd: Dict, fields: seq<string>)
    ensures forall f :: f in Missing(pd, fields) <==> f in fields && !Truthy(GetOr(pd, f, VNone))
    ensures |Missing(pd, fields)| <= |fields|
    ensures forall i :: 0 <= i < |Missing(pd, fields)| ==> Missing(pd, fields)[i] in fields
  {
    if fields != [] {
      MissingFacts(pd, fields[1..]);
    }
  }

  /** The report keeps the order of the list: the fields reported for a
      concatenation are those of the first part, then those of the second. */
  lemma {:induction false} MissingAppend(pd: Dict, a: seq<string>, b: seq<string>)
    ensures Missing(pd, a + b) == Missing(pd, a) + Missing(pd, b)
  {
    if a != [] {
      assert (a + b)[0] == a[0];
      assert (a + b)[1..] == a[1..] + b;
      MissingAppend(pd, a[1..], b);
    } else {
      assert a + b == b;
    }
  }

  /** The intake completes exactly when `patient_data` is a dict whose six
      required fields are all truthy. */
  lemma IntakeCompleteIff(pd: Value)
    ensures IntakeComplete(pd) <==> pd.VDict? && forall f :: f in RequiredFields ==> Truthy(GetOr(pd.entries, f, VNone))
  {
    if pd.VDict? {
      MissingFacts(pd.entries, RequiredFields);
      var m := Missing(pd.entries, RequiredFields);
      if m != [] {
        assert m[0] in m;
      }
    }
  }

  // ------------------------------------------------- migrate_existing_data

  /** practice.py:526-528: with a `notes` key and a falsy `address`, the notes
      move into the address and the notes are emptied. */
  predicate NotesMove(pd: Dict) {
    HasKey(pd, "notes") && !Truthy(GetOr(pd, "address", VNone))
  }

  function MoveNotes(pd: Dict): Dict {
    if NotesMove(pd) then
      Assign(Assign(pd, "address", GetOr(pd, "notes", VNone)), "notes", VStr(""))
    else pd
  }

  /** practice.py:531-538: each listed key that is still absent is added as `""`. */
  function AddMissing(pd: Dict, keys: seq<string>): Dict
    decreases |keys|
  {
    if keys == [] then pd
    else AddMissing(if HasKey(pd, keys[0]) then pd else Assign(pd, keys[0], VStr("")), keys[1..])
  }

  /** practice.py:525-538 on a dict `patient_data`. */
  function MigrateDict(pd: Dict): Dict {
    AddMissing(AddMissing(MoveNotes(pd), ["email"]), RequiredFields)
  }

  /** What practice.py:525-538 do when `patient_data` is not a dict: the `in`
      tests raise on a non-container; a str or list that contains `notes` fails
      on `.get`; one that lacks a required field fails on the item assignment;
      one that has them all passes through unchanged. */
  function MigrateNonDict(p: Value): Result<Value, PyError>
    requires !p.VDict?
  {
    var hasNotes :- In("notes", p);
    if hasNotes then Err(AttributeError("'" + TypeName(p) + "' object has no attribute 'get'"))
    else if forall f :: f in RequiredFields ==> In(f, p) == Ok(true) then Ok(p)
    else SetItem(p, "email", VStr(""))
  }

  /** `migrate_existing_data(data)` (practice.py:517-542). */
  function Migrated(data: Value): Result<Value, PyError> {
    if !data.VDict? then Ok(data)
    else match Lookup(data.entries, "patient_data")
      case None => Ok(data)
      case Some(p) =>
        if p.VDict? then Ok(VDict(Assign(data.entries, "patient_data", VDict(MigrateDict(p.entries)))))
        else
          var q :- MigrateNonDict(p);
          Ok(VDict(Assign(data.entries, "patient_data", q)))
  }

  /** The method form, with the loop over the required fields. */
  method MigrateExistingData(data: Value) returns (r: Result<Value, PyError>)
    ensures r == Migrated(data)
  {
    if !data.VDict? {
      return Ok(data);
    }
    match Lookup(data.entries, "patient_data") {
      case None =>
        return Ok(data);
      case Some(p) =>
        if !p.VDict? {
          var q := MigrateNonDict(p);
          if q.Err? {
            return Err(q.error);
          }
          return Ok(VDict(Assign(data.entries, "patient_data", q.value)));
        }
        var patientData := p.entries;
        if HasKey(patientData, "notes") && !Truthy(GetOr(patientData, "address", VNone)) {
          patientData := Assign(patientData, "address", GetOr(patientData, "notes", VNone));
          patientData := Assign(patientData, "notes", VStr(""));
        }
        if !HasKey(patientData, "email") {
          patientData := Assign(patientData, "email", VStr(""));
        }
        assert patientData == AddMissing(MoveNotes(p.entries), ["email"]);
        ghost var start := patientData;
        for i := 0 to |RequiredFields|
          invariant AddMissing(patientData, RequiredFields[i..]) == AddMissing(start, RequiredFields)
        {
          assert RequiredFields[i..][1..] == RequiredFields[i + 1..];
          if !HasKey(patientData, RequiredFields[i]) {
            patientData := Assign(patientData, RequiredFields[i], VStr(""));
          }
        }
        return Ok(VDict(Assign(data.entries, "patient_data", VDict(patientData))));
    }
  }

  /** Adding absent keys stores `""` under each listed key that was absent
      and keeps every other key's value. */
  lemma {:induction false} AddMissingLookup(pd: Dict, keys: seq<string>, k: string)
    ensures Lookup(AddMissing(pd, keys), k) == if !HasKey(pd, k) && k in keys then Some(VStr("")) else Lookup(pd, k)
    decreases |keys|
  {
    if keys != [] {
      var next := if HasKey(pd, keys[0]) then pd else Assign(pd, keys[0], VStr(""));
      LookupAssign(pd, keys[0], VStr(""), k);
      AddMissingLookup(next, keys[1..], k);
    }
  }

  /** With every listed key present, adding absent keys changes nothing. */
  lemma {:induction false} AddMissingPresent(pd: Dict, keys: seq<string>)
    requires forall k :: k in keys ==> HasKey(pd, k)
    ensures AddMissing(pd, keys) == pd
    decreases |keys|
  {
    if keys != [] {
      AddMissingPresent(pd, keys[1..]);
    }
  }

  /** The notes move sets `address` to the notes and empties `notes`, and
      touches no other key. */
  lemma MoveNotesLookup(pd: Dict, k: string)
    ensures Lookup(MoveNotes(pd), k) ==
      if NotesMove(pd) && k == "address" then Lookup(pd, "notes")
      else if NotesMove(pd) && k == "notes" then Some(VStr(""))
      else Lookup(pd, k)
  {
    if NotesMove(pd) {
      var a := Assign(pd, "address", GetOr(pd, "notes", VNone));
      LookupAssign(pd, "address", GetOr(pd, "notes", VNone), k);
      LookupAssign(a, "notes", VStr(""), k);
    }
  }

  /** What migration leaves under each key: the notes move first, then `""`
      under every required key that is still absent. */
  lemma MigrateDictLookup(pd: Dict, k: string)
    ensures Lookup(MigrateDict(pd), k) ==
      var moved := Lookup(MoveNotes(pd), k);
      if moved.None? && k in RequiredFields then Some(VStr("")) else moved
  {
    var m0 := MoveNotes(pd);
    var m1 := AddMissing(m0, ["email"]);
    AddMissingLookup(m0, ["email"], k);
    AddMissingLookup(m1, RequiredFields, k);
  }

  /** After migration every required key is present. */
  lemma MigrateDictHasRequired(pd: Dict)
    ensures forall f :: f in RequiredFields ==> HasKey(MigrateDict(pd), f)
  {
    forall f | f in RequiredFields
      ensures HasKey(MigrateDict(pd), f)
    {
      MigrateDictLookup(pd, f);
    }
  }

  /** The notes move, if it happens, carries truthy notes or `""`. */
  predicate NotesSettle(pd: Dict) {
    NotesMove(pd) ==> Truthy(GetOr(pd, "notes", VNone)) || GetOr(pd, "notes", VNone) == VStr("")
  }

  /** Migration is idempotent, except where the notes it moved were a falsy
      value other than `""` (then a second run overwrites that address with `""`). */
  lemma MigrateDictIdempotent(pd: Dict)
    requires NotesSettle(pd)
    ensures MigrateDict(MigrateDict(pd)) == MigrateDict(pd)
  {
    var m := MigrateDict(pd);
    MigrateDictHasRequired(pd);
    MigrateDictLookup(pd, "address");
    MigrateDictLookup(pd, "notes");
    MoveNotesLookup(pd, "address");
    MoveNotesLookup(pd, "notes");
    assert "notes" !in RequiredFields;
    if NotesMove(pd) {
      var n := GetOr(pd, "notes", VNone);
      assert Lookup(m, "address") == Some(n);
      if !Truthy(n) {
        AssignSame(m, "address", VStr(""));
        AssignSame(m, "notes", VStr(""));
      }
    }
    assert MoveNotes(m) == m;
    AddMissingPresent(m, ["email"]);
    AddMissingPresent(m, RequiredFields);
  }

  /** The exception the precondition above rules out: `notes` is `None`. */
  lemma MigrateNotIdempotentOnNoneNotes()
    ensures var pd := [Entry("notes", VNone)];
      Lookup(MigrateDict(pd), "address") == Some(VNone) &&
      Lookup(MigrateDict(MigrateDict(pd)), "address") == Some(VStr(""))
  {
    var pd := [Entry("notes", VNone)];
    var m := MigrateDict(pd);
    assert NotesMove(pd);
    MigrateDictLookup(pd, "address");
    MoveNotesLookup(pd, "address");
    MigrateDictLookup(pd, "notes");
    MoveNotesLookup(pd, "notes");
    assert "notes" !in RequiredFields;
    assert NotesMove(m);
    MigrateDictLookup(m, "address");
    MoveNotesLookup(m, "address");
  }

  /** `migrate_existing_data` leaves a non-dict, and a dict without
      `patient_data`, as it was; a dict `patient_data` is migrated in its place. */
  lemma MigratedCases(data: Value)
    ensures !data.VDict? ==> Migrated(data) == Ok(data)
    ensures data.VDict? && !HasKey(data.entries, "patient_data") ==> Migrated(data) == Ok(data)
    ensures data.VDict? && Lookup(data.entries, "patient_data").Some? && Lookup(data.entries, "patient_data").value.VDict? ==>
      && Migrated(data).Ok? && Migrated(data).value.VDict?
      && Keys(Migrated(data).value.entries) == Keys(data.entries)
      && Lookup(Migrated(data).value.entries, "patient_data") ==
           Some(VDict(MigrateDict(Lookup(data.entries, "patient_data").value.entries)))
  {
    if data.VDict? {
      match Lookup(data.entries, "patient_data") {
        case Some(p) =>
          if p.VDict? {
            AssignPresent(data.entries, "patient_data", VDict(MigrateDict(p.entries)));
            LookupAssign(data.entries, "patient_data", VDict(MigrateDict(p.entries)), "patient_data");
          }
        case None =>
      }
    }
  }

  /** `migrate_existing_data` run on its own result changes nothing more,
      under the exclusion of `MigrateDictIdempotent`. */
  lemma MigratedIdempotent(data: Value)
    requires Migrated(data).Ok?
    requires data.VDict? && Lookup(data.entries, "patient_data").Some? && Lookup(data.entries, "patient_data").value.VDict? ==>
      NotesSettle(Lookup(data.entries, "patient_data").value.entries)
    ensures Migrated(Migrated(data).value) == Migrated(data)
  {
    if data.VDict? {
      match Lookup(data.entries, "patient_data") {
        case Some(p) =>
          var q := if p.VDict? then VDict(MigrateDict(p.entries)) else MigrateNonDict(p).value;
          var e := Assign(data.entries, "patient_data", q);
          assert Migrated(data) == Ok(VDict(e));
          LookupAssign(data.entries, "patient_data", q, "patient_data");
          if p.VDict? {
            MigrateDictIdempotent(p.entries);
          }
          AssignSame(e, "patient_data", q);
        case None =>
      }
    }
  }

  // ------------------------------------------ confirm_mandatory_fields

  /** The fields the confirmation dialogue can fill, `Notes` being the fallback. */
  datatype Route =
    | Email | Name | Age | Gender | Phone | Address | Symptom | Allergy | Medication
    | PastIllness | ProcedureName | SurgeryDate | HospitalName | Notes

  /** practice.py:441-485: the field the lower-cased bot message asks for; the
      first test that matches wins. */
  function RouteOf(msg: string): Route {
    if Contains(msg, "email") then Email
    else if Contains(msg, "name") then Name
    else if Contains(msg, "age") then Age
    else if Contains(msg, "gender") then Gender
    else if Contains(msg, "phone") || Contains(msg, "ph number") then Phone
    else if Contains(msg, "address") then Address
    else if Contains(msg, "symptom") then Symptom
    else if Contains(msg, "allergy") then Allergy
    else if Contains(msg, "medication") then Medication
    else if Contains(msg, "past illness") || Contains(msg, "past history") then PastIllness
    else if Contains(msg, "procedure name") then ProcedureName
    else if Contains(msg, "surgery date") then SurgeryDate
    else if Contains(msg, "hospital name") then HospitalName
    else Notes
  }

  /** `"procedure name"` and `"hospital name"` both contain `"name"`, which is
      checked first, so those two branches are never taken. */
  lemma NameShadowsItsCompounds(msg: string)
    ensures RouteOf(msg) != ProcedureName && RouteOf(msg) != HospitalName
  {
    if Contains(msg, "procedure name") {
      assert "procedure name" == "procedure " + "name";
      ContainsSuffix(msg, "procedure ", "name");
    }
    if Contains(msg, "hospital name") {
      assert "hospital name" == "hospital " + "name";
      ContainsSuffix(msg, "hospital ", "name");
    }
  }

  /** The order evidently intended: the compound keywords before `"name"`. */
  function IntendedRouteOf(msg: string): Route {
    if Contains(msg, "email") then Email
    else if Contains(msg, "procedure name") then ProcedureName
    else if Contains(msg, "hospital name") then HospitalName
    else RouteOf(msg)
  }

  /** With the intended order the procedure and hospital questions reach their
      fields, and every other message is routed as before. */
  lemma IntendedRouting(msg: string)
    ensures !Contains(msg, "email") && Contains(msg, "procedure name") ==> IntendedRouteOf(msg) == ProcedureName
    ensures !Contains(msg, "email") && !Contains(msg, "procedure name") && Contains(msg, "hospital name") ==>
      IntendedRouteOf(msg) == HospitalName
    ensures !Contains(msg, "procedure name") && !Contains(msg, "hospital name") ==> IntendedRouteOf(msg) == RouteOf(msg)
  {
  }

  /** Whoever contains `sub` contains each of its characters. */
  lemma ContainsHasChar(s: string, sub: string, j: nat)
    requires j < |sub|
    ensures Contains(s, sub) ==> sub[j] in s
  {
    if Contains(s, sub) {
      var i := ContainsWitness(s, sub);
      assert s[i + j] == sub[j];
    }
  }

  /** `"procedure name?"` mentions no email (it has no `l`)... */
  lemma ProcedureQuestionNoEmail()
    ensures !Contains("procedure name?", "email")
  {
    ContainsHasChar("procedure name?", "email", 4);
  }

  /** ...but contains `"name"`... */
  lemma ProcedureQuestionName()
    ensures Contains("procedure name?", "name")
  {
    ContainsAt("procedure name?", "name", 10);
  }

  /** ...and `"procedure name"`. */
  lemma ProcedureQuestionProcedureName()
    ensures Contains("procedure name?", "procedure name")
  {
    ContainsAt("procedure name?", "procedure name", 0);
  }

  /** A question about the procedure name overwrites the patient's name. */
  lemma ProcedureQuestionCounterexample()
    ensures RouteOf("procedure name?") == Name
    ensures IntendedRouteOf("procedure name?") == ProcedureName
  {
    ProcedureQuestionNoEmail();
    ProcedureQuestionName();
    ProcedureQuestionProcedureName();
  }

  /** What one confirmation answer does to `patient_data`; `error` is the
      message returned when the answer is refused. */
  datatype Reply = Reply(patient: Dict, error: Option<string>)

  /** practice.py:437-485: the answer, stripped, goes to the routed field. */
  function Apply(route: Route, userInput: string, d: Dict): Reply {
    var u := Strip(userInput);
    match route
    case Email =>
      if Contains(u, "@") && Contains(u, ".") then Reply(Assign(d, "email", VStr(u)), None)
      else Reply(d, Some("Invalid email format"))
    case Name => Reply(Assign(d, "name", VStr(u)), None)
    case Age =>
      (match ParseInt(u)
       case Some(n) => Reply(Assign(d, "age", VInt(n)), None)
       case None => Reply(Assign(d, "age", VStr(u)), None))
    case Gender => Reply(Assign(d, "gender", VStr(u)), None)
    case Phone => Reply(Assign(d, "phone", VStr(u)), None)
    case Address =>
      var d1 := Assign(d, "address", VStr(u));
      if HasKey(d1, "notes") && Truthy(GetOr(d1, "notes", VNone)) && !Truthy(GetOr(d1, "address", VNone)) then
        Reply(Assign(Assign(d1, "address", GetOr(d1, "notes", VNone)), "notes", VStr("")), None)
      else Reply(d1, None)
    case Symptom => Reply(Assign(Assign(d, "symptom_list", VStr(u)), "symptoms", VStr("yes")), None)
    case Allergy => Reply(Assign(Assign(d, "allergy_list", VStr(u)), "allergies", VStr("yes")), None)
    case Medication => Reply(Assign(Assign(d, "medication_list", VStr(u)), "medications", VStr("yes")), None)
    case PastIllness => Reply(Assign(Assign(d, "past_illness", VStr(u)), "past_history", VStr("yes")), None)
    case ProcedureName => Reply(Assign(d, "procedure_name", VStr(u)), None)
    case SurgeryDate => Reply(Assign(d, "surgery_date", VStr(u)), None)
    case HospitalName => Reply(Assign(d, "hospital_name", VStr(u)), None)
    case Notes => Reply(Assign(d, "notes", VStr(u)), None)
  }

  /** A dialogue turn: who spoke (`"bot"` or `"user"`) and what was said. */
  datatype Turn = Turn(role: string, text: string)

  /** practice.py:433-436 as written: the answer is appended to the history
      before the "last bot message" is read from it, so the routing looks at
      the user's own answer.  An empty answer does nothing. */
  function ConfirmAnswerAsWritten(history: seq<Turn>, userInput: string, d: Dict): Reply {
    if userInput == "" then Reply(d, None)
    else
      var h := history + [Turn("user", userInput)];
      Apply(RouteOf(Lower(h[|h| - 1].text)), userInput, d)
  }

  /** The evidently intended step: route on the bot's question, the last turn
      before the answer, with the compound keywords checked before `"name"`.
      The history always holds the opening question (practice.py:422). */
  function ConfirmAnswer(history: seq<Turn>, userInput: string, d: Dict): Reply
    requires history != []
  {
    if userInput == "" then Reply(d, None)
    else Apply(IntendedRouteOf(Lower(history[|history| - 1].text)), userInput, d)
  }

  /** With the intended step, an answer to a question that mentions an email
      is checked as an email and, when it has `@` and `.`, stored as the
      email; an answer to a question about a procedure goes to
      `procedure_name`, not to `name`. */
  lemma ConfirmAnswerFollowsQuestion(history: seq<Turn>, userInput: string, d: Dict)
    requires history != [] && userInput != ""
    ensures var q := Lower(history[|history| - 1].text);
      var u := Strip(userInput);
      var r := ConfirmAnswer(history, userInput, d);
      && (Contains(q, "email") && Contains(u, "@") && Contains(u, ".") ==>
            r.error.None? && Lookup(r.patient, "email") == Some(VStr(u)))
      && (!Contains(q, "email") && Contains(q, "procedure name") ==>
            r.error.None? && Lookup(r.patient, "procedure_name") == Some(VStr(u)))
  {
    var q := Lower(history[|history| - 1].text);
    IntendedRouting(q);
    EmailBranch(userInput, d);
    LookupAssign(d, "procedure_name", VStr(Strip(userInput)), "procedure_name");
  }

  /** As written, the question never matters: only the answer is routed. */
  lemma AsWrittenIgnoresQuestion(history: seq<Turn>, userInput: string, d: Dict)
    requires userInput != ""
    ensures ConfirmAnswerAsWritten(history, userInput, d) == Apply(RouteOf(Lower(userInput)), userInput, d)
  {
  }

  /** `"a@b.c"` contains none of the keywords. */
  lemma ShortAnswerRoutesToNotes()
    ensures RouteOf("a@b.c") == Notes
  {
    ShortAnswerLacksFirst();
    ShortAnswerLacksMiddle();
    ShortAnswerLacksLast();
  }

  lemma ShortAnswerLacksFirst()
    ensures !Contains("a@b.c", "email") && !Contains("a@b.c", "name") && !Contains("a@b.c", "age")
    ensures !Contains("a@b.c", "gender") && !Contains("a@b.c", "phone")
  {
    var u := "a@b.c";
    ContainsHasChar(u, "email", 0);
    ContainsHasChar(u, "name", 0);
    ContainsHasChar(u, "age", 1);
    ContainsHasChar(u, "gender", 0);
    ContainsHasChar(u, "phone", 0);
  }

  lemma ShortAnswerLacksMiddle()
    ensures !Contains("a@b.c", "ph number") && !Contains("a@b.c", "address") && !Contains("a@b.c", "symptom")
    ensures !Contains("a@b.c", "allergy") && !Contains("a@b.c", "medication")
  {
    var u := "a@b.c";
    ContainsHasChar(u, "ph number", 0);
    ContainsHasChar(u, "address", 1);
    ContainsHasChar(u, "symptom", 0);
    ContainsHasChar(u, "allergy", 1);
    ContainsHasChar(u, "medication", 0);
  }

  lemma ShortAnswerLacksLast()
    ensures !Contains("a@b.c", "past illness") && !Contains("a@b.c", "past history")
    ensures !Contains("a@b.c", "procedure name") && !Contains("a@b.c", "surgery date")
    ensures !Contains("a@b.c", "hospital name")
  {
    var u := "a@b.c";
    ContainsHasChar(u, "past illness", 0);
    ContainsHasChar(u, "past history", 0);
    ContainsHasChar(u, "procedure name", 0);
    ContainsHasChar(u, "surgery date", 0);
    ContainsHasChar(u, "hospital name", 0);
  }

  lemma EmailQuestionRoutesToEmail()
    ensures IntendedRouteOf(Lower("your email?")) == Email
  {
    assert Lower("your email?") == "your email?";
    ContainsAt("your email?", "email", 5);
  }

  lemma ShortAnswerText()
    ensures Lower("a@b.c") == "a@b.c" && Strip("a@b.c") == "a@b.c"
    ensures Contains("a@b.c", "@") && Contains("a@b.c", ".")
  {
    assert Lower("a@b.c") == "a@b.c";
    assert Strip("a@b.c") == "a@b.c";
    ContainsAt("a@b.c", "@", 1);
    ContainsAt("a@b.c", ".", 3);
  }

  /** Asked for an email, the intended step stores the answer as the email; */
  lemma IntendedStoresEmail()
    ensures ConfirmAnswer([Turn("bot", "your email?")], "a@b.c", []).patient == [Entry("email", VStr("a@b.c"))]
  {
    EmailQuestionRoutesToEmail();
    ShortAnswerText();
  }

  /** as written, the same answer is routed on itself and ends up in `notes`. */
  lemma AsWrittenStoresNotes()
    ensures ConfirmAnswerAsWritten([Turn("bot", "your email?")], "a@b.c", []).patient == [Entry("notes", VStr("a@b.c"))]
  {
    ShortAnswerText();
    ShortAnswerRoutesToNotes();
  }

  /** Asked for an email, the intended step stores the answer as the email;
      as written, the same answer ends up in `notes`. */
  lemma EmailAnswerCounterexample()
    ensures var history := [Turn("bot", "your email?")];
      && ConfirmAnswer(history, "a@b.c", []).patient == [Entry("email", VStr("a@b.c"))]
      && ConfirmAnswerAsWritten(history, "a@b.c", []).patient == [Entry("notes", VStr("a@b.c"))]
  {
    IntendedStoresEmail();
    AsWrittenStoresNotes();
  }

  /** The email branch stores a stripped answer with `@` and `.`, and refuses
      any other answer, leaving `patient_data` as it was. */
  lemma EmailBranch(userInput: string, d: Dict)
    ensures var u := Strip(userInput);
      var r := Apply(Email, userInput, d);
      && (Contains(u, "@") && Contains(u, ".") ==> r.error.None? && Lookup(r.patient, "email") == Some(VStr(u)))
      && (!(Contains(u, "@") && Contains(u, ".")) ==> r == Reply(d, Some("Invalid email format")))
  {
    LookupAssign(d, "email", VStr(Strip(userInput)), "email");
  }

  /** Storing a list and then its `"yes"` flag leaves both readable. */
  lemma ListFlag(d: Dict, listKey: string, flagKey: string, u: Value)
    requires listKey != flagKey
    ensures var d2 := Assign(Assign(d, listKey, u), flagKey, VStr("yes"));
      Lookup(d2, listKey) == Some(u) && Lookup(d2, flagKey) == Some(VStr("yes"))
  {
    LookupAssign(d, listKey, u, listKey);
    LookupAssign(Assign(d, listKey, u), flagKey, VStr("yes"), listKey);
    LookupAssign(Assign(d, listKey, u), flagKey, VStr("yes"), flagKey);
  }

  /** The symptom branch sets `symptom_list` and the `symptoms` flag. */
  lemma SymptomBranch(userInput: string, d: Dict)
    ensures var p := Apply(Symptom, userInput, d).patient;
      Lookup(p, "symptom_list") == Some(VStr(Strip(userInput))) && Lookup(p, "symptoms") == Some(VStr("yes"))
  {
    ListFlag(d, "symptom_list", "symptoms", VStr(Strip(userInput)));
  }

  /** The allergy branch sets `allergy_list` and the `allergies` flag. */
  lemma AllergyBranch(userInput: string, d: Dict)
    ensures var p := Apply(Allergy, userInput, d).patient;
      Lookup(p, "allergy_list") == Some(VStr(Strip(userInput))) && Lookup(p, "allergies") == Some(VStr("yes"))
  {
    ListFlag(d, "allergy_list", "allergies", VStr(Strip(userInput)));
  }

  /** The medication branch sets `medication_list` and the `medications` flag. */
  lemma MedicationBranch(userInput: string, d: Dict)
    ensures var p := Apply(Medication, userInput, d).patient;
      Lookup(p, "medication_list") == Some(VStr(Strip(userInput))) && Lookup(p, "medications") == Some(VStr("yes"))
  {
    ListFlag(d, "medication_list", "medications", VStr(Strip(userInput)));
  }

  /** The age branch stores an int when the answer parses and the text otherwise. */
  lemma AgeBranch(userInput: string, d: Dict)
    ensures Lookup(Apply(Age, userInput, d).patient, "age") ==
      match ParseInt(Strip(userInput)) case Some(n) => Some(VInt(n)) case None => Some(VStr(Strip(userInput)))
  {
    match ParseInt(Strip(userInput)) {
      case Some(n) => LookupAssign(d, "age", VInt(n), "age");
      case None => LookupAssign(d, "age", VStr(Strip(userInput)), "age");
    }
  }

  /** In the address branch the stored answer makes `address` truthy whenever
      the stripped answer is non-empty, so the notes move of practice.py:462-464
      happens only for a blank answer. */
  lemma AddressBranch(userInput: string, d: Dict)
    requires Strip(userInput) != ""
    ensures Apply(Address, userInput, d).patient == Assign(d, "address", VStr(Strip(userInput)))
  {
    LookupAssign(d, "address", VStr(Strip(userInput)), "address");
  }

  // --------------------------------------------- the confirmation check

  datatype Verdict = EmailRequired | Confirmed(patient: Dict)

  /** practice.py:505-507: an empty address is filled from non-empty notes. */
  function FillAddress(d: Dict): Dict {
    if !Truthy(GetOr(d, "address", VNone)) && Truthy(GetOr(d, "notes", VNone)) then
      Assign(Assign(d, "address", GetOr(d, "notes", VNone)), "notes", VStr(""))
    else d
  }

  /** practice.py:500-510 once the assistant reports `confirmed`; the `@` test
      on an email that is not a string, list or dict raises. */
  function FinalCheck(d: Dict): Result<Verdict, PyError> {
    match Lookup(d, "email")
    case None => Ok(EmailRequired)
    case Some(e) =>
      if !Truthy(e) then Ok(EmailRequired)
      else
        var hasAt :- In("@", e);
        if hasAt then Ok(Confirmed(FillAddress(d))) else Ok(EmailRequired)
  }

  /** Confirmation needs a truthy email that contains `@`; it then keeps the
      email, and leaves the address truthy whenever address or notes was. */
  lemma FinalCheckFacts(d: Dict)
    ensures FinalCheck(d).Ok? && FinalCheck(d).value.Confirmed? <==>
      exists e :: Lookup(d, "email") == Some(e) && Truthy(e) && In("@", e) == Ok(true)
    ensures FinalCheck(d).Ok? && FinalCheck(d).value.Confirmed? ==>
      var p := FinalCheck(d).value.patient;
      && Lookup(p, "email") == Lookup(d, "email")
      && (Truthy(GetOr(d, "address", VNone)) || Truthy(GetOr(d, "notes", VNone)) ==> Truthy(GetOr(p, "address", VNone)))
      && (!Truthy(GetOr(d, "address", VNone)) && Truthy(GetOr(d, "notes", VNone)) ==>
            Lookup(p, "address") == Lookup(d, "notes") && Lookup(p, "notes") == Some(VStr("")))
  {
    var notes := GetOr(d, "notes", VNone);
    var a := Assign(d, "address", notes);
    LookupAssign(d, "address", notes, "email");
    LookupAssign(d, "address", notes, "address");
    LookupAssign(a, "notes", VStr(""), "email");
    LookupAssign(a, "notes", VStr(""), "address");
    LookupAssign(a, "notes", VStr(""), "notes");
    if !Truthy(GetOr(d, "address", VNone)) && Truthy(notes) {
      assert HasKey(d, "notes");
    }
  }
}
