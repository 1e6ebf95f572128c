/** `MedicalFormGenerator` of `ai_agent/forms.py`: five intake forms built
    from a saved consultation record, and the file name each is saved
    under. The record is the JSON value `json.load` read; the clock's
    `%Y%m%d_%H%M%S` suffix of every form id is the parameter `stamp`. Each
    form is the `Ok` dict, or the Python exception building it raises. */
module Forms {
  import opened PyStr
  import opened Json

  /** A dict whose every key maps to the empty string, as the blank sections
      of the forms are written. */
  function Blanks(keys: seq<string>): (r: Value)
    ensures r.Obj? && |r.fields| == |keys|
    ensures forall i :: 0 <= i < |keys| ==> r.fields[i] == (keys[i], Str(""))
  {
    Obj(seq(|keys|, i requires 0 <= i < |keys| => (keys[i], Str(""))))
  }

  /** `d.get(key, default)` on a dict. */
  function Lookup(d: Value, key: string, default: Value): Value {
    if HasKey(d, key) then At(d, key) else default
  }

  /** The first three members of every form: its type, the record's
      timestamp and nothing else before the body. */
  function Header(formType: string, timestamp: Value): seq<(string, Value)> {
    [("form_type", Str(formType)), ("timestamp", timestamp)]
  }

  /** A form: the header, the body, and the id last. */
  function Form(formType: string, timestamp: Value, body: seq<(string, Value)>, id: string): Value {
    Obj(Header(formType, timestamp) + body + [("form_id", Str(id))])
  }

  /** What every form promises: its type, the record's timestamp copied
      unchanged, and its id. */
  predicate Stamped(form: Value, formType: string, timestamp: Value, id: string) {
    form.Obj? && |form.fields| >= 3
    && form.fields[0] == ("form_type", Str(formType))
    && form.fields[1] == ("timestamp", timestamp)
    && form.fields[|form.fields| - 1] == ("form_id", Str(id))
  }

  lemma FormStamped(formType: string, timestamp: Value, body: seq<(string, Value)>, id: string)
    ensures Stamped(Form(formType, timestamp, body, id), formType, timestamp, id)
    ensures Member(Form(formType, timestamp, body, id), "form_type") == Str(formType)
    ensures Member(Form(formType, timestamp, body, id), "timestamp") == timestamp
  {
    var f := Form(formType, timestamp, body, id).fields;
    assert f[0].0 == "form_type";
    assert f[1..][0].0 == "timestamp";
  }

  // ---------------------------------------------------------------------
  // Patient registration

  const RegistrationBody: seq<(string, Value)> :=
    [("required_information", Obj([
        ("personal_info", Blanks(["full_name", "date_of_birth", "gender", "marital_status"])),
        ("contact_info", Blanks(["current_address", "phone_number", "email_address", "ssn", "government_id"])),
        ("emergency_contact", Blanks(["name", "relationship", "phone_number"])),
        ("demographics", Blanks(["race", "ethnicity", "preferred_language"])),
        ("provider_info", Blanks(["primary_care_provider", "previous_provider"]))])),
     ("status", Str("Pending completion"))]

  /** `generate_patient_registration_form` */
  function RegistrationForm(data: Value, stamp: string): (r: Result<Value>)
    ensures r.Ok? <==> HasKey(data, "timestamp")
    ensures r.Err? ==> r.error == (if data.Obj? then KeyError else TypeError)
    ensures r.Ok? ==> Stamped(r.value, "Patient Registration", At(data, "timestamp"), "REG_" + stamp)
  {
    var timestamp :- Subscript(data, "timestamp");
    FormStamped("Patient Registration", timestamp, RegistrationBody, "REG_" + stamp);
    Ok(Form("Patient Registration", timestamp, RegistrationBody, "REG_" + stamp))
  }

  // ---------------------------------------------------------------------
  // Medical history

  /** The `ongoing_symptoms` comprehension: each symptom cut down to its
      name, duration and severity, in order. */
  function OngoingSymptoms(symptoms: seq<Value>): (r: Result<seq<Value>>)
    ensures r.Ok? <==> forall i :: 0 <= i < |symptoms| ==> SymptomComplete(symptoms[i])
    ensures r.Ok? ==> |r.value| == |symptoms|
    ensures r.Ok? ==> forall i :: 0 <= i < |symptoms| ==> r.value[i] == SymptomEntry(symptoms[i])
  {
    if symptoms == [] then Ok([])
    else
      var s := symptoms[0];
      var name :- Subscript(s, "name");
      var duration :- Subscript(s, "duration");
      var severity :- Subscript(s, "severity");
      var rest :- OngoingSymptoms(symptoms[1..]);
      assert forall i :: 1 <= i < |symptoms| ==> symptoms[i] == symptoms[1..][i - 1];
      Ok([Obj([("name", name), ("duration", duration), ("severity", severity)])] + rest)
  }

  predicate SymptomComplete(s: Value) {
    HasKey(s, "name") && HasKey(s, "duration") && HasKey(s, "severity")
  }

  /** The entry kept for a symptom: exactly its name, duration and
      severity. */
  function SymptomEntry(s: Value): Value
    requires SymptomComplete(s)
  {
    Obj([("name", At(s, "name")), ("duration", At(s, "duration")), ("severity", At(s, "severity"))])
  }

  /** `dosage.split()[-2]`: only a string can be split, and the list must
      have two words. */
  function SecondToLast(dosage: Value): (r: Result<Value>)
    ensures r.Ok? <==> dosage.Str? && |Split(dosage.s)| >= 2
    ensures r.Ok? ==> r.value == Str(Split(dosage.s)[|Split(dosage.s)| - 2])
    ensures r.Err? ==> r.error == (if dosage.Str? then IndexError else AttributeError)
  {
    if !dosage.Str? then Err(AttributeError)
    else
      var words := Split(dosage.s);
      if |words| < 2 then Err(IndexError) else Ok(Str(words[|words| - 2]))
  }

  /** The frequency of a dosage written as words is its second-to-last
      word: "1 tablet twice daily" gives "twice". */
  lemma FrequencyOfWords(words: seq<string>)
    requires AllTokens(words) && |words| >= 2
    ensures SecondToLast(Str(JoinSpaced(words))) == Ok(Str(words[|words| - 2]))
  {
    SplitJoin(words);
  }

  /** A one-word dosage makes the form raise `IndexError`. */
  lemma OneWordDosageRaises(word: string)
    requires IsToken(word)
    ensures SecondToLast(Str(word)) == Err(IndexError)
  {
    SplitToken(word);
  }

  predicate MedicationComplete(med: Value) {
    HasKey(med, "name") && HasKey(med, "dosage") && SecondToLast(At(med, "dosage")).Ok? && HasKey(med, "purpose")
  }

  /** The entry the form lists for a prescribed medication. */
  function PrescriptionEntry(med: Value): Value
    requires MedicationComplete(med)
  {
    Obj([("name", At(med, "name")), ("dosage", At(med, "dosage")),
         ("frequency", SecondToLast(At(med, "dosage")).value), ("purpose", At(med, "purpose"))])
  }

  /** The `prescription` comprehension of the medications section. */
  function PrescriptionEntries(meds: seq<Value>): (r: Result<seq<Value>>)
    ensures r.Ok? <==> forall i :: 0 <= i < |meds| ==> MedicationComplete(meds[i])
    ensures r.Ok? ==> |r.value| == |meds|
    ensures r.Ok? ==> forall i :: 0 <= i < |meds| ==> r.value[i] == PrescriptionEntry(meds[i])
  {
    if meds == [] then Ok([])
    else
      var med := meds[0];
      var name :- Subscript(med, "name");
      var dosage :- Subscript(med, "dosage");
      var frequency :- SecondToLast(dosage);
      var purpose :- Subscript(med, "purpose");
      var rest :- PrescriptionEntries(meds[1..]);
      assert forall i :: 1 <= i < |meds| ==> meds[i] == meds[1..][i - 1];
      Ok([Obj([("name", name), ("dosage", dosage), ("frequency", frequency), ("purpose", purpose)])] + rest)
  }

  /** `consultation_data.get("prescription", {}).get("medications", [])`,
      iterated. */
  function PrescribedMeds(data: Value): Result<seq<Value>> {
    var plan :- Get(data, "prescription", Obj([]));
    var meds :- Get(plan, "medications", Arr([]));
    Iterate(meds)
  }

  /** The sections of the medical history form that come from the record. */
  datatype HistoryParts = HistoryParts(
    timestamp: Value, diagnosis: Value, ongoing: seq<Value>, illnesses: Value,
    prescription: seq<Value>, allergies: Value, family: Value)

  /** The reads of `generate_medical_history_form`, in the order Python
      evaluates them; the first failing one decides the exception. */
  function HistoryPartsOf(data: Value): (r: Result<HistoryParts>)
    ensures r.Ok? ==> HasKey(data, "timestamp") && r.value.timestamp == At(data, "timestamp")
  {
    var history :- Get(data, "medical_history", Obj([]));
    // `data` is a dict from here on, so its own `get`s cannot fail
    var symptoms := Get(data, "symptoms", Arr([])).value;
    var timestamp :- Subscript(data, "timestamp");
    var diagnosis := Get(data, "diagnosis", Null).value;
    var listed :- Iterate(symptoms);
    var ongoing :- OngoingSymptoms(listed);
    var illnesses :- Get(history, "medical_history", Arr([]));
    var meds :- PrescribedMeds(data);
    var prescription :- PrescriptionEntries(meds);
    // `history` was read as a dict just above
    var allergies := Get(history, "allergies", Arr([])).value;
    var family := Get(history, "family_history", Str("Not provided")).value;
    Ok(HistoryParts(timestamp, diagnosis, ongoing, illnesses, prescription, allergies, family))
  }

  function MedicalHistoryBody(p: HistoryParts): seq<(string, Value)> {
    [("current_conditions", Obj([
        ("primary_diagnosis", p.diagnosis), ("chronic_illnesses", Arr([])), ("ongoing_symptoms", Arr(p.ongoing))])),
     ("past_medical_history", Obj([
        ("illnesses", p.illnesses), ("surgeries", Arr([])), ("hospitalizations", Arr([])), ("significant_events", Arr([]))])),
     ("medications", Obj([
        ("prescription", Arr(p.prescription)), ("over_the_counter", Arr([])), ("supplements", Arr([]))])),
     ("allergies", Obj([
        ("medications", p.allergies), ("foods", Arr([])), ("environmental", Arr([])), ("previous_reactions", Arr([]))])),
     ("immunization_history", Obj([("vaccines", Arr([])), ("dates", Arr([]))])),
     ("family_medical_history", Obj([
        ("hereditary_conditions", Arr([])), ("genetic_predispositions", Arr([])), ("general", p.family)]))]
  }

  /** `generate_medical_history_form` */
  function MedicalHistoryForm(data: Value, stamp: string): (r: Result<Value>)
    ensures r.Ok? <==> HistoryPartsOf(data).Ok?
    ensures r.Ok? ==> HasKey(data, "timestamp") && Stamped(r.value, "Medical History", At(data, "timestamp"), "MH_" + stamp)
  {
    var parts :- HistoryPartsOf(data);
    var timestamp := parts.timestamp;
    FormStamped("Medical History", timestamp, MedicalHistoryBody(parts), "MH_" + stamp);
    Ok(Form("Medical History", timestamp, MedicalHistoryBody(parts), "MH_" + stamp))
  }

  /** The symptom and prescription lists keep the record's order, one entry
      per item. */
  lemma HistoryPartsMeaning(data: Value)
    requires HistoryPartsOf(data).Ok?
    ensures var p := HistoryPartsOf(data).value;
      var symptoms := Lookup(data, "symptoms", Arr([]));
      && Iterate(symptoms).Ok? && |p.ongoing| == |Iterate(symptoms).value|
      && (forall i :: 0 <= i < |p.ongoing| ==> p.ongoing[i] == SymptomEntry(Iterate(symptoms).value[i]))
      && PrescribedMeds(data).Ok? && |p.prescription| == |PrescribedMeds(data).value|
      && (forall i :: 0 <= i < |p.prescription| ==> p.prescription[i] == PrescriptionEntry(PrescribedMeds(data).value[i]))
  {
  }

  /** The illnesses, allergies and family history are copied from the
      record's "medical_history" dict, with their defaults. */
  lemma HistorySectionsMeaning(data: Value)
    requires HistoryPartsOf(data).Ok?
    ensures var p := HistoryPartsOf(data).value;
      var history := Lookup(data, "medical_history", Obj([]));
      && p.illnesses == Lookup(history, "medical_history", Arr([]))
      && p.allergies == Lookup(history, "allergies", Arr([]))
      && p.family == Lookup(history, "family_history", Str("Not provided"))
  {
  }

  /** A record without "medical_history" gets no illnesses, no medication
      allergies and "Not provided" as family history. */
  lemma MissingHistoryDefaults(data: Value)
    requires HistoryPartsOf(data).Ok? && !HasKey(data, "medical_history")
    ensures var p := HistoryPartsOf(data).value;
      p.illnesses == Arr([]) && p.allergies == Arr([]) && p.family == Str("Not provided")
  {
    HistorySectionsMeaning(data);
  }

  /** A record whose history is a list, as a history that has not been
      replaced by the model's dict is, yields no medical history form: a
      list has no `get`. */
  lemma ListHistoryRaises(data: Value)
    requires HasKey(data, "medical_history") && At(data, "medical_history").Arr?
    ensures HistoryPartsOf(data).Err?
  {
  }

  // ---------------------------------------------------------------------
  // Consent for treatment

  /** The `proposed_treatments` comprehension. */
  function ProposedTreatments(meds: seq<Value>): (r: Result<seq<Value>>)
    ensures r.Ok? <==> forall i :: 0 <= i < |meds| ==> HasKey(meds[i], "name") && HasKey(meds[i], "purpose")
    ensures r.Ok? ==> |r.value| == |meds|
    ensures r.Ok? ==> forall i :: 0 <= i < |meds| ==>
      Member(r.value[i], "treatment") == At(meds[i], "name") && Member(r.value[i], "purpose") == At(meds[i], "purpose")
  {
    if meds == [] then Ok([])
    else
      var name :- Subscript(meds[0], "name");
      var purpose :- Subscript(meds[0], "purpose");
      var rest :- ProposedTreatments(meds[1..]);
      assert forall i :: 1 <= i < |meds| ==> meds[i] == meds[1..][i - 1];
      var entry := Obj([("treatment", name), ("purpose", purpose), ("potential_risks", Str("")), ("benefits", Str(""))]);
      assert IndexOf(entry.fields[1..], "purpose") == 0;
      Ok([entry] + rest)
  }

  datatype ConsentParts = ConsentParts(timestamp: Value, diagnosis: Value, treatments: seq<Value>, procedures: Value)

  /** The reads of `generate_consent_form`, in evaluation order. */
  function ConsentPartsOf(data: Value): (r: Result<ConsentParts>)
    ensures r.Ok? ==> HasKey(data, "timestamp") && r.value.timestamp == At(data, "timestamp")
    ensures r.Ok? ==> (PrescribedMeds(data).Ok? && ProposedTreatments(PrescribedMeds(data).value).Ok?
      && r.value.treatments == ProposedTreatments(PrescribedMeds(data).value).value)
  {
    var timestamp :- Subscript(data, "timestamp");
    // `data` is a dict from here on, so its own `get`s cannot fail
    var diagnosis := Get(data, "diagnosis", Null).value;
    var meds :- PrescribedMeds(data);
    var treatments :- ProposedTreatments(meds);
    // and so is its prescription, read as a dict just above
    var plan := Get(data, "prescription", Obj([])).value;
    var procedures := Get(plan, "tests", Arr([])).value;
    Ok(ConsentParts(timestamp, diagnosis, treatments, procedures))
  }

  function ConsentBody(p: ConsentParts): seq<(string, Value)> {
    [("verbal_consent", Obj([("given", Bool(false)), ("datetime", Str("")), ("witness", Str(""))])),
     ("treatment_details", Obj([
        ("diagnosis", p.diagnosis), ("proposed_treatments", Arr(p.treatments)), ("procedures", p.procedures)])),
     ("emergency_authorization", Obj([("authorized", Bool(false)), ("limitations", Str(""))])),
     ("confirmation", Blanks(["patient_name", "signature", "date", "witness_signature"]))]
  }

  /** `generate_consent_form` */
  function ConsentForm(data: Value, stamp: string): (r: Result<Value>)
    ensures r.Ok? <==> ConsentPartsOf(data).Ok?
    ensures r.Ok? ==> HasKey(data, "timestamp") && Stamped(r.value, "Consent for Treatment", At(data, "timestamp"), "CONS_" + stamp)
  {
    var parts :- ConsentPartsOf(data);
    var timestamp := parts.timestamp;
    FormStamped("Consent for Treatment", timestamp, ConsentBody(parts), "CONS_" + stamp);
    Ok(Form("Consent for Treatment", timestamp, ConsentBody(parts), "CONS_" + stamp))
  }

  /** The consent form proposes one treatment per prescribed medication, in
      order, lists the prescription's tests (none when absent) as
      procedures, and starts with consent not given and emergency treatment
      not authorized. */
  lemma ConsentMeaning(data: Value)
    requires ConsentPartsOf(data).Ok?
    ensures var p := ConsentPartsOf(data).value; var meds := PrescribedMeds(data).value;
      var plan := Lookup(data, "prescription", Obj([]));
      && |p.treatments| == |meds|
      && (forall i :: 0 <= i < |meds| ==> Member(p.treatments[i], "treatment") == At(meds[i], "name"))
      && p.procedures == Lookup(plan, "tests", Arr([]))
  {
  }

  /** Consent starts as not given and emergency treatment as not
      authorized. */
  lemma ConsentNotGiven(p: ConsentParts)
    ensures Member(Member(Obj(ConsentBody(p)), "verbal_consent"), "given") == Bool(false)
    ensures Member(Member(Obj(ConsentBody(p)), "emergency_authorization"), "authorized") == Bool(false)
  {
    var body := ConsentBody(p);
    assert IndexOf(body[1..][1..], "emergency_authorization") == 0;
  }

  // ---------------------------------------------------------------------
  // HIPAA acknowledgment and insurance

  const HipaaBody: seq<(string, Value)> :=
    [("verbal_acknowledgment", Obj([("given", Bool(false)), ("datetime", Str("")), ("witness", Str(""))])),
     ("privacy_practices", Obj([
        ("information_usage", Obj([
           ("purpose", Str("Treatment, payment, and healthcare operations")),
           ("sharing_policy", Str("Information shared only with authorized healthcare providers and as required by law"))])),
        ("patient_rights", Obj([
           ("access_rights", Str("Right to access and obtain copies of medical records")),
           ("amendment_rights", Str("Right to request amendments to medical records")),
           ("restriction_rights", Str("Right to request restrictions on information sharing"))])),
        ("safeguards", Obj([
           ("technical", Str("Electronic health record security")),
           ("physical", Str("Secure storage of paper records")),
           ("administrative", Str("Staff training and privacy policies"))]))])),
     ("acknowledgment", Blanks(["patient_name", "signature", "date", "witness_signature"]))]

  /** `generate_hipaa_form` */
  function HipaaForm(data: Value, stamp: string): (r: Result<Value>)
    ensures r.Ok? <==> HasKey(data, "timestamp")
    ensures r.Err? ==> r.error == (if data.Obj? then KeyError else TypeError)
    ensures r.Ok? ==> Stamped(r.value, "HIPAA Privacy Acknowledgment", At(data, "timestamp"), "HIPAA_" + stamp)
  {
    var timestamp :- Subscript(data, "timestamp");
    FormStamped("HIPAA Privacy Acknowledgment", timestamp, HipaaBody, "HIPAA_" + stamp);
    Ok(Form("HIPAA Privacy Acknowledgment", timestamp, HipaaBody, "HIPAA_" + stamp))
  }

  /** The acknowledgment starts as not given. */
  lemma HipaaNotAcknowledged()
    ensures Member(Member(Obj(HipaaBody), "verbal_acknowledgment"), "given") == Bool(false)
  {
  }

  const InsuranceBody: seq<(string, Value)> :=
    [("insurance_details", Blanks(["company_name", "policy_number", "group_number"])),
     ("policyholder_info", Blanks(["name", "relationship_to_patient", "employer"])),
     ("insurance_contact", Blanks(["billing_address", "phone_number", "email"])),
     ("employer_plan", Obj([
        ("is_employer_sponsored", Bool(false)), ("employer_name", Str("")), ("group_plan_details", Str(""))])),
     ("authorization", Obj([
        ("pre_auth_required", Bool(false)), ("pre_auth_number", Str("")),
        ("referral_required", Bool(false)), ("referral_details", Str(""))]))]

  /** `generate_insurance_form` */
  function InsuranceForm(data: Value, stamp: string): (r: Result<Value>)
    ensures r.Ok? <==> HasKey(data, "timestamp")
    ensures r.Err? ==> r.error == (if data.Obj? then KeyError else TypeError)
    ensures r.Ok? ==> Stamped(r.value, "Insurance Information", At(data, "timestamp"), "INS_" + stamp)
  {
    var timestamp :- Subscript(data, "timestamp");
    FormStamped("Insurance Information", timestamp, InsuranceBody, "INS_" + stamp);
    Ok(Form("Insurance Information", timestamp, InsuranceBody, "INS_" + stamp))
  }

  // ---------------------------------------------------------------------
  // Saving

  /** The file name `save_individual_form` writes a form to: the lower-cased
      form name, an underscore, the record's timestamp with every ':'
      replaced by '-', and ".json". */
  function FormFileName(data: Value, formName: string): (r: Result<string>)
    ensures r.Ok? <==> HasKey(data, "timestamp") && At(data, "timestamp").Str?
    ensures r.Ok? ==> r.value == Lower(formName) + "_" + ReplaceChar(At(data, "timestamp").s, ':', '-') + ".json"
  {
    var timestamp :- Subscript(data, "timestamp");
    if !timestamp.Str? then Err(AttributeError)
    else Ok(Lower(formName) + "_" + ReplaceChar(timestamp.s, ':', '-') + ".json")
  }

  /** A form name without ':' gives a file name without ':', whatever the
      timestamp. */
  lemma FileNameHasNoColon(data: Value, formName: string)
    requires FormFileName(data, formName).Ok? && ':' !in formName
    ensures ':' !in FormFileName(data, formName).value
  {
    var name := FormFileName(data, formName).value;
    var lowered := Lower(formName);
    var replaced := ReplaceChar(At(data, "timestamp").s, ':', '-');
    assert ':' !in lowered by {
      forall i | 0 <= i < |lowered| ensures lowered[i] != ':' {
        assert formName[i] != ':';
      }
    }
    assert name == lowered + "_" + replaced + ".json";
    forall i | 0 <= i < |name| ensures name[i] != ':' {
      if i < |lowered| {
        assert name[i] == lowered[i];
      } else if i == |lowered| {
      } else if i < |lowered| + 1 + |replaced| {
        assert name[i] == replaced[i - |lowered| - 1];
      }
    }
  }

  /** The five forms, in the order `generate_and_save_all_forms` builds and
      saves them. */
  datatype FormKind = Registration | MedicalHistory | Consent | Hipaa | Insurance

  const Kinds: seq<FormKind> := [Registration, MedicalHistory, Consent, Hipaa, Insurance]

  function Generate(kind: FormKind, data: Value, stamp: string): Result<Value> {
    match kind
    case Registration => RegistrationForm(data, stamp)
    case MedicalHistory => MedicalHistoryForm(data, stamp)
    case Consent => ConsentForm(data, stamp)
    case Hipaa => HipaaForm(data, stamp)
    case Insurance => InsuranceForm(data, stamp)
  }

  /** The name each form is saved under. */
  function SaveName(kind: FormKind): string {
    match kind
    case Registration => "Registration"
    case MedicalHistory => "MedicalHistory"
    case Consent => "Consent"
    case Hipaa => "HIPAA"
    case Insurance => "Insurance"
  }

  /** The type and id prefix each form carries. */
  function FormType(kind: FormKind): string {
    match kind
    case Registration => "Patient Registration"
    case MedicalHistory => "Medical History"
    case Consent => "Consent for Treatment"
    case Hipaa => "HIPAA Privacy Acknowledgment"
    case Insurance => "Insurance Information"
  }

  function IdPrefix(kind: FormKind): string {
    match kind
    case Registration => "REG_"
    case MedicalHistory => "MH_"
    case Consent => "CONS_"
    case Hipaa => "HIPAA_"
    case Insurance => "INS_"
  }

  /** Every form that can be built carries its type, the record's timestamp
      and its id. */
  lemma GeneratedIsStamped(kind: FormKind, data: Value, stamp: string)
    requires Generate(kind, data, stamp).Ok?
    ensures HasKey(data, "timestamp")
    ensures Stamped(Generate(kind, data, stamp).value, FormType(kind), At(data, "timestamp"), IdPrefix(kind) + stamp)
  {
  }

  /** Building the forms one after another: the first exception stops it. */
  function GenerateAll(kinds: seq<FormKind>, data: Value, stamp: string): (r: Result<seq<Value>>)
    ensures r.Ok? <==> forall i :: 0 <= i < |kinds| ==> Generate(kinds[i], data, stamp).Ok?
    ensures r.Ok? ==> |r.value| == |kinds|
    ensures r.Ok? ==> forall i :: 0 <= i < |kinds| ==> r.value[i] == Generate(kinds[i], data, stamp).value
  {
    if kinds == [] then Ok([])
    else
      var form :- Generate(kinds[0], data, stamp);
      var rest :- GenerateAll(kinds[1..], data, stamp);
      assert forall i :: 1 <= i < |kinds| ==> Generate(kinds[i], data, stamp) == Generate(kinds[1..][i - 1], data, stamp);
      Ok([form] + rest)
  }

  /** Saving built forms one after another: each gets its file name. */
  function SaveAll(kinds: seq<FormKind>, forms: seq<Value>, data: Value): (r: Result<seq<(string, Value)>>)
    requires |forms| == |kinds|
    ensures r.Ok? <==> kinds == [] || (HasKey(data, "timestamp") && At(data, "timestamp").Str?)
    ensures r.Ok? ==> |r.value| == |kinds|
    ensures r.Ok? ==> forall i :: 0 <= i < |kinds| ==>
      FormFileName(data, SaveName(kinds[i])).Ok? && r.value[i] == (FormFileName(data, SaveName(kinds[i])).value, forms[i])
  {
    if kinds == [] then Ok([])
    else
      var name :- FormFileName(data, SaveName(kinds[0]));
      // the timestamp is a string from here on, so the other forms are saved too
      var rest := SaveAll(kinds[1..], forms[1..], data).value;
      assert forall i :: 1 <= i < |kinds| ==> kinds[i] == kinds[1..][i - 1] && forms[i] == forms[1..][i - 1];
      Ok([(name, forms[0])] + rest)
  }

  /** `generate_and_save_all_forms`: build the five forms, then save each
      under its name; the result is the (file name, form) pairs written, in
      order. It succeeds exactly when every form can be built and the
      timestamp is a string. */
  function AllForms(data: Value, stamp: string): (r: Result<seq<(string, Value)>>)
    ensures r.Ok? <==> ((forall i :: 0 <= i < 5 ==> Generate(Kinds[i], data, stamp).Ok?)
      && HasKey(data, "timestamp") && At(data, "timestamp").Str?)
    ensures r.Ok? ==> |r.value| == 5
    ensures r.Ok? ==> forall i :: 0 <= i < 5 ==>
      Generate(Kinds[i], data, stamp).Ok? && r.value[i] == (FormFileName(data, SaveName(Kinds[i])).value, Generate(Kinds[i], data, stamp).value)
  {
    var forms :- GenerateAll(Kinds, data, stamp);
    SaveAll(Kinds, forms, data)
  }

  /** The five saved forms carry, in order, the types Patient Registration,
      Medical History, Consent for Treatment, HIPAA Privacy Acknowledgment
      and Insurance Information, each with the record's timestamp and its
      own id, and no file name holds ':'. */
  lemma AllFormsInOrder(data: Value, stamp: string)
    requires AllForms(data, stamp).Ok?
    ensures forall i :: 0 <= i < 5 ==>
      Stamped(AllForms(data, stamp).value[i].1, FormType(Kinds[i]), At(data, "timestamp"), IdPrefix(Kinds[i]) + stamp)
      && ':' !in AllForms(data, stamp).value[i].0
  {
    forall i | 0 <= i < 5
      ensures Stamped(AllForms(data, stamp).value[i].1, FormType(Kinds[i]), At(data, "timestamp"), IdPrefix(Kinds[i]) + stamp)
      ensures ':' !in AllForms(data, stamp).value[i].0
    {
      GeneratedIsStamped(Kinds[i], data, stamp);
      SaveNameHasNoColon(Kinds[i]);
      FileNameHasNoColon(data, SaveName(Kinds[i]));
    }
  }

  lemma SaveNameHasNoColon(kind: FormKind)
    ensures ':' !in SaveName(kind)
  {
  }
}
