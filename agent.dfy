/** The console interview agent of `ai_agent/interview_agent.py`: the
    consultation driver, its question asking, the de-duplicating assessment
    update and the save on exit. The language model and the patient are the
    replies collected in an `Oracle`; the console, the microphone, the
    speaker and the clock are left out. */
module InterviewAgent {
  import opened PyStr
  import opened Json
  import opened ExitCommand
  import opened Consultation

  const QSymptoms: string := "Can you describe the symptoms you're experiencing?"
  const QDemographics: string := "Your name, age, and sex?"
  const QHistory: string := "Do you have any relevant medical history or existing conditions?"
  const QMedications: string := "Are you currently taking any medications or supplements?"
  const QSatisfaction: string := "Do you have any more questions? (Yes/No)"
  const QExtra: string := "What else would you like to know?"

  /** The answers to the satisfaction question that end the consultation. */
  const Declines: seq<string> := ["no", "n"]

  /** One `conversation_history` entry, timestamp aside. */
  datatype Exchange = Exchange(question: string, response: string)

  /** Everything the patient and the model say in one consultation.
      `answer(i)` is the patient's input to the question that would become
      entry `i` of the history; `symptoms(0)` and `history(0)` answer the
      opening analyses and `symptoms(k + 1)`, `history(k + 1)` those of
      follow-up round `k`; `decisions(k)` and `followUps(k)` are the texts
      of the "needs follow-up?" and "follow-up question" prompts of
      round `k`. */
  datatype Oracle = Oracle(
    answer: nat -> PatientInput,
    symptoms: nat -> Parse,
    history: nat -> Parse,
    medications: Parse,
    decisions: nat -> string,
    followUps: nat -> string,
    prescription: Parse)

  /** How `ask_question` ends: an answer, the `MedicalConsultationException`
      raised after a successful save, or an error raised while saving. */
  datatype Asked = Answered(response: string) | Quit | Raised(error: PyError)

  /** How `conduct_consultation` ends: it returns normally (after the
      farewell or after catching the exit exception), or an error escapes. */
  datatype Ending = Completed | Exited | Failed(error: PyError)

  /** The opening questions; the demographics question is asked when
      `patient_data` has no truthy "demographics". */
  function Opening(demographics: bool): (r: seq<string>)
    ensures |r| == if demographics then 4 else 3
    ensures r[0] == QSymptoms && r[|r| - 2] == QHistory && r[|r| - 1] == QMedications
    ensures demographics ==> r[1] == QDemographics
  {
    [QSymptoms] + (if demographics then [QDemographics] else []) + [QHistory, QMedications]
  }

  predicate NeedsDemographics(patientData: seq<(string, Value)>) {
    !HasKey(Obj(patientData), "demographics") || !Truthy(At(Obj(patientData), "demographics"))
  }

  /** The follow-up questions of the first `n` rounds, as generated and
      stripped. */
  function FollowUpQuestions(o: Oracle, n: nat): (r: seq<string>)
    ensures |r| == n && forall k :: 0 <= k < n ==> r[k] == Strip(o.followUps(k))
  {
    seq(n, k requires 0 <= k < n => Strip(o.followUps(k)))
  }

  /** Every question a consultation can ask, in order; a run asks a prefix
      of it. */
  function Script(o: Oracle, demographics: bool): seq<string> {
    Opening(demographics) + FollowUpQuestions(o, FollowUpRounds(o.decisions)) + [QSatisfaction, QExtra]
  }

  /** `script` begins with the opening questions. */
  predicate OpensWith(script: seq<string>, demographics: bool) {
    var open := Opening(demographics);
    |open| <= |script| && forall i :: 0 <= i < |open| ==> script[i] == open[i]
  }

  /** The script opens with the opening questions. */
  lemma ScriptOpening(o: Oracle, demographics: bool)
    ensures OpensWith(Script(o, demographics), demographics)
  {
  }

  /** The generated follow-up questions come right after the opening. */
  lemma ScriptFollowUps(o: Oracle, demographics: bool)
    ensures var m := |Opening(demographics)|; var n := FollowUpRounds(o.decisions); var s := Script(o, demographics);
      |s| == m + n + 2 && forall k :: 0 <= k < n ==> s[m + k] == Strip(o.followUps(k))
  {
  }

  /** The `k`-th follow-up question sits right after the opening. */
  lemma ScriptFollowUp(o: Oracle, demographics: bool, k: nat)
    requires k < FollowUpRounds(o.decisions)
    ensures var m := |Opening(demographics)|; var s := Script(o, demographics);
      m + k < |s| && s[m + k] == Strip(o.followUps(k))
  {
    ScriptFollowUps(o, demographics);
  }

  /** The script closes with the satisfaction question and the extra one. */
  lemma ScriptClosing(o: Oracle, demographics: bool)
    ensures var m := |Opening(demographics)| + FollowUpRounds(o.decisions); var s := Script(o, demographics);
      |s| == m + 2 && s[m] == QSatisfaction && s[m + 1] == QExtra
  {
  }

  /** The history grew from `h0` to `h` by answered questions of `script`,
      in order, each recorded with the answer its input resolves to. */
  predicate Recorded(h0: seq<Exchange>, h: seq<Exchange>, script: seq<string>, voice: bool, answer: nat -> PatientInput) {
    |h0| <= |h| <= |h0| + |script| && h[..|h0|] == h0
    && forall i :: |h0| <= i < |h| ==> h[i].question == script[i - |h0|] && Resolve(voice, answer(i)) == Response(h[i].response)
  }

  lemma RecordedNext(h0: seq<Exchange>, h: seq<Exchange>, script: seq<string>, voice: bool, answer: nat -> PatientInput, q: string, r: string)
    requires Recorded(h0, h, script, voice, answer)
    requires |h| - |h0| < |script| && script[|h| - |h0|] == q
    requires Resolve(voice, answer(|h|)) == Response(r)
    ensures Recorded(h0, h + [Exchange(q, r)], script, voice, answer)
  {
    var h' := h + [Exchange(q, r)];
    assert h'[..|h0|] == h[..|h0|];
    forall i | |h0| <= i < |h'|
      ensures h'[i].question == script[i - |h0|] && Resolve(voice, answer(i)) == Response(h'[i].response)
    {
      if i < |h| {
        assert h'[i] == h[i];
      }
    }
  }

  /** The history after `update_assessment` merges a follow-up's history
      items: `analyze_medical_history` has already extended a list history,
      then the loop appends the items not yet in it; every failure is
      swallowed and leaves the history as it was. */
  function MergedHistory(history: Value, reply: Parse): Value {
    var analysis := HistoryAnalysis(history, reply);
    if analysis.Err? then history
    else
      var (extended, update) := analysis.value;
      var items := Member(update, "medical_history");
      if Truthy(update) && Truthy(items) && extended.Arr? && Iterate(items).Ok? then
        Arr(MergeUnique(extended.items, Iterate(items).value))
      else extended
  }

  /** The de-duplicating history loop never adds anything: every item it
      tests was appended by `analyze_medical_history` a moment before, so a
      history item reported twice is kept twice. */
  lemma HistoryDedupIsIneffective(history: Value, reply: Parse)
    requires HistoryAnalysis(history, reply).Ok?
    ensures MergedHistory(history, reply) == HistoryAnalysis(history, reply).value.0
  {
    var (extended, update) := HistoryAnalysis(history, reply).value;
    var items := Member(update, "medical_history");
    if Truthy(update) && Truthy(items) && extended.Arr? && Iterate(items).Ok? {
      assert reply.Parsed?;
      var more := Iterate(items).value;
      assert extended.items == history.items + more;
      forall k | 0 <= k < |more| ensures InList(more[k], extended.items) {
        assert extended.items[|history.items| + k] == more[k];
      }
      MergeNothingNew(extended.items, more);
    }
  }

  /** Once the history is a dict, as the opening leaves it, follow-ups never
      change it. */
  lemma DictHistoryIsFinal(history: Value, reply: Parse)
    requires history.Obj?
    ensures MergedHistory(history, reply) == history
  {
    DictHistoryNeverGrows(history, reply);
  }

  /** The answer to the satisfaction question ends the consultation. */
  predicate Declined(response: string) {
    Listed(Strip(Lower(response)), Declines)
  }

  /** Declining is "no" or "n", in any case and with any white space around. */
  lemma DeclinedMeaning(response: string)
    ensures Declined(response) <==> Strip(Lower(response)) in ["no", "n"]
  {
    ListedIn(Strip(Lower(response)), Declines);
  }

  /** What an ending did to the saved records: an exit saved exactly
      `record`, the record of the agent as it was when the patient asked to
      leave; anything else saved none. */
  predicate Stopped(ending: Ending, before: seq<Value>, after: seq<Value>, record: Result<Value>) {
    if ending.Exited? then record.Ok? && after == before + [record.value] else after == before
  }

  /** What a consultation collects about the patient. */
  datatype Assessment = Assessment(symptoms: seq<Value>, history: Value, medications: Value)

  /** The analyses of the opening answers, in the order they run: the
      symptoms, the history and the medications; the first that raises
      decides the error. `conduct_consultation` assigns the value the
      history analysis returns to `medical_history`, so the list it has
      just extended is dropped and the history becomes the model's dict,
      or `{}` for a malformed reply. */
  function OpeningAnalyses(o: Oracle, history: Value): (r: Result<Assessment>)
    ensures r.Ok? <==>
      AnalyzeSymptoms(o.symptoms(0)).Ok? && HistoryAnalysis(history, o.history(0)).Ok? && IdentifyMedications(o.medications).Ok?
    ensures r.Ok? ==> r.value.history.Obj? && r.value.history == (if o.history(0).Parsed? then o.history(0).v else Obj([]))
  {
    var symptoms :- AnalyzeSymptoms(o.symptoms(0));
    var analysis :- HistoryAnalysis(history, o.history(0));
    var meds :- IdentifyMedications(o.medications);
    Ok(Assessment(symptoms, analysis.1, meds))
  }

  /** `patient_data` after the opening: the medications found are noted
      under "current_medications" when they are truthy, and nothing changes
      otherwise. */
  function MedsNoted(data: seq<(string, Value)>, meds: Value): (r: seq<(string, Value)>)
    ensures Truthy(meds) ==> HasKey(Obj(r), "current_medications") && At(Obj(r), "current_medications") == meds
    ensures !Truthy(meds) ==> r == data
  {
    if Truthy(meds) then Assign(data, "current_medications", meds) else data
  }

  /** The symptoms and history after one `update_assessment` with the
      given replies: unchanged when the symptom analysis fails, otherwise
      the new symptoms merged in behind the old ones and the history items
      merged into a list history. */
  function Updated(symptoms: seq<Value>, history: Value, symptomReply: Parse, historyReply: Parse): (r: (seq<Value>, Value))
    ensures AnalyzeSymptoms(symptomReply).Err? ==> r == (symptoms, history)
    ensures |symptoms| <= |r.0| && r.0[..|symptoms|] == symptoms
    ensures history.Obj? ==> r.1 == history
  {
    var found := AnalyzeSymptoms(symptomReply);
    if found.Err? then (symptoms, history)
    else (MergeUnique(symptoms, found.value), MergedHistory(history, historyReply))
  }

  /** The symptoms and history after the first `k` follow-up rounds, each
      round's `update_assessment` applied in turn. The symptom list only
      grows, and a dict history is never touched. */
  function AfterRounds(o: Oracle, k: nat, symptoms: seq<Value>, history: Value): (r: (seq<Value>, Value))
    ensures |symptoms| <= |r.0| && r.0[..|symptoms|] == symptoms
    ensures history.Obj? ==> r.1 == history
  {
    if k == 0 then (symptoms, history)
    else
      var (s, h) := AfterRounds(o, k - 1, symptoms, history);
      var next := Updated(s, h, o.symptoms(k), o.history(k));
      assert next.0[..|symptoms|] == next.0[..|s|][..|symptoms|];
      next
  }

  /** Everything `conduct_consultation` has collected once the follow-ups
      are done: the opening's analyses, then every follow-up round. It
      exists exactly when the opening's analyses succeed; the symptoms of
      the opening come first; and the history is still the dict the
      opening's analysis returned, since no follow-up can extend a dict. */
  function Collected(o: Oracle, history: Value): (r: Result<Assessment>)
    ensures r.Ok? <==> OpeningAnalyses(o, history).Ok?
    ensures r.Ok? ==> r.value.history == (if o.history(0).Parsed? then o.history(0).v else Obj([]))
    ensures r.Ok? ==>
      var first := OpeningAnalyses(o, history).value.symptoms;
      |first| <= |r.value.symptoms| && r.value.symptoms[..|first|] == first
  {
    var first :- OpeningAnalyses(o, history);
    var (s, h) := AfterRounds(o, FollowUpRounds(o.decisions), first.symptoms, first.history);
    Ok(Assessment(s, h, first.medications))
  }

  /** How the consultation ends when a question was not answered. */
  function Unanswered(a: Asked): Ending
    requires !a.Answered?
  {
    if a.Quit? then Exited else Failed(a.error)
  }

  /** A closing after the first `n` entries: the satisfaction answer is
      entry `n`, and the extra question follows it exactly when that answer
      did not decline. */
  predicate ClosedAfter(h: seq<Exchange>, n: nat) {
    n < |h| <= n + 2 && (Declined(h[n].response) <==> |h| == n + 1)
  }

  /** Where the closing starts in a history that was `h0` when the
      consultation began: after the opening and the follow-ups. */
  function ClosingStart(o: Oracle, h0: seq<Exchange>, data: seq<(string, Value)>): nat {
    |h0| + |Opening(NeedsDemographics(data))| + FollowUpRounds(o.decisions)
  }

  class Agent {
    /** Whether answers come through the voice channel. */
    const voice: bool
    var conversationHistory: seq<Exchange>
    var patientData: seq<(string, Value)>
    var currentSymptoms: seq<Value>
    var medicalHistory: Value
    var prescription: Value
    /** The records `save_consultation` has written, in order. */
    var saved: seq<Value>

    constructor(voice: bool)
      ensures this.voice == voice
      ensures conversationHistory == [] && patientData == [] && currentSymptoms == []
      ensures medicalHistory == Arr([]) && prescription == Arr([]) && saved == []
    {
      this.voice := voice;
      conversationHistory := [];
      patientData := [];
      currentSymptoms := [];
      medicalHistory := Arr([]);
      prescription := Arr([]);
      saved := [];
    }

    /** `save_consultation`: build the record and write it. */
    method SaveConsultation() returns (r: Result<Value>)
      modifies this`saved
      ensures r == SaveRecord(prescription, currentSymptoms, medicalHistory)
      ensures saved == if r.Ok? then old(saved) + [r.value] else old(saved)
    {
      r := SaveRecord(prescription, currentSymptoms, medicalHistory);
      if r.Ok? {
        saved := saved + [r.value];
      }
    }

    /** `ask_question`: read the answer; on an exit request save through
      `handle_exit` and raise, otherwise record one exchange. */
    method AskQuestion(question: string, input: PatientInput) returns (a: Asked)
      modifies this`conversationHistory, this`saved
      ensures Resolve(voice, input).Response? ==>
        a == Answered(Resolve(voice, input).text)
        && conversationHistory == old(conversationHistory) + [Exchange(question, a.response)]
        && saved == old(saved)
      ensures Resolve(voice, input).ExitRequested? ==>
        conversationHistory == old(conversationHistory)
        && var rec := SaveRecord(prescription, currentSymptoms, medicalHistory);
           (rec.Ok? ==> a == Quit && saved == old(saved) + [rec.value])
           && (rec.Err? ==> a == Raised(rec.error) && saved == old(saved))
    {
      var reading := ReadAnswer(voice, input);
      if reading.ExitRequested? {
        var written := SaveConsultation();
        a := if written.Ok? then Quit else Raised(written.error);
        return;
      }
      conversationHistory := conversationHistory + [Exchange(question, reading.text)];
      a := Answered(reading.text);
    }

    /** Ask the next question of `script` and keep `Recorded` up to date. */
    method AskNext(question: string, o: Oracle, ghost h0: seq<Exchange>, ghost script: seq<string>) returns (a: Asked)
      requires Recorded(h0, conversationHistory, script, voice, o.answer)
      requires |conversationHistory| - |h0| < |script| && script[|conversationHistory| - |h0|] == question
      modifies this`conversationHistory, this`saved
      ensures Recorded(h0, conversationHistory, script, voice, o.answer)
      ensures a.Answered? ==>
        |conversationHistory| == |old(conversationHistory)| + 1 && saved == old(saved)
        && conversationHistory[|conversationHistory| - 1].response == a.response
      ensures !a.Answered? ==>
        conversationHistory == old(conversationHistory)
        && Resolve(voice, o.answer(|conversationHistory|)) == ExitRequested
        && Stopped(Unanswered(a), old(saved), saved, SaveRecord(prescription, currentSymptoms, medicalHistory))
        && (a.Quit? <==> SaveRecord(prescription, currentSymptoms, medicalHistory).Ok?)
    {
      ghost var h := conversationHistory;
      a := AskQuestion(question, o.answer(|conversationHistory|));
      if a.Answered? {
        RecordedNext(h0, h, script, voice, o.answer, question, a.response);
      }
    }

    /** `analyze_medical_history`: extend the current history in place and
      return the parsed reply. */
    method AnalyzeMedicalHistory(reply: Parse) returns (r: Result<Value>)
      modifies this`medicalHistory
      ensures var analysis := HistoryAnalysis(old(medicalHistory), reply);
        r == (if analysis.Ok? then Ok(analysis.value.1) else Err(analysis.error))
        && medicalHistory == if analysis.Ok? then analysis.value.0 else old(medicalHistory)
    {
      match reply
      case Malformed =>
        return Ok(Obj([]));
      case Parsed(v) =>
        if !medicalHistory.Arr? {
          return Err(AttributeError);
        }
        var item := Subscript(v, "medical_history");
        if item.Err? {
          return Err(item.error);
        }
        var more := Iterate(item.value);
        if more.Err? {
          return Err(more.error);
        }
        medicalHistory := Arr(medicalHistory.items + more.value);
        return Ok(v);
    }

    /** `update_assessment`: merge the follow-up's new symptoms, then its
      history items, each without duplicates; any error stops the update
      and is swallowed. */
    method UpdateAssessment(symptomReply: Parse, historyReply: Parse)
      modifies this`currentSymptoms, this`medicalHistory
      ensures AnalyzeSymptoms(symptomReply).Err? ==>
        currentSymptoms == old(currentSymptoms) && medicalHistory == old(medicalHistory)
      ensures AnalyzeSymptoms(symptomReply).Ok? ==>
        currentSymptoms == MergeUnique(old(currentSymptoms), AnalyzeSymptoms(symptomReply).value)
        && medicalHistory == MergedHistory(old(medicalHistory), historyReply)
      ensures (currentSymptoms, medicalHistory) == Updated(old(currentSymptoms), old(medicalHistory), symptomReply, historyReply)
    {
      var found := AnalyzeSymptoms(symptomReply);
      if found.Err? {
        return;
      }
      if found.value != [] {
        MergeSymptoms(found.value);
      }
      var update := AnalyzeMedicalHistory(historyReply);
      if update.Err? {
        return;
      }
      var items := Member(update.value, "medical_history");
      if Truthy(update.value) && Truthy(items) && medicalHistory.Arr? {
        var iterated := Iterate(items);
        if iterated.Err? {
          return;
        }
        MergeHistoryItems(iterated.value);
      }
    }

    /** The symptom loop of `update_assessment`: append each new symptom the
      list does not already hold, in order. */
    method MergeSymptoms(newSymptoms: seq<Value>)
      modifies this`currentSymptoms
      ensures currentSymptoms == MergeUnique(old(currentSymptoms), newSymptoms)
    {
      var i := 0;
      while i < |newSymptoms|
        invariant 0 <= i <= |newSymptoms|
        invariant currentSymptoms == MergeUnique(old(currentSymptoms), newSymptoms[..i])
      {
        var symptom := newSymptoms[i];
        assert newSymptoms[..i + 1][..i] == newSymptoms[..i];
        if !InList(symptom, currentSymptoms) {
          currentSymptoms := currentSymptoms + [symptom];
        }
        i := i + 1;
      }
      assert newSymptoms[..|newSymptoms|] == newSymptoms;
    }

    /** The history loop of `update_assessment`: append each reported item
      the history list does not already hold, in order. */
    method MergeHistoryItems(more: seq<Value>)
      requires medicalHistory.Arr?
      modifies this`medicalHistory
      ensures medicalHistory == Arr(MergeUnique(old(medicalHistory).items, more))
    {
      var j := 0;
      while j < |more|
        invariant 0 <= j <= |more|
        invariant medicalHistory == Arr(MergeUnique(old(medicalHistory).items, more[..j]))
      {
        var item := more[j];
        assert more[..j + 1][..j] == more[..j];
        if !InList(item, medicalHistory.items) {
          medicalHistory := Arr(medicalHistory.items + [item]);
        }
        j := j + 1;
      }
      assert more[..|more|] == more;
    }

    /** `generate_prescription`: store the parsed reply, then show it. */
    method GeneratePrescription(reply: Parse) returns (r: Result<seq<string>>)
      modifies this`prescription
      ensures reply.Malformed? ==> r == Err(JSONDecodeError) && prescription == old(prescription)
      ensures reply.Parsed? ==> prescription == reply.v && (r.Ok? <==> PlanReady(reply.v))
      ensures reply.Parsed? && r.Ok? ==>
        var meds := PlanMeds(reply.v).value;
        |r.value| == |meds| + 1 && r.value[0] == Display(At(reply.v, "diagnosis"))
        && forall i :: 0 <= i < |meds| ==> r.value[i + 1] == PlanLine(meds[i])
    {
      if reply.Malformed? {
        return Err(JSONDecodeError);
      }
      prescription := reply.v;
      r := TreatmentPlan(prescription);
      TreatmentPlanReady(prescription);
    }

    /** The fields hold the assessment `c`, with its medications noted in
        `data0`. */
    predicate Holds(c: Result<Assessment>, data0: seq<(string, Value)>)
      reads this`currentSymptoms, this`medicalHistory, this`patientData
    {
      c.Ok? && currentSymptoms == c.value.symptoms && medicalHistory == c.value.history
      && patientData == MedsNoted(data0, c.value.medications)
    }

    /** The opening of `conduct_consultation`: symptoms, demographics when
      missing, history and medications, each answer followed by its
      analysis. Unless it stops, the agent then holds the opening's
      analyses. */
    method OpeningQuestions(o: Oracle) returns (done: bool, ending: Ending)
      modifies this`conversationHistory, this`saved, this`currentSymptoms, this`medicalHistory, this`patientData
      ensures Recorded(old(conversationHistory), conversationHistory, Script(o, NeedsDemographics(old(patientData))), voice, o.answer)
      ensures !done ==>
        |conversationHistory| == |old(conversationHistory)| + |Opening(NeedsDemographics(old(patientData)))| && saved == old(saved)
        && Holds(OpeningAnalyses(o, old(medicalHistory)), old(patientData))
      ensures done == !ending.Completed?
      ensures done ==>
        Stopped(ending, old(saved), saved, SaveRecord(prescription, currentSymptoms, medicalHistory))
        && (ending.Exited? ==> Resolve(voice, o.answer(|conversationHistory|)) == ExitRequested)
    {
      ScriptOpening(o, NeedsDemographics(old(patientData)));
      var a := AskNext(QSymptoms, o, old(conversationHistory), Script(o, NeedsDemographics(old(patientData))));
      if !a.Answered? { return true, Unanswered(a); }
      var found := AnalyzeSymptoms(o.symptoms(0));
      if found.Err? { return true, Failed(found.error); }
      currentSymptoms := found.value;

      if NeedsDemographics(patientData) {
        a := AskNext(QDemographics, o, old(conversationHistory), Script(o, NeedsDemographics(old(patientData))));
        if !a.Answered? { return true, Unanswered(a); }
      }
      done, ending := HistoryQuestions(o, old(conversationHistory), Script(o, NeedsDemographics(old(patientData))));
    }

    /** The second half of the opening: the history question and its
      analysis, whose returned dict replaces the history, then the
      medications question and its analysis, noted when truthy. */
    method HistoryQuestions(o: Oracle, ghost h0: seq<Exchange>, ghost script: seq<string>) returns (done: bool, ending: Ending)
      requires Recorded(h0, conversationHistory, script, voice, o.answer)
      requires |conversationHistory| - |h0| + 2 <= |script|
      requires script[|conversationHistory| - |h0|] == QHistory && script[|conversationHistory| - |h0| + 1] == QMedications
      modifies this`conversationHistory, this`saved, this`medicalHistory, this`patientData
      ensures Recorded(h0, conversationHistory, script, voice, o.answer)
      ensures !done ==>
        |conversationHistory| == |old(conversationHistory)| + 2 && saved == old(saved)
        && HistoryAnalysis(old(medicalHistory), o.history(0)).Ok?
        && medicalHistory == HistoryAnalysis(old(medicalHistory), o.history(0)).value.1
        && IdentifyMedications(o.medications).Ok?
        && patientData == MedsNoted(old(patientData), IdentifyMedications(o.medications).value)
      ensures done == !ending.Completed?
      ensures done ==>
        Stopped(ending, old(saved), saved, SaveRecord(prescription, currentSymptoms, medicalHistory))
        && (ending.Exited? ==> Resolve(voice, o.answer(|conversationHistory|)) == ExitRequested)
    {
      var a := AskNext(QHistory, o, h0, script);
      if !a.Answered? { return true, Unanswered(a); }
      var history := AnalyzeMedicalHistory(o.history(0));
      if history.Err? { return true, Failed(history.error); }
      medicalHistory := history.value;
      a := AskNext(QMedications, o, h0, script);
      if !a.Answered? { return true, Unanswered(a); }
      var meds := IdentifyMedications(o.medications);
      if meds.Err? { return true, Failed(meds.error); }
      if Truthy(meds.value) {
        patientData := Assign(patientData, "current_medications", meds.value);
      }
      return false, Completed;
    }

    /** One round of the follow-up loop: ask the generated question, then
      update the assessment with the answers that go with it. */
    method FollowUpRound(o: Oracle, count: nat, ghost h0: seq<Exchange>, ghost demographics: bool) returns (a: Asked)
      requires count < FollowUpRounds(o.decisions)
      requires |conversationHistory| == |h0| + |Opening(demographics)| + count
      requires Recorded(h0, conversationHistory, Script(o, demographics), voice, o.answer)
      modifies this`conversationHistory, this`saved, this`currentSymptoms, this`medicalHistory
      ensures Recorded(h0, conversationHistory, Script(o, demographics), voice, o.answer)
      ensures a.Answered? ==>
        |conversationHistory| == |old(conversationHistory)| + 1 && saved == old(saved)
        && (currentSymptoms, medicalHistory)
           == Updated(old(currentSymptoms), old(medicalHistory), o.symptoms(count + 1), o.history(count + 1))
      ensures !a.Answered? ==>
        conversationHistory == old(conversationHistory)
        && currentSymptoms == old(currentSymptoms) && medicalHistory == old(medicalHistory)
        && Resolve(voice, o.answer(|conversationHistory|)) == ExitRequested
        && Stopped(Unanswered(a), old(saved), saved, SaveRecord(prescription, currentSymptoms, medicalHistory))
    {
      ghost var script := Script(o, demographics);
      ScriptFollowUp(o, demographics, count);
      a := AskNext(Strip(o.followUps(count)), o, h0, script);
      if a.Answered? {
        UpdateAssessment(o.symptoms(count + 1), o.history(count + 1));
      }
    }

    /** The follow-up loop of `conduct_consultation`: at most three rounds,
      ended early by a decision saying "No"; each round asks one generated
      question and updates the assessment with the answer. Whenever it
      ends, the symptoms and history are those after the rounds asked. */
    method FollowUpLoop(o: Oracle, ghost h0: seq<Exchange>, ghost demographics: bool) returns (done: bool, ending: Ending)
      requires Recorded(h0, conversationHistory, Script(o, demographics), voice, o.answer)
      requires |conversationHistory| == |h0| + |Opening(demographics)|
      modifies this`conversationHistory, this`saved, this`currentSymptoms, this`medicalHistory
      ensures Recorded(h0, conversationHistory, Script(o, demographics), voice, o.answer)
      ensures |old(conversationHistory)| <= |conversationHistory|
      ensures (currentSymptoms, medicalHistory)
        == AfterRounds(o, |conversationHistory| - |old(conversationHistory)|, old(currentSymptoms), old(medicalHistory))
      ensures !done ==> |conversationHistory| == |h0| + |Opening(demographics)| + FollowUpRounds(o.decisions) && saved == old(saved)
      ensures done == !ending.Completed?
      ensures done ==>
        Stopped(ending, old(saved), saved, SaveRecord(prescription, currentSymptoms, medicalHistory))
        && (ending.Exited? ==> Resolve(voice, o.answer(|conversationHistory|)) == ExitRequested)
    {
      var count := 0;
      while count < 3
        invariant count <= FollowUpRounds(o.decisions)
        invariant |conversationHistory| == |old(conversationHistory)| + count
        invariant Recorded(h0, conversationHistory, Script(o, demographics), voice, o.answer)
        invariant saved == old(saved)
        invariant (currentSymptoms, medicalHistory) == AfterRounds(o, count, old(currentSymptoms), old(medicalHistory))
      {
        NextDecision(o.decisions, count);
        var decision := Strip(o.decisions(count));
        if Contains(decision, "No") {
          break;
        }
        var a := FollowUpRound(o, count, h0, demographics);
        if !a.Answered? { return true, Unanswered(a); }
        count := count + 1;
      }
      return false, Completed;
    }

    /** The end of `conduct_consultation`: the satisfaction question and,
      unless the answer is "no" or "n", one more question. The answer to
      the satisfaction question becomes the entry right after the
      follow-ups. The prescription has been shown, so an exit here always
      saves. */
    method Closing(o: Oracle, ghost h0: seq<Exchange>, ghost script: seq<string>, ghost n: nat) returns (ending: Ending)
      requires Recorded(h0, conversationHistory, script, voice, o.answer)
      requires |conversationHistory| == n && |script| == n - |h0| + 2
      requires script[n - |h0|] == QSatisfaction && script[n - |h0| + 1] == QExtra
      requires HasKey(prescription, "diagnosis") && HasKey(prescription, "prescription")
      modifies this`conversationHistory, this`saved
      ensures Recorded(h0, conversationHistory, script, voice, o.answer)
      ensures !ending.Failed?
      ensures ending.Completed? ==> ClosedAfter(conversationHistory, n)
      ensures ending.Exited? ==> Resolve(voice, o.answer(|conversationHistory|)) == ExitRequested
      ensures Stopped(ending, old(saved), saved, SaveRecord(prescription, currentSymptoms, medicalHistory))
    {
      var a := AskNext(QSatisfaction, o, h0, script);
      if !a.Answered? { return Unanswered(a); }
      if Declined(a.response) {
        return Completed;
      }
      a := AskNext(QExtra, o, h0, script);
      if !a.Answered? { return Unanswered(a); }
      return Completed;
    }

    /** The end of `conduct_consultation` once the follow-ups are done:
      generate and show the prescription, then close. It fails exactly
      when the prescription cannot be shown. */
    method Conclude(o: Oracle, ghost h0: seq<Exchange>, ghost demographics: bool) returns (ending: Ending)
      requires Recorded(h0, conversationHistory, Script(o, demographics), voice, o.answer)
      requires |conversationHistory| == |h0| + |Opening(demographics)| + FollowUpRounds(o.decisions)
      modifies this`conversationHistory, this`saved, this`prescription
      ensures Recorded(h0, conversationHistory, Script(o, demographics), voice, o.answer)
      ensures o.prescription.Malformed? ==> ending == Failed(JSONDecodeError) && prescription == old(prescription)
      ensures o.prescription.Parsed? ==> prescription == o.prescription.v
      ensures ending.Failed? <==> !(o.prescription.Parsed? && PlanReady(o.prescription.v))
      ensures ending.Completed? ==> ClosedAfter(conversationHistory, |old(conversationHistory)|)
      ensures ending.Exited? ==> Resolve(voice, o.answer(|conversationHistory|)) == ExitRequested
      ensures Stopped(ending, old(saved), saved, SaveRecord(prescription, currentSymptoms, medicalHistory))
    {
      var plan := GeneratePrescription(o.prescription);
      if plan.Err? { return Failed(plan.error); }
      ScriptClosing(o, demographics);
      ShownPrescriptionCanBeSaved(prescription, currentSymptoms, medicalHistory);
      ending := Closing(o, h0, Script(o, demographics), |conversationHistory|);
    }

    /** The questions of `conduct_consultation` before the prescription:
      the opening, then the follow-up loop. Unless it stops, the agent then
      holds everything collected. */
    method Interview(o: Oracle) returns (done: bool, ending: Ending)
      modifies this`conversationHistory, this`saved, this`currentSymptoms, this`medicalHistory, this`patientData
      ensures Recorded(old(conversationHistory), conversationHistory, Script(o, NeedsDemographics(old(patientData))), voice, o.answer)
      ensures !done ==>
        |conversationHistory| == |old(conversationHistory)| + |Opening(NeedsDemographics(old(patientData)))| + FollowUpRounds(o.decisions)
        && saved == old(saved)
        && Holds(Collected(o, old(medicalHistory)), old(patientData))
      ensures done == !ending.Completed?
      ensures done ==>
        Stopped(ending, old(saved), saved, SaveRecord(prescription, currentSymptoms, medicalHistory))
        && (ending.Exited? ==> Resolve(voice, o.answer(|conversationHistory|)) == ExitRequested)
    {
      ghost var h0 := conversationHistory;
      ghost var demographics := NeedsDemographics(patientData);
      done, ending := OpeningQuestions(o);
      if done { return; }
      done, ending := FollowUpLoop(o, h0, demographics);
    }

    /** `conduct_consultation`: the opening, the follow-up loop, the
      prescription and the closing; the exit exception is caught and ends
      the consultation. A completed run holds what it collected, with the
      history left as the dict the opening's analysis returned, and the
      parsed prescription. An exit saves the record of the agent as it
      stands, which needs a prescription holding a diagnosis and a plan:
      an agent with none yet cannot leave before one is shown. */
    method ConductConsultation(o: Oracle) returns (ending: Ending)
      modifies this`conversationHistory, this`saved, this`currentSymptoms, this`medicalHistory, this`patientData, this`prescription
      ensures Recorded(old(conversationHistory), conversationHistory, Script(o, NeedsDemographics(old(patientData))), voice, o.answer)
      ensures ending.Completed? ==>
        ClosedAfter(conversationHistory, ClosingStart(o, old(conversationHistory), old(patientData)))
      ensures ending.Completed? ==>
        Holds(Collected(o, old(medicalHistory)), old(patientData))
        && o.prescription.Parsed? && prescription == o.prescription.v && PlanReady(prescription)
      ensures ending.Exited? ==> Resolve(voice, o.answer(|conversationHistory|)) == ExitRequested
      ensures Stopped(ending, old(saved), saved, SaveRecord(prescription, currentSymptoms, medicalHistory))
      ensures ending.Exited? ==> HasKey(prescription, "diagnosis") && HasKey(prescription, "prescription")
    {
      ghost var collected := Collected(o, medicalHistory);
      ghost var h0, data0 := conversationHistory, patientData;
      ghost var demographics := NeedsDemographics(data0);
      var done;
      done, ending := Interview(o);
      if done {
        return;
      }
      ghost var m := |conversationHistory|;
      assert m == ClosingStart(o, h0, data0);
      assert Holds(collected, data0) && saved == old(saved);
      ending := Conclude(o, h0, demographics);
      assert ending.Completed? ==> ClosedAfter(conversationHistory, m);
      assert Holds(collected, data0);
      assert Stopped(ending, old(saved), saved, SaveRecord(prescription, currentSymptoms, medicalHistory));
      assert ending.Exited? ==> HasKey(prescription, "diagnosis") && HasKey(prescription, "prescription");
    }
  }
}
