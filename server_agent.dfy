/** The second interview agent, `ai-agent/interview-agent.py`: the same
    question asking, exit test and model-reply analyses as the console
    agent, but its own opening question, no demographics question, no
    closing questions, a plain `extend` in `update_assessment`, and a save
    at the end of every consultation that reaches the prescription. The
    browser, wallet and NFT members and `generate_summary` are not part of
    the consultation flow and are left out. */
module ServerInterviewAgent {
  import opened PyStr
  import opened Json
  import opened Consultation
  import opened InterviewAgent

  const QDescribe: string := "Please describe your current symptoms and their duration:"

  /** The opening questions of this agent. */
  function ServerOpening(): (r: seq<string>)
    ensures |r| == 3 && r[0] == QDescribe && r[1] == QHistory && r[2] == QMedications
  {
    [QDescribe, QHistory, QMedications]
  }

  /** Every question a consultation of this agent can ask, in order. */
  function ServerScript(o: Oracle): seq<string> {
    ServerOpening() + FollowUpQuestions(o, FollowUpRounds(o.decisions))
  }

  /** The script is the opening followed by one generated question per
      follow-up round, and nothing after them. */
  lemma ServerScriptShape(o: Oracle)
    ensures var n := FollowUpRounds(o.decisions); var s := ServerScript(o);
      |s| == 3 + n && s[0] == QDescribe && s[1] == QHistory && s[2] == QMedications
      && forall k :: 0 <= k < n ==> s[3 + k] == Strip(o.followUps(k))
  {
  }

  /** The history after `update_assessment` handles a follow-up's history:
      `analyze_medical_history` extends a list history with the reported
      items, and when the returned dict and its "medical_history" are
      truthy the same items are appended once more. Every failure is
      swallowed and leaves the history as the analysis left it. */
  function ExtendedHistory(history: Value, reply: Parse): Value {
    var analysis := HistoryAnalysis(history, reply);
    if analysis.Err? then history
    else
      var (extended, update) := analysis.value;
      var items := Member(update, "medical_history");
      if Truthy(update) && Truthy(items) && extended.Arr? && Iterate(items).Ok? then
        Arr(extended.items + Iterate(items).value)
      else extended
  }

  /** A list history gains every reported item twice, in order. */
  lemma HistoryExtendedTwice(history: seq<Value>, reply: Value)
    requires HasKey(reply, "medical_history")
    requires Iterate(At(reply, "medical_history")).Ok? && Truthy(At(reply, "medical_history"))
    ensures var more := Iterate(At(reply, "medical_history")).value;
      ExtendedHistory(Arr(history), Parsed(reply)) == Arr(history + more + more)
  {
    assert Truthy(reply);
  }

  /** A malformed reply leaves the history alone. */
  lemma MalformedHistoryKept(history: Value)
    ensures ExtendedHistory(history, Malformed) == history
  {
  }

  /** Once the history is a dict, as the opening leaves it, follow-ups never
      change it. */
  lemma ServerDictHistoryIsFinal(history: Value, reply: Parse)
    requires history.Obj?
    ensures ExtendedHistory(history, reply) == history
  {
    DictHistoryNeverGrows(history, reply);
  }

  /** The question of follow-up round `k` sits right after the opening. */
  lemma ServerScriptFollowUp(o: Oracle, k: nat)
    requires k < FollowUpRounds(o.decisions)
    ensures var s := ServerScript(o); 3 + k < |s| && s[3 + k] == Strip(o.followUps(k))
  {
    ServerScriptShape(o);
  }

  /** The symptoms and history after one `update_assessment` of this agent:
      unchanged when the symptom analysis fails, otherwise every new symptom
      appended behind the old ones, duplicates included, and the history
      extended. A dict history is never touched. */
  function ServerUpdated(symptoms: seq<Value>, history: Value, symptomReply: Parse, historyReply: Parse): (r: (seq<Value>, Value))
    ensures AnalyzeSymptoms(symptomReply).Err? ==> r == (symptoms, history)
    ensures AnalyzeSymptoms(symptomReply).Ok? ==>
      var found := AnalyzeSymptoms(symptomReply).value;
      |r.0| == |symptoms| + |found| && r.0[..|symptoms|] == symptoms && r.0[|symptoms|..] == found
    ensures history.Obj? ==> r.1 == history
  {
    var found := AnalyzeSymptoms(symptomReply);
    if found.Err? then (symptoms, history)
    else
      var extended := ExtendedHistory(history, historyReply);
      assert history.Obj? ==> extended == history by {
        if history.Obj? { ServerDictHistoryIsFinal(history, historyReply); }
      }
      (symptoms + found.value, extended)
  }

  /** The symptoms and history after the first `k` follow-up rounds of this
      agent. The symptom list only grows, and a dict history is never
      touched. */
  function ServerAfterRounds(o: Oracle, k: nat, symptoms: seq<Value>, history: Value): (r: (seq<Value>, Value))
    ensures |symptoms| <= |r.0| && r.0[..|symptoms|] == symptoms
    ensures history.Obj? ==> r.1 == history
  {
    if k == 0 then (symptoms, history)
    else
      var (s, h) := ServerAfterRounds(o, k - 1, symptoms, history);
      var next := ServerUpdated(s, h, o.symptoms(k), o.history(k));
      assert next.0[..|symptoms|] == next.0[..|s|][..|symptoms|];
      next
  }

  /** Everything this agent's `conduct_consultation` has collected once the
      follow-ups are done. The opening runs the same three analyses as the
      console agent, so it exists exactly when they succeed; the opening's
      symptoms come first; and the history stays the dict the opening's
      analysis returned, so the follow-ups' `extend` never reaches it. */
  function ServerCollected(o: Oracle, history: Value): (r: Result<Assessment>)
    ensures r.Ok? <==> OpeningAnalyses(o, history).Ok?
    ensures r.Ok? ==> r.value.history == (if o.history(0).Parsed? then o.history(0).v else Obj([]))
    ensures r.Ok? ==>
      var first := OpeningAnalyses(o, history).value.symptoms;
      |first| <= |r.value.symptoms| && r.value.symptoms[..|first|] == first
  {
    var first :- OpeningAnalyses(o, history);
    var (s, h) := ServerAfterRounds(o, FollowUpRounds(o.decisions), first.symptoms, first.history);
    Ok(Assessment(s, h, first.medications))
  }

  class ServerAgent {
    /** Whether answers come through the voice channel. */
    const voice: bool
    var conversationHistory: seq<Exchange>
    var currentSymptoms: seq<Value>
    var medicalHistory: Value
    var prescription: Value
    /** The records `save_consultation` has written, in order. */
    var saved: seq<Value>

    constructor(voice: bool)
      ensures this.voice == voice
      ensures conversationHistory == [] && currentSymptoms == []
      ensures medicalHistory == Arr([]) && prescription == Arr([]) && saved == []
    {
      this.voice := voice;
      conversationHistory := [];
      currentSymptoms := [];
      medicalHistory := Arr([]);
      prescription := Arr([]);
      saved := [];
    }

    /** `save_consultation`: build the record and write it. */
    method SaveConsultation() returns (r: Result<Value>)
      modifies this`saved
      ensures r == SaveRecord(prescription, currentSymptoms, medicalHistory)
      ensures saved == if r.Ok? then old(saved) + [r.value] else old(saved)
    {
      r := SaveRecord(prescription, currentSymptoms, medicalHistory);
      if r.Ok? {
        saved := saved + [r.value];
      }
    }

    /** `ask_question`: read the answer; on an exit request save through
      `handle_exit` and raise, otherwise record one exchange. */
    method AskQuestion(question: string, input: PatientInput) returns (a: Asked)
      modifies this`conversationHistory, this`saved
      ensures Resolve(voice, input).Response? ==>
        a == Answered(Resolve(voice, input).text)
        && conversationHistory == old(conversationHistory) + [Exchange(question, a.response)]
        && saved == old(saved)
      ensures Resolve(voice, input).ExitRequested? ==>
        conversationHistory == old(conversationHistory)
        && var rec := SaveRecord(prescription, currentSymptoms, medicalHistory);
           (rec.Ok? ==> a == Quit && saved == old(saved) + [rec.value])
           && (rec.Err? ==> a == Raised(rec.error) && saved == old(saved))
    {
      var reading := ReadAnswer(voice, input);
      if reading.ExitRequested? {
        var written := SaveConsultation();
        a := if written.Ok? then Quit else Raised(written.error);
        return;
      }
      conversationHistory := conversationHistory + [Exchange(question, reading.text)];
      a := Answered(reading.text);
    }

    /** Ask the next question of `script` and keep `Recorded` up to date.
      An exit leaves the agent through `handle_exit`, which quits exactly
      when the record can be saved. */
    method AskNext(question: string, o: Oracle, ghost h0: seq<Exchange>, ghost script: seq<string>) returns (a: Asked)
      requires Recorded(h0, conversationHistory, script, voice, o.answer)
      requires |conversationHistory| - |h0| < |script| && script[|conversationHistory| - |h0|] == question
      modifies this`conversationHistory, this`saved
      ensures Recorded(h0, conversationHistory, script, voice, o.answer)
      ensures a.Answered? ==> |conversationHistory| == |old(conversationHistory)| + 1 && saved == old(saved)
      ensures !a.Answered? ==>
        conversationHistory == old(conversationHistory)
        && Resolve(voice, o.answer(|conversationHistory|)) == ExitRequested
        && Stopped(Unanswered(a), old(saved), saved, SaveRecord(prescription, currentSymptoms, medicalHistory))
        && (a.Quit? <==> SaveRecord(prescription, currentSymptoms, medicalHistory).Ok?)
    {
      ghost var h := conversationHistory;
      a := AskQuestion(question, o.answer(|conversationHistory|));
      if a.Answered? {
        RecordedNext(h0, h, script, voice, o.answer, question, a.response);
      }
    }

    /** `analyze_medical_history`: extend the current history in place and
      return the parsed reply. */
    method AnalyzeMedicalHistory(reply: Parse) returns (r: Result<Value>)
      modifies this`medicalHistory
      ensures var analysis := HistoryAnalysis(old(medicalHistory), reply);
        r == (if analysis.Ok? then Ok(analysis.value.1) else Err(analysis.error))
        && medicalHistory == if analysis.Ok? then analysis.value.0 else old(medicalHistory)
    {
      match reply
      case Malformed =>
        return Ok(Obj([]));
      case Parsed(v) =>
        if !medicalHistory.Arr? {
          return Err(AttributeError);
        }
        var item := Subscript(v, "medical_history");
        if item.Err? {
          return Err(item.error);
        }
        var more := Iterate(item.value);
        if more.Err? {
          return Err(more.error);
        }
        medicalHistory := Arr(medicalHistory.items + more.value);
        return Ok(v);
    }

    /** `update_assessment`: extend the symptoms with the follow-up's new
      ones, duplicates included, then extend the history; any error stops
      the update and is swallowed. */
    method UpdateAssessment(symptomReply: Parse, historyReply: Parse)
      modifies this`currentSymptoms, this`medicalHistory
      ensures AnalyzeSymptoms(symptomReply).Err? ==>
        currentSymptoms == old(currentSymptoms) && medicalHistory == old(medicalHistory)
      ensures AnalyzeSymptoms(symptomReply).Ok? ==>
        currentSymptoms == old(currentSymptoms) + AnalyzeSymptoms(symptomReply).value
        && medicalHistory == ExtendedHistory(old(medicalHistory), historyReply)
    {
      var found := AnalyzeSymptoms(symptomReply);
      if found.Err? {
        return;
      }
      if found.value != [] {
        currentSymptoms := currentSymptoms + found.value;
      }
      var update := AnalyzeMedicalHistory(historyReply);
      if update.Err? {
        return;
      }
      var items := Get(update.value, "medical_history", Null);
      if items.Err? {
        return;
      }
      if Truthy(update.value) && Truthy(items.value) {
        if !medicalHistory.Arr? {
          return;
        }
        var grown := Extend(medicalHistory.items, items.value);
        if grown.Err? {
          return;
        }
        medicalHistory := Arr(grown.value);
      }
    }

    /** `generate_prescription`: store the parsed reply, then show it. */
    method GeneratePrescription(reply: Parse) returns (r: Result<seq<string>>)
      modifies this`prescription
      ensures reply.Malformed? ==> r == Err(JSONDecodeError) && prescription == old(prescription)
      ensures reply.Parsed? ==> prescription == reply.v && (r.Ok? <==> PlanReady(reply.v))
      ensures reply.Parsed? && r.Ok? ==>
        var meds := PlanMeds(reply.v).value;
        |r.value| == |meds| + 1 && r.value[0] == Display(At(reply.v, "diagnosis"))
        && forall i :: 0 <= i < |meds| ==> r.value[i + 1] == PlanLine(meds[i])
    {
      if reply.Malformed? {
        return Err(JSONDecodeError);
      }
      prescription := reply.v;
      r := TreatmentPlan(prescription);
      TreatmentPlanReady(prescription);
    }

    /** The fields hold the assessment `c`; this agent keeps no
        medications. */
    predicate Holds(c: Result<Assessment>)
      reads this`currentSymptoms, this`medicalHistory
    {
      c.Ok? && currentSymptoms == c.value.symptoms && medicalHistory == c.value.history
    }

    /** The opening of `conduct_consultation`: symptoms, history and
      medications, each answer followed by its analysis; the medications
      found are not kept. Unless it stops, the agent then holds the
      opening's analyses. */
    method OpeningQuestions(o: Oracle) returns (done: bool, ending: Ending)
      modifies this`conversationHistory, this`saved, this`currentSymptoms, this`medicalHistory
      ensures Recorded(old(conversationHistory), conversationHistory, ServerScript(o), voice, o.answer)
      ensures !done ==>
        |conversationHistory| == |old(conversationHistory)| + 3 && saved == old(saved)
        && Holds(OpeningAnalyses(o, old(medicalHistory)))
      ensures done == !ending.Completed?
      ensures done ==>
        Stopped(ending, old(saved), saved, SaveRecord(prescription, currentSymptoms, medicalHistory))
        && (ending.Exited? ==> Resolve(voice, o.answer(|conversationHistory|)) == ExitRequested)
    {
      ServerScriptShape(o);
      var a := AskNext(QDescribe, o, old(conversationHistory), ServerScript(o));
      if !a.Answered? { return true, Unanswered(a); }
      var found := AnalyzeSymptoms(o.symptoms(0));
      if found.Err? { return true, Failed(found.error); }
      currentSymptoms := found.value;

      a := AskNext(QHistory, o, old(conversationHistory), ServerScript(o));
      if !a.Answered? { return true, Unanswered(a); }
      var history := AnalyzeMedicalHistory(o.history(0));
      if history.Err? { return true, Failed(history.error); }
      medicalHistory := history.value;

      a := AskNext(QMedications, o, old(conversationHistory), ServerScript(o));
      if !a.Answered? { return true, Unanswered(a); }
      var meds := IdentifyMedications(o.medications);
      if meds.Err? { return true, Failed(meds.error); }
      return false, Completed;
    }

    /** One round of the follow-up loop: ask the generated question, then
      update the assessment with the answers that go with it. */
    method FollowUpRound(o: Oracle, count: nat, ghost h0: seq<Exchange>) returns (a: Asked)
      requires count < FollowUpRounds(o.decisions)
      requires |conversationHistory| == |h0| + 3 + count
      requires Recorded(h0, conversationHistory, ServerScript(o), voice, o.answer)
      modifies this`conversationHistory, this`saved, this`currentSymptoms, this`medicalHistory
      ensures Recorded(h0, conversationHistory, ServerScript(o), voice, o.answer)
      ensures a.Answered? ==>
        |conversationHistory| == |old(conversationHistory)| + 1 && saved == old(saved)
        && (currentSymptoms, medicalHistory)
           == ServerUpdated(old(currentSymptoms), old(medicalHistory), o.symptoms(count + 1), o.history(count + 1))
      ensures !a.Answered? ==>
        conversationHistory == old(conversationHistory)
        && currentSymptoms == old(currentSymptoms) && medicalHistory == old(medicalHistory)
        && Resolve(voice, o.answer(|conversationHistory|)) == ExitRequested
        && Stopped(Unanswered(a), old(saved), saved, SaveRecord(prescription, currentSymptoms, medicalHistory))
    {
      ghost var script := ServerScript(o);
      ServerScriptFollowUp(o, count);
      a := AskNext(Strip(o.followUps(count)), o, h0, script);
      if a.Answered? {
        UpdateAssessment(o.symptoms(count + 1), o.history(count + 1));
      }
    }

    /** The follow-up loop: at most three rounds, ended early by a decision
      saying "No"; each round asks one generated question and updates the
      assessment with the answer. Whenever it ends, the symptoms and
      history are those after the rounds asked. */
    method FollowUpLoop(o: Oracle, ghost h0: seq<Exchange>) returns (done: bool, ending: Ending)
      requires Recorded(h0, conversationHistory, ServerScript(o), voice, o.answer)
      requires |conversationHistory| == |h0| + 3
      modifies this`conversationHistory, this`saved, this`currentSymptoms, this`medicalHistory
      ensures Recorded(h0, conversationHistory, ServerScript(o), voice, o.answer)
      ensures |old(conversationHistory)| <= |conversationHistory|
      ensures (currentSymptoms, medicalHistory)
        == ServerAfterRounds(o, |conversationHistory| - |old(conversationHistory)|, old(currentSymptoms), old(medicalHistory))
      ensures !done ==> |conversationHistory| == |h0| + 3 + FollowUpRounds(o.decisions) && saved == old(saved)
      ensures done == !ending.Completed?
      ensures done ==>
        Stopped(ending, old(saved), saved, SaveRecord(prescription, currentSymptoms, medicalHistory))
        && (ending.Exited? ==> Resolve(voice, o.answer(|conversationHistory|)) == ExitRequested)
    {
      var count := 0;
      while count < 3
        invariant count <= FollowUpRounds(o.decisions)
        invariant |conversationHistory| == |old(conversationHistory)| + count
        invariant Recorded(h0, conversationHistory, ServerScript(o), voice, o.answer)
        invariant saved == old(saved)
        invariant (currentSymptoms, medicalHistory) == ServerAfterRounds(o, count, old(currentSymptoms), old(medicalHistory))
      {
        NextDecision(o.decisions, count);
        var decision := Strip(o.decisions(count));
        if Contains(decision, "No") {
          break;
        }
        var a := FollowUpRound(o, count, h0);
        if !a.Answered? { return true, Unanswered(a); }
        count := count + 1;
      }
      return false, Completed;
    }

    /** The end of `conduct_consultation`: generate and show the
      prescription, then save the consultation. It fails exactly when the
      prescription cannot be shown, and otherwise saves the record of the
      parsed prescription. */
    method Conclude(o: Oracle) returns (ending: Ending)
      modifies this`prescription, this`saved
      ensures o.prescription.Malformed? ==> ending == Failed(JSONDecodeError) && prescription == old(prescription)
      ensures o.prescription.Parsed? ==> prescription == o.prescription.v
      ensures ending.Completed? <==> o.prescription.Parsed? && PlanReady(o.prescription.v)
      ensures !ending.Exited?
      ensures ending.Completed? ==>
        SaveRecord(prescription, currentSymptoms, medicalHistory).Ok?
        && saved == old(saved) + [SaveRecord(prescription, currentSymptoms, medicalHistory).value]
      ensures ending.Failed? ==> saved == old(saved)
    {
      var plan := GeneratePrescription(o.prescription);
      if plan.Err? { return Failed(plan.error); }
      ShownPrescriptionCanBeSaved(prescription, currentSymptoms, medicalHistory);
      var written := SaveConsultation();
      return Completed;
    }

    /** `conduct_consultation`: the opening, the follow-up loop, the
      prescription and the save; the exit exception is caught and ends the
      consultation. A completed run holds what it collected, with the
      history left as the dict the opening's analysis returned, and saves
      the record of the parsed prescription. Every exit comes before the
      prescription is generated, so it saves the record of the prescription
      the agent started with; a fresh agent's `[]` has no "diagnosis", so
      its `handle_exit` raises and it can never exit cleanly. */
    method ConductConsultation(o: Oracle) returns (ending: Ending)
      modifies this`conversationHistory, this`saved, this`currentSymptoms, this`medicalHistory, this`prescription
      ensures Recorded(old(conversationHistory), conversationHistory, ServerScript(o), voice, o.answer)
      ensures ending.Completed? ==>
        |conversationHistory| == |old(conversationHistory)| + 3 + FollowUpRounds(o.decisions)
        && Holds(ServerCollected(o, old(medicalHistory)))
        && o.prescription.Parsed? && prescription == o.prescription.v && PlanReady(prescription)
      ensures ending.Completed? ==>
        SaveRecord(prescription, currentSymptoms, medicalHistory).Ok?
        && saved == old(saved) + [SaveRecord(prescription, currentSymptoms, medicalHistory).value]
      ensures ending.Exited? ==>
        Resolve(voice, o.answer(|conversationHistory|)) == ExitRequested && prescription == old(prescription)
      ensures !ending.Completed? ==>
        Stopped(ending, old(saved), saved, SaveRecord(prescription, currentSymptoms, medicalHistory))
      ensures ending.Exited? ==> HasKey(old(prescription), "diagnosis") && HasKey(old(prescription), "prescription")
      ensures old(prescription) == Arr([]) ==> !ending.Exited?
    {
      ghost var collected := ServerCollected(o, medicalHistory);
      ghost var h0 := conversationHistory;
      var done;
      done, ending := OpeningQuestions(o);
      if done { return; }
      done, ending := FollowUpLoop(o, h0);
      if done { return; }
      assert Holds(collected);
      ending := Conclude(o);
    }
  }
}
