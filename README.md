# Pulse doctor agent: consultation core in Dafny

This project models the consultation logic of the pulse doctor agent and
proves properties of it. The agent interviews a patient, collects symptoms,
medical history and medications, asks a bounded number of follow-up
questions, produces a prescription and saves the consultation. It also
answers phone calls, and it turns a saved consultation into intake forms.

Every call to the language model is an oracle parameter: a `Parse` outcome
(`Malformed` or `Parsed(value)`) or a reply text. The patient's input is a
parameter too. Python's dicts, lists and strings are modelled as a JSON
`Value` with ordered object members. Python exceptions are `Err` results,
and the exception kinds are kept.

The modules follow the source files:

- `pystr.dfy` (`PyStr`) covers the Python string operations the core uses:
  `lower`, `strip`, `in` on strings, `split()`, and `replace` of one
  character.
- `json.dfy` (`Json`) covers values, truthiness, `==`, `d[k]`, `d.get`,
  iteration, `list.extend` and `str()`.
- `exit.dfy` (`ExitCommand`) models `is_exit_command`. Its two copies in
  the agent files are identical.
- `consultation.dfy` (`Consultation`) holds what both interview agents
  share:
  - the analyses of model replies;
  - how `ask_question` reads one answer;
  - the saved record and the shown treatment plan;
  - the follow-up stopping rule;
  - the de-duplicating merge.
- `agent.dfy` (`InterviewAgent`) models the console agent of
  `ai_agent/interview_agent.py` as a class.
- `server_agent.dfy` (`ServerInterviewAgent`) models the agent of
  `ai-agent/interview-agent.py`, which has a different opening, a plain
  `extend`, and a save after the prescription.
- `phone.dfy` (`PhoneCall`) models the `process_voice_input` state machine
  and the phone save record.
- `forms.dfy` (`Forms`) models `MedicalFormGenerator`.
- `adapter.dfy` (`Adapter`) models `MedicalConsultationAdapter`.

The interview is stated against a script, the list of questions a run can
ask. The `Recorded` invariant says the conversation history grows by
answered questions of the script, in order, and that each entry holds the
answer its input resolves to. The consultation methods keep this invariant.
They state:

- how many entries each phase adds;
- how the run ends (completed, exited after a save, or failed with an
  exception that escapes);
- what was saved.

Quirks of the source are modelled as written and shown by lemmas:

- The follow-up loop's cap is a literal 3, although `max_follow_ups` is 2.
- After the opening, `medical_history` holds the dict the model returned.
  A later `.extend` on it fails, so follow-ups never add history.
- `analyze_medical_history` already extends a list history. The console
  agent's de-duplicating loop therefore adds nothing. The other agent
  appends the items a second time.
- "no" is matched as a substring on the phone, so "I know" ends the call.
- "want to end" matches "I want to endure".

## Model

| member | source | states |
|---|---|---|
| ExitCommand.IsExitCommand | ai_agent/interview_agent.py:390-407 | The early-return search returns exactly `IsExit(text)`: the text is non-empty, and its lower-cased, stripped form is an exit word or contains "want to <word>" or "<word> consultation" for some exit word. |
| ExitCommand.BlankIsNotExit | ai_agent/interview_agent.py:392-396 | Empty or all-white-space text is never an exit command. |
| ExitCommand.PaddedCommandIsExit | ai_agent/interview_agent.py:395-400 | An exit word in any letter case, with any white space around it, is an exit command. |
| ExitCommand.WantToPhraseIsExit | ai_agent/interview_agent.py:403-405 | "want to <word>" anywhere inside lower-case text makes it an exit command. |
| ExitCommand.ConsultationPhraseIsExit | ai_agent/interview_agent.py:403-405 | "<word> consultation" anywhere inside lower-case text makes it an exit command. |
| ExitCommand.ExitIgnoresCase | ai-agent/interview-agent.py:364 | A text and its lower-case form are exit commands alike. |
| ExitCommand.NoPhraseWithoutWAndC | ai-agent/interview-agent.py:371-373 | A text with neither 'w' nor 'c' contains no exit phrase. |
| ExitCommand.NormalizePlain | ai-agent/interview-agent.py:364 | Lower-case text with no surrounding white space is unchanged by lower-and-strip. |
| ExitCommand.PlainTextIsExitOnlyAsWord | ai-agent/interview-agent.py:360-375 | Such text without 'w' and 'c' is an exit command exactly when it is one of the seven exit words. |
| ExitCommand.WantToEndureIsExit | ai_agent/interview_agent.py:404 | "i want to endure" is an exit command, because the phrase test is a substring test. |
| ExitCommand.EndConsultationIsExit | ai_agent/interview_agent.py:404 | "please end consultation" is an exit command. |
| ExitCommand.PaddedGoodbyeIsExit | ai_agent/interview_agent.py:396-400 | "  GoodBye " is an exit command. |
| ExitCommand.StoppingIsNotExit | ai_agent/interview_agent.py:399-407 | "stopping by later" is not an exit command. |
| Consultation.AnalyzeSymptoms | ai_agent/interview_agent.py:230-242 | Returns the list under "symptoms" when the parsed reply holds one there. A malformed reply, a missing key or a non-list gives `[]`. A reply that is not a dict raises `AttributeError`, because the handler does not catch it. |
| Consultation.IdentifyMedications | ai-agent/interview-agent.py:528-533 | A malformed reply gives `[]`. Otherwise the result is the value under "medications", or `KeyError`/`TypeError` when there is none. |
| Consultation.HistoryAnalysis | ai_agent/interview_agent.py:536-543 | A malformed reply returns `{}` and leaves the history unchanged. A history that is not a list raises `AttributeError`. Otherwise the history is extended by the reply's "medical_history" items, and the reply is returned. |
| Consultation.DictHistoryNeverGrows | ai_agent/interview_agent.py:536-543 | Once the history is a dict, every analysis raises `AttributeError` or changes nothing. |
| Consultation.Resolve | ai_agent/interview_agent.py:344-380 | An answer is never an exit command. It is the typed line, or in voice mode the transcript or the fallback line. |
| Consultation.ReadAnswer | ai_agent/interview_agent.py:346-380 | The channel-by-channel reading returns `Resolve(voice, input)`. |
| Consultation.TextModeAnswer | ai_agent/interview_agent.py:374-380 | In text mode the typed line is the answer unless it is an exit command. |
| Consultation.VoiceModeTypedAnswer | ai_agent/interview_agent.py:349-373 | In voice mode a non-blank typed line decides alone. |
| Consultation.VoiceModeTranscriptAnswer | ai_agent/interview_agent.py:356-362 | A blank line hands over to the recorder, and a non-empty transcript decides. |
| Consultation.VoiceModeFallbackAnswer | ai_agent/interview_agent.py:364-370 | After an empty transcript the fallback line decides. |
| Consultation.BlankLineListens | ai-agent/interview-agent.py:320-326 | A white-space line is never taken as an exit. It behaves like an empty line. |
| Consultation.SaveRecord | ai_agent/interview_agent.py:315-321 | Succeeds exactly when the prescription has "diagnosis" and "prescription". The initial `[]` raises `TypeError`. The record holds those two values, the symptoms and the history. |
| Consultation.PlanLines | ai_agent/interview_agent.py:310-311 | One line per medication, in order, when all have name, dosage and duration. Otherwise the result is the error of the first medication that cannot be shown. |
| Consultation.TreatmentPlan | ai_agent/interview_agent.py:307-311 | The shown plan is the diagnosis followed by one line per medication. |
| Consultation.TreatmentPlanReady | ai_agent/interview_agent.py:303-311 | The plan is shown exactly when the prescription is ready, and then the first line is the diagnosis and the rest follow the medications in order. |
| Consultation.ShownPrescriptionCanBeSaved | ai_agent/interview_agent.py:313-321 | After a plan was shown, saving the record succeeds. |
| Consultation.SaysNoAnywhere | ai_agent/interview_agent.py:171-173 | The loop stops exactly when the decision contains "No", case-sensitively. |
| Consultation.FirstNo | ai_agent/interview_agent.py:170-173 | The first round from `k` whose decision says "No", or 3. No decision before it says "No". |
| Consultation.FollowUpRoundsMeaning | ai_agent/interview_agent.py:169-178 | At most three rounds. No decision of an asked round says "No". Fewer than three rounds means the next decision says "No". |
| Consultation.FirstNoFrom | ai-agent/interview-agent.py:152-161 | The first "No" from round `k` is the round count, once rounds before `k` went on. |
| Consultation.NextDecision | ai_agent/interview_agent.py:170-173 | While no earlier round has stopped, decision `k` says "No" exactly when `k` is the number of rounds. |
| Consultation.AlwaysYesAsksThree | ai_agent/interview_agent.py:169-178 | A model that always says "Yes" gets three follow-ups, one more than `max_follow_ups`. |
| Consultation.MergeUnique | ai_agent/interview_agent.py:572-576 | The merge keeps the old list as a prefix and adds at most the new items. |
| Consultation.MergeCovers | ai_agent/interview_agent.py:573-576 | After the merge every new item is in the list. |
| Consultation.MergeAddsOnlyNew | ai_agent/interview_agent.py:575-576 | Each appended item is a new item that was not in the list before it. |
| Consultation.MergeKeepsOrder | ai_agent/interview_agent.py:573-576 | The appended items keep their extracted order. |
| Consultation.MergeNothingNew | ai_agent/interview_agent.py:581-583 | Items already present add nothing. |
| Consultation.MergeIdempotent | ai_agent/interview_agent.py:572-576 | Merging the same items twice equals merging them once. |
| Consultation.RepeatedItemKeptOnce | ai_agent/interview_agent.py:573-576 | A new symptom reported twice in one reply is appended once. |
| InterviewAgent.Opening | ai_agent/interview_agent.py:146-160 | The opening questions: symptoms, then demographics when they are missing, then history and medications. |
| InterviewAgent.FollowUpQuestions | ai_agent/interview_agent.py:175-176 | Round `k` asks the stripped generated question `k`. |
| InterviewAgent.ScriptOpening | ai_agent/interview_agent.py:146-160 | The script begins with the opening questions. |
| InterviewAgent.ScriptFollowUps | ai_agent/interview_agent.py:168-178 | The follow-up questions come right after the opening, one per round. |
| InterviewAgent.ScriptFollowUp | ai_agent/interview_agent.py:175-176 | Round `k` asks the stripped generated question `k`, right after the opening questions. |
| InterviewAgent.ScriptClosing | ai_agent/interview_agent.py:183-192 | The script ends with the satisfaction question and the extra question. |
| InterviewAgent.RecordedNext | ai_agent/interview_agent.py:383-388 | Answering the next script question keeps the history `Recorded`. |
| InterviewAgent.HistoryDedupIsIneffective | ai_agent/interview_agent.py:579-583 | The de-duplicating history loop adds nothing beyond what `analyze_medical_history` appended. |
| InterviewAgent.DictHistoryIsFinal | ai_agent/interview_agent.py:579-583 | Once the history is a dict, follow-ups never change it. |
| InterviewAgent.DeclinedMeaning | ai_agent/interview_agent.py:184 | Declining means the lower-cased, stripped answer is "no" or "n". |
| InterviewAgent.OpeningAnalyses | ai_agent/interview_agent.py:146-166 | The opening analyses succeed exactly when the symptom, history and medication analyses all do. The history then becomes the dict the model returned, or `{}` for a malformed reply, and not the list the analysis extended. |
| InterviewAgent.MedsNoted | ai_agent/interview_agent.py:162-166 | Truthy medications are noted under "current_medications". Otherwise the patient data is unchanged. |
| InterviewAgent.Updated | ai_agent/interview_agent.py:567-590 | One `update_assessment`: a failed symptom analysis changes nothing, the old symptoms stay a prefix, and a dict history is untouched. |
| InterviewAgent.AfterRounds | ai_agent/interview_agent.py:169-178 | After any number of follow-up rounds the old symptoms are still a prefix, and a dict history is untouched. |
| InterviewAgent.Collected | ai_agent/interview_agent.py:144-178 | What the interview collects exists exactly when the opening analyses succeed. The opening symptoms come first, and the history is still the dict of the opening reply. |
| InterviewAgent.Agent.constructor | ai_agent/interview_agent.py:42-90 | Empty history, patient data and symptoms. History and prescription start as `[]`. |
| InterviewAgent.Agent.SaveConsultation | ai_agent/interview_agent.py:313-329 | Returns `SaveRecord(...)` and appends the record to what was saved exactly when it succeeds. |
| InterviewAgent.Agent.AskQuestion | ai_agent/interview_agent.py:331-416 | An answer appends exactly one exchange. An exit request appends none, saves through `handle_exit`, and quits; if the save raises, that error is returned instead. |
| InterviewAgent.Agent.AskNext | ai_agent/interview_agent.py:331-388 | Asking the next script question keeps `Recorded`. An answer adds one entry. An exit adds none and quits exactly when the agent record can be saved, appending that record to `saved`. |
| InterviewAgent.Agent.AnalyzeMedicalHistory | ai_agent/interview_agent.py:519-543 | Result and new history are as `HistoryAnalysis` says. |
| InterviewAgent.Agent.UpdateAssessment | ai_agent/interview_agent.py:567-590 | Symptoms become `MergeUnique(old, new)` and history becomes `MergedHistory`, which together is `Updated`. A reply that is not a dict leaves both unchanged. |
| InterviewAgent.Agent.MergeSymptoms | ai_agent/interview_agent.py:573-576 | The loop leaves `MergeUnique(old symptoms, new)`. |
| InterviewAgent.Agent.MergeHistoryItems | ai_agent/interview_agent.py:581-583 | The loop leaves `MergeUnique(old history, items)`. |
| InterviewAgent.Agent.GeneratePrescription | ai_agent/interview_agent.py:279-311 | A malformed reply raises `JSONDecodeError`. Otherwise the reply is stored, and the shown lines succeed exactly when it is ready: the diagnosis, then one line per medication. |
| InterviewAgent.Agent.OpeningQuestions | ai_agent/interview_agent.py:144-166 | Asks the opening questions in order, one entry each. Unless it stops, symptoms, history and patient data hold `OpeningAnalyses`: the history is the reply dict and the medications are noted. An exit appends the agent record to `saved`. |
| InterviewAgent.Agent.HistoryQuestions | ai_agent/interview_agent.py:155-166 | Two entries. Unless it stops, the history is the dict the history analysis returns and the medications are noted in the patient data. An exit saves the record. |
| InterviewAgent.Agent.FollowUpRound | ai_agent/interview_agent.py:175-178 | One round adds one entry and applies `Updated` with its replies. On an exit nothing collected changes and the record is saved. |
| InterviewAgent.Agent.FollowUpLoop | ai_agent/interview_agent.py:168-178 | Adds exactly `FollowUpRounds` entries unless an answer exits. However it ends, symptoms and history are `AfterRounds` of the rounds asked. An exit saves the record. |
| InterviewAgent.Agent.Closing | ai_agent/interview_agent.py:183-199 | Asks the satisfaction question. A declining answer ends with one entry; otherwise the extra question adds a second. It never fails, because the shown prescription can be saved, and an exit saves the record. |
| InterviewAgent.Agent.Conclude | ai_agent/interview_agent.py:180-199 | A malformed reply fails with `JSONDecodeError` and keeps the old prescription. A parsed reply becomes the prescription, and the run fails exactly when it is not ready. A completed run has the closing entries; an exit saves the record. |
| InterviewAgent.Agent.Interview | ai_agent/interview_agent.py:144-178 | Adds `|Opening| + FollowUpRounds` entries unless the run stops. The agent then holds `Collected`: the opening analyses, every follow-up round and the dict history. |
| InterviewAgent.Agent.ConductConsultation | ai_agent/interview_agent.py:134-202 | The history is `Recorded` against the script. A completed run closed after the opening and every follow-up round. It holds `Collected` with the dict history and the parsed, ready prescription. An exit appends the agent record to `saved` and needs a prescription with a diagnosis and a plan. Any other ending saves nothing. |
| ServerInterviewAgent.ServerOpening | ai-agent/interview-agent.py:140-149 | The three opening questions in order: describe symptoms, history, medications. |
| ServerInterviewAgent.ServerScriptShape | ai-agent/interview-agent.py:140-161 | The script is the opening followed by one generated question per round, and nothing after. |
| ServerInterviewAgent.ServerScriptFollowUp | ai-agent/interview-agent.py:157-158 | Round `k` asks the stripped generated question `k`, right after the three opening questions. |
| ServerInterviewAgent.HistoryExtendedTwice | ai-agent/interview-agent.py:544-546 | A list history gains each reported item twice, in order. |
| ServerInterviewAgent.MalformedHistoryKept | ai-agent/interview-agent.py:504-511 | A malformed reply leaves the history alone. |
| ServerInterviewAgent.ServerDictHistoryIsFinal | ai-agent/interview-agent.py:544-546 | Once the history is a dict, follow-ups never change it. |
| ServerInterviewAgent.ServerUpdated | ai-agent/interview-agent.py:535-550 | One `update_assessment`: a failed symptom analysis changes nothing. Otherwise every new symptom is appended after the old ones, duplicates included, and a dict history is untouched. |
| ServerInterviewAgent.ServerAfterRounds | ai-agent/interview-agent.py:152-161 | After any number of rounds the old symptoms are still a prefix, and a dict history is untouched. |
| ServerInterviewAgent.ServerCollected | ai-agent/interview-agent.py:138-161 | What the interview collects exists exactly when the opening analyses succeed. The opening symptoms come first, and the history is still the dict of the opening reply. |
| ServerInterviewAgent.ServerAgent.constructor | ai-agent/interview-agent.py:42-90 | Same initial state as the console agent. |
| ServerInterviewAgent.ServerAgent.SaveConsultation | ai-agent/interview-agent.py:281-297 | Returns `SaveRecord(...)` and appends the record on success. |
| ServerInterviewAgent.ServerAgent.AskQuestion | ai-agent/interview-agent.py:299-384 | One exchange per answer. An exit saves and quits with no entry. |
| ServerInterviewAgent.ServerAgent.AskNext | ai-agent/interview-agent.py:299-356 | Keeps `Recorded` against the script, with one entry per answer. An exit adds none and quits exactly when the agent record can be saved, appending that record to `saved`. |
| ServerInterviewAgent.ServerAgent.AnalyzeMedicalHistory | ai-agent/interview-agent.py:487-511 | As `HistoryAnalysis`. |
| ServerInterviewAgent.ServerAgent.UpdateAssessment | ai-agent/interview-agent.py:535-550 | Symptoms are extended by all new symptoms, duplicates included. History becomes `ExtendedHistory`. Non-dict replies change nothing. |
| ServerInterviewAgent.ServerAgent.GeneratePrescription | ai-agent/interview-agent.py:247-279 | As for the console agent. |
| ServerInterviewAgent.ServerAgent.OpeningQuestions | ai-agent/interview-agent.py:138-149 | Three entries in order. Unless it stops, symptoms and history hold `OpeningAnalyses` and the history is the reply dict. An exit saves the record. |
| ServerInterviewAgent.ServerAgent.FollowUpRound | ai-agent/interview-agent.py:157-161 | One round adds one entry and applies `ServerUpdated` with its replies. On an exit nothing collected changes and the record is saved. |
| ServerInterviewAgent.ServerAgent.FollowUpLoop | ai-agent/interview-agent.py:152-161 | `FollowUpRounds` entries, one per round, unless an answer exits. However it ends, symptoms and history are `ServerAfterRounds` of the rounds asked. |
| ServerInterviewAgent.ServerAgent.Conclude | ai-agent/interview-agent.py:163-165 | A malformed reply fails with `JSONDecodeError` and keeps the old prescription. A parsed reply becomes the prescription. The run completes exactly when it is ready, saving one record of it; otherwise nothing is saved. It never exits. |
| ServerInterviewAgent.ServerAgent.ConductConsultation | ai-agent/interview-agent.py:134-168 | A completed run asked 3 + `FollowUpRounds` questions. It holds `ServerCollected` with the dict history and the parsed, ready prescription, and saved exactly one record of them. An exit keeps the old prescription and saves it; that needs a diagnosis and a plan, so a fresh agent with `[]` cannot exit. A failure saves nothing. |
| PhoneCall.Rank | ai_agent/interview_agent.py:604-698 | The position of a state along the call: 0 exactly for greeting, 7 exactly for end. |
| PhoneCall.StepRank | ai_agent/interview_agent.py:604-698 | Each turn moves at most one state forward and never back. It stays put exactly on a misunderstood demographics reply, a follow-up that does not close, or after the end. |
| PhoneCall.RunRank | ai_agent/interview_agent.py:592-702 | `n` turns advance the call by at most `n` states. |
| PhoneCall.EndNeedsSevenTurns | ai_agent/interview_agent.py:604-679 | No call ends in fewer than seven turns. |
| PhoneCall.EndIsFinal | ai_agent/interview_agent.py:696-698 | An ended call stays ended. |
| PhoneCall.IKnowEndsCall | ai_agent/interview_agent.py:677-679 | "I know" in the follow-up state ends the call with the farewell. |
| PhoneCall.AnotherQuestionEndsCall | ai_agent/interview_agent.py:677-679 | "another" ends the call too. |
| PhoneCall.DemographicsRetry | ai_agent/interview_agent.py:630-632 | A demographics reply that is not a dict asks again and stays put. |
| PhoneCall.AlternatesTurn | ai_agent/interview_agent.py:600-701 | A turn appends a caller entry and then an agent entry, keeping the log alternating. |
| PhoneCall.PhoneFileNameHasNoSpace | ai_agent/interview_agent.py:711-712 | The call's file name has no space, whatever the caller's name. |
| PhoneCall.CallLog | ai_agent/interview_agent.py:721 | The saved log has one entry per logged utterance, in order. |
| PhoneCall.CallRecordMembers | ai_agent/interview_agent.py:715-721 | Each of the five keys of the phone record gives back the value stored under it. |
| PhoneCall.CallAgent.PhoneRecord | ai_agent/interview_agent.py:704-729 | The save succeeds exactly when the demographics are a dict with a text name, the symptoms and medications exist, and the log is non-empty. Otherwise it raises `AttributeError` or `IndexError`. The file name and the record's patient, symptoms, medical history, medications and log are given. |
| PhoneCall.CallAgent.SavableAfterMedications | ai_agent/interview_agent.py:704-723 | Once past the medications question, a call with a text name can be saved. |
| PhoneCall.CallAgent.UnsavableBeforeSymptoms | ai_agent/interview_agent.py:715-718 | Before the symptoms were given, saving raises `AttributeError`. |
| PhoneCall.CallAgent.constructor | ai_agent/interview_agent.py:89 | No call yet. `medical_history` is `[]`. |
| PhoneCall.CallAgent.ProcessVoiceInput | ai_agent/interview_agent.py:592-702 | New state and reply are `Step(old state, text, replies)`. Exactly two log entries are appended, caller then agent. Each state stores what it asked for, and the demographics are replaced by any parsed reply. |
| PhoneCall.CallAgent.StartCall | ai_agent/interview_agent.py:595-598 | The first turn creates the state `greeting`, empty demographics and an empty log. |
| PhoneCall.CallAgent.Respond | ai_agent/interview_agent.py:604-698 | The state dispatch matches `Step` and stores the attribute of the state. |
| PhoneCall.SaysClosing | ai_agent/interview_agent.py:677 | The word-by-word search returns `EndsCall(text)`: some closing word occurs in the lower-cased text. |
| Forms.Blanks | ai_agent/forms.py:20-47 | A blank section maps each of its keys, in order, to "". |
| Forms.FormStamped | ai_agent/forms.py:17-50 | A form starts with its type and the record's timestamp and ends with its id. |
| Forms.RegistrationForm | ai_agent/forms.py:15-51 | Built exactly when the record has "timestamp" (otherwise `KeyError`), stamped "Patient Registration" with id "REG_" + stamp. |
| Forms.OngoingSymptoms | ai_agent/forms.py:64-71 | Succeeds exactly when every symptom has name, duration and severity. Then there is one entry per symptom, in order, holding exactly those three. |
| Forms.SecondToLast | ai_agent/forms.py:84 | The frequency is the second-to-last whitespace-separated word of the dosage. Fewer than two words raise `IndexError`, and a non-string raises `AttributeError`. |
| Forms.FrequencyOfWords | ai_agent/forms.py:84 | A dosage written as words has its second-to-last word as frequency. |
| Forms.OneWordDosageRaises | ai_agent/forms.py:84 | A one-word dosage raises `IndexError`. |
| Forms.PrescriptionEntries | ai_agent/forms.py:80-88 | One entry per medication, in order, with name, dosage, frequency and purpose, exactly when every medication has them. |
| Forms.HistoryPartsOf | ai_agent/forms.py:55-62 | The reads of the medical history form, in evaluation order. On success the timestamp is the record's. |
| Forms.MedicalHistoryForm | ai_agent/forms.py:53-108 | Built exactly when its reads succeed, stamped "Medical History" with id "MH_" + stamp. |
| Forms.HistoryPartsMeaning | ai_agent/forms.py:56-88 | Symptom and prescription entries follow the record, one per item and in order. |
| Forms.HistorySectionsMeaning | ai_agent/forms.py:55-105 | Illnesses, allergies and family history come from the record's "medical_history" dict, with their defaults. |
| Forms.MissingHistoryDefaults | ai_agent/forms.py:55-105 | Without "medical_history": no illnesses, no allergies, family history "Not provided". |
| Forms.ListHistoryRaises | ai_agent/forms.py:55-74 | A record whose "medical_history" is a list yields no medical history form. |
| Forms.ProposedTreatments | ai_agent/forms.py:122-130 | One treatment per medication, in order, naming it and its purpose. |
| Forms.ConsentPartsOf | ai_agent/forms.py:113-131 | The reads of the consent form. On success the treatments come from the prescribed medications. |
| Forms.ConsentForm | ai_agent/forms.py:110-144 | Built exactly when its reads succeed, stamped "Consent for Treatment" with id "CONS_" + stamp. |
| Forms.ConsentMeaning | ai_agent/forms.py:120-131 | One treatment per medication. Procedures are the prescription's tests, or `[]`. |
| Forms.ConsentNotGiven | ai_agent/forms.py:115-136 | Consent is not given and emergency treatment is not authorized. |
| Forms.HipaaForm | ai_agent/forms.py:146-179 | Built exactly when the record has "timestamp", stamped "HIPAA Privacy Acknowledgment" with id "HIPAA_" + stamp. |
| Forms.HipaaNotAcknowledged | ai_agent/forms.py:151-155 | The acknowledgment is not given. |
| Forms.InsuranceForm | ai_agent/forms.py:181-213 | Built exactly when the record has "timestamp", stamped "Insurance Information" with id "INS_" + stamp. |
| Forms.FormFileName | ai_agent/forms.py:217-218 | Lower-cased name, "_", the timestamp with every ':' replaced by '-', ".json". It succeeds exactly when the timestamp is a string. |
| Forms.FileNameHasNoColon | ai_agent/forms.py:217-218 | A file name never contains ':'. |
| Forms.GeneratedIsStamped | ai_agent/forms.py:15-213 | Every built form carries its type, the record's timestamp and its id. |
| Forms.GenerateAll | ai_agent/forms.py:228-232 | Forms are built in order, and the first exception stops the build. |
| Forms.SaveAll | ai_agent/forms.py:234-239 | Each form is saved under its file name, in order. |
| Forms.AllForms | ai_agent/forms.py:225-239 | Exactly five forms, in the order Registration, MedicalHistory, Consent, HIPAA, Insurance, each with its file name. This succeeds exactly when all five can be built and the timestamp is a string. |
| Forms.AllFormsInOrder | ai_agent/forms.py:225-239 | The five saved forms carry their types and ids in order, and no file name holds ':'. |
| Forms.SaveNameHasNoColon | ai_agent/forms.py:235-239 | No save name contains ':'. |
| Adapter.Entries | ai-agent/interview_agent_adapter.py:41-59 | One `{"role", "content"}` entry per conversation turn, in order. |
| Adapter.DataReads | ai-agent/interview_agent_adapter.py:88-90 | `consultation_data` never holds "diagnosis", so the summary's diagnosis is always "". Its prescription slot is what was stored. |
| Adapter.AnswerKeepsTurns | ai-agent/interview_agent_adapter.py:56-76 | With the doctor's question pending, an answer, or an answer and the next question, keep doctor and patient alternating. |
| Adapter.AnswerAfterPrescription | ai-agent/interview_agent_adapter.py:68-70 | After a prescription, a further answer follows the patient's previous one and breaks the alternation. |
| Adapter.ConsultationAdapter.constructor | ai-agent/interview_agent_adapter.py:21-28 | No agent, and the initial dict shape. |
| Adapter.ConsultationAdapter.Start | ai-agent/interview_agent_adapter.py:30-46 | Sets an agent, appends exactly one doctor entry with the opening question, and returns it. |
| Adapter.ConsultationAdapter.ProcessPatientResponse | ai-agent/interview_agent_adapter.py:48-78 | Without an agent it behaves as `Start`. Otherwise the patient entry is appended before the agent is consulted. A reply that is a dict holding "prescription" is stored, `None` is returned, and no doctor entry is added. Any other reply is appended as one doctor entry and returned. The turns keep alternating while a question is pending. |
| Adapter.ConsultationAdapter.Finalize | ai-agent/interview_agent_adapter.py:80-103 | Without an agent it returns `{"error": "No active consultation"}` and changes nothing. Otherwise it returns diagnosis "", the stored prescription and the agent's summary, drops the agent and resets the dict. |
| Json.Subscript | ai_agent/forms.py:19 | `d[k]` gives the value exactly when `d` is a dict with the key. Otherwise it raises `KeyError`, or `TypeError` for a non-dict. |
| Json.Get | ai_agent/forms.py:55 | `d.get(k, default)` succeeds exactly on a dict and gives the value or the default. Otherwise it raises `AttributeError`. |
| Json.Iterate | ai_agent/forms.py:64-71 | Lists, strings and dicts iterate. Anything else raises `TypeError`. |
| Json.Extend | ai_agent/interview_agent.py:539 | `list.extend` of an iterable appends its items. |
| PyStr.Split | ai_agent/forms.py:84 | `split()` gives non-empty words without white space. |
| PyStr.SplitJoin | ai_agent/forms.py:84 | Splitting words joined by single spaces gives back the words. |
| PyStr.ReplaceChar | ai_agent/forms.py:217 | `replace` of one character changes exactly that character, keeping the length. |

## Left out

- Language model and JSON parsing: each model reply is a parameter, either a `Parse` outcome or a text. Network failures of the model calls outside the phone demographics step are not modelled. The source does not catch them either, except in `update_assessment`.
- Console, microphone, speaker, temporary audio files and the OpenAI voice client (`record_voice_input`, `speak_text`): device I/O. The patient's typed line, transcript and fallback line are a `PatientInput` parameter.
- The style-rule loop at the start of `ask_question` reads the character configuration and only logs. It is not modelled.
- Clock: the conversation and record timestamps and `call_duration` are dropped. The form id and file name suffixes are a `stamp` parameter.
- File system: `os.makedirs` and the `consultations/` and output directory parts of the paths, the JSON writes of `save_consultation`, `save_phone_consultation` and `save_individual_form`, and the loading of the consultation file by `MedicalFormGenerator`. Saving is modelled as appending the record to `saved` or returning the name and record. Write errors are not modelled.
- Browser toolkit, wallet, AgentKit and NFT members (`collect_wallet_address`, `setup_nft_contract`, `mint_nft`) and `generate_summary`: foreign SDKs and a nested event loop. They take no part in the consultation flow.
- `generate_followup_question` and `yn_needs_followup`: their texts are oracle values. The error fallback question of `generate_followup_question` is such a text too.
- The async structure: every call is a sequential step.
- Logging and `print` output. Only the shown treatment plan is modelled, as the lines `GeneratePrescription` returns.
- The phone attributes live in a class of their own, `PhoneCall.CallAgent`, separate from the console agent. In the source they are attributes of the same object. The phone turn overwrites `medical_history` with a string, which the model shows by storing `Str(text)`.
- PhoneCall.Spoken: the phone replies are a `Reply` datatype, and `Spoken` renders each one to the text the source speaks. The state machine and its lemmas are stated on the `Reply` values.
- Adapter.ConsultationAdapter.ProcessPatientResponse: the agent behind the adapter is a collaborator whose opening question, reply function and summary are parameters. The adapter imports `DoctorPatientAgent` from `ai-agent/interview-agent.py`, but that class needs a configuration argument and defines none of `get_opening_question`, `process_medical_response` or `generate_medical_summary`. The model therefore also leaves out any change the agent could make to the dict it is shown.
- Adapter.ConsultationAdapter.Finalize: the agent's `generate_medical_summary` result is a parameter.
- PyStr.Lower: maps only the ASCII capitals A to Z, while Python's `str.lower` also lower-cases other letters. `PhoneCall.PhoneFileName` (ai_agent/interview_agent.py:711) therefore keeps a caller name's non-ASCII capitals where the source lower-cases them. The exit test is unaffected. Its commands are ASCII words without a 'k', so the Kelvin sign, which lower-cases to 'k', cannot complete one. The only other capital whose lower case holds an ASCII letter is 'İ', and its 'i' is followed by a combining dot.
- Json.Value: numbers are integers only (`Num(int)`). Floating-point values in model replies, such as a dosage of 2.5, are not modelled, and neither is their `str()` inside `Consultation.PlanLine`.
- Json.Repr: the `str()` of a string escapes only backslash, the quote, newline, carriage return and tab. Python's `repr` also escapes other control and non-printable characters, which the model leaves as they are.
- The servers, telephony glue and front end (Flask, Twilio, aiohttp) are HTTP plumbing outside the consultation core.
